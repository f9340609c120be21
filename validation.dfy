/**
  The custom `event_name` validation rule (validator.go): an event name is
  non-empty, made only of upper-case letters and underscores, and does not end
  in `_EVENT`. The checks run in that order and each has its own error.
*/
module Validation {
  import opened Wrappers

  /** The three ways the event-name rule rejects a name, in the order it checks for them. */
  datatype NameError = EmptyName | PatternMismatch | ForbiddenSuffix

  /** The anchored pattern the rule compiles; `$` in Go's regexp matches only at the end of the text. */
  const NAME_PATTERN: string := "^[A-Z_]+$"

  /** The suffix event names must not carry (`USER_CREATED`, not `USER_CREATED_EVENT`). */
  const EVENT_SUFFIX: string := "_EVENT"

  /** The tag under which the rule is registered with the validation library. */
  const EVENT_NAME_RULE: string := "event_name"

  /** The text of the error the rule returns for each kind of rejection. */
  function ErrorText(e: NameError): string
  {
    match e
    case EmptyName => "event name cannot be empty"
    case PatternMismatch => "event name must match the regex " + NAME_PATTERN
    case ForbiddenSuffix => "event name must not end with '_EVENT'"
  }

  /** The character class `[A-Z_]`. */
  predicate IsNameChar(c: char)
  {
    'A' <= c <= 'Z' || c == '_'
  }

  /** A matcher for `^[A-Z_]+$`: one name character, then either the end of the text or a match of the rest. */
  predicate MatchesNamePattern(s: string)
  {
    |s| > 0 && IsNameChar(s[0]) && (|s| == 1 || MatchesNamePattern(s[1..]))
  }

  /** The matcher accepts exactly the non-empty strings all of whose characters are in `[A-Z_]`. */
  lemma {:induction false} MatchesNamePatternIff(s: string)
    ensures MatchesNamePattern(s) <==> |s| > 0 && forall i | 0 <= i < |s| :: IsNameChar(s[i])
  {
    if |s| > 1 {
      MatchesNamePatternIff(s[1..]);
      if forall i | 0 <= i < |s| :: IsNameChar(s[i]) {
        assert forall i | 0 <= i < |s[1..]| :: IsNameChar(s[1..][i]) by {
          forall i | 0 <= i < |s[1..]| ensures IsNameChar(s[1..][i]) {
            assert s[1..][i] == s[i + 1];
          }
        }
      }
      if MatchesNamePattern(s) {
        forall i | 0 <= i < |s| ensures IsNameChar(s[i]) {
          if i > 0 {
            assert s[i] == s[1..][i - 1];
          }
        }
      }
    }
  }

  /** The same condition stated by membership, which is cheap to check on a literal name. */
  lemma MatchesNamePatternByMembership(s: string)
    ensures MatchesNamePattern(s) <==> |s| > 0 && forall c | c in s :: IsNameChar(c)
  {
    MatchesNamePatternIff(s);
    if forall c | c in s :: IsNameChar(c) {
      assert forall i | 0 <= i < |s| :: s[i] in s;
    }
  }

  /** `strings.HasSuffix`. */
  predicate HasSuffix(s: string, suffix: string)
  {
    |suffix| <= |s| && s[|s| - |suffix|..] == suffix
  }

  /** `s` ends with `suffix` exactly when `s` is some string followed by `suffix`. */
  lemma HasSuffixIff(s: string, suffix: string)
    ensures HasSuffix(s, suffix) <==> exists p: string :: s == p + suffix
  {
    if HasSuffix(s, suffix) {
      assert s == s[..|s| - |suffix|] + suffix;
    }
    if p: string :| s == p + suffix {
      assert s[|s| - |suffix|..] == suffix;
    }
  }

  /** `eventNameValidator`: None stands for a nil error; the checks run in the order `eventNameValidator` runs them. */
  function EventNameValidator(value: string): Option<NameError>
  {
    if |value| == 0 then Some(EmptyName)
    else if !MatchesNamePattern(value) then Some(PatternMismatch)
    else if HasSuffix(value, EVENT_SUFFIX) then Some(ForbiddenSuffix)
    else None
  }

  /**
    What the rule's outcome means, independently of the order of the checks:
    a name is accepted exactly when it is non-empty, all its characters are in
    `[A-Z_]` and it is not something followed by `_EVENT`; the empty name gets
    the empty-name error, a non-empty name with a character outside the class
    the pattern error (whatever its suffix), and only a name that passes the
    pattern can get the suffix error.
  */
  lemma EventNameValidatorOutcomes(value: string)
    ensures var r := EventNameValidator(value);
      && (r == None <==>
            && value != []
            && (forall i | 0 <= i < |value| :: IsNameChar(value[i]))
            && !(exists p: string :: value == p + EVENT_SUFFIX))
      && (r == Some(EmptyName) <==> value == [])
      && (r == Some(PatternMismatch) <==>
            value != [] && exists i | 0 <= i < |value| :: !IsNameChar(value[i]))
      && (r == Some(ForbiddenSuffix) <==>
            && value != []
            && (forall i | 0 <= i < |value| :: IsNameChar(value[i]))
            && exists p: string :: value == p + EVENT_SUFFIX)
  {
    MatchesNamePatternIff(value);
    HasSuffixIff(value, EVENT_SUFFIX);
  }

  /** `Validations`: the custom-rule table handed to the validation library. */
  function Validations(): (table: map<string, string -> Option<NameError>>)
    ensures table.Keys == {EVENT_NAME_RULE}
    ensures forall s :: table[EVENT_NAME_RULE](s) == EventNameValidator(s)
  {
    map[EVENT_NAME_RULE := EventNameValidator]
  }

  /** `USER_CREATED` is made of name characters only. */
  lemma UserCreatedMatchesPattern()
    ensures MatchesNamePattern("USER_CREATED")
  {
    MatchesNamePatternByMembership("USER_CREATED");
  }

  /** A past-tense upper-case name is accepted. */
  lemma AcceptsUserCreated()
    ensures EventNameValidator("USER_CREATED") == None
  {
    var s := "USER_CREATED";
    UserCreatedMatchesPattern();
    assert s[|s| - |EVENT_SUFFIX|..][0] != EVENT_SUFFIX[0];
  }

  /** A lower-case name fails the pattern check. */
  lemma RejectsLowerCase()
    ensures EventNameValidator("user_created") == Some(PatternMismatch)
  {
    assert !IsNameChar("user_created"[0]);
  }

  /** An upper-case name ending in `_EVENT` (`ORDER_PLACED_EVENT`) fails only the suffix check. */
  lemma RejectsEventSuffix()
    ensures EventNameValidator("ORDER_PLACED" + EVENT_SUFFIX) == Some(ForbiddenSuffix)
  {
    var s := "ORDER_PLACED" + EVENT_SUFFIX;
    assert MatchesNamePattern(s) by {
      MatchesNamePatternByMembership(s);
    }
    assert HasSuffix(s, EVENT_SUFFIX) by {
      HasSuffixIff(s, EVENT_SUFFIX);
    }
  }

  /** The pattern check runs before the suffix check: a name with a lower-case letter gets the pattern error even when it ends in `_EVENT`. */
  lemma PatternCheckedBeforeSuffix()
    ensures EventNameValidator("order_placed_EVENT") == Some(PatternMismatch)
  {
    assert !IsNameChar("order_placed_EVENT"[0]);
  }

  /** Each kind of rejection carries its own error text. */
  lemma ErrorTextsDistinct(a: NameError, b: NameError)
    requires a != b
    ensures ErrorText(a) != ErrorText(b)
  {
    if a == EmptyName || b == EmptyName {
      assert ErrorText(a)[11] != ErrorText(b)[11];
    } else {
      assert ErrorText(a)[16] != ErrorText(b)[16];
    }
  }
}
