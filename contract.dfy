/**
  The wire envelope (contract/header.go): a header record whose struct tags
  declare, field by field, which values are required and which validation
  rule applies, and the message pairing a header with an opaque body.
*/
module Contract {
  import opened Wrappers
  import Validation

  /** `contract.Header`; `userId` is the optional `*string` field. */
  datatype Header = Header(date: string, event: string, correlationId: string, userId: Option<string>)

  /** `contract.Message`: a header and the body, an opaque string (the stream entry's `message` value). */
  datatype Message = Message(header: Header, body: string)

  /**
    The validation library's built-in `date_time` and `uuid` rules. Their
    definitions belong to the library and are not part of this model, so they
    are supplied as uninterpreted predicates.
  */
  datatype Library = Library(dateTime: string -> bool, uuid: string -> bool)

  const DATE_TIME_RULE: string := "date_time"
  const UUID_RULE: string := "uuid"

  /** One comma-separated entry of a `validate:"..."` struct tag. */
  datatype Tag = Required | OmitEmpty | Rule(name: string)

  /** A struct field as the validation library sees it: a string, or a pointer to a string. */
  datatype FieldValue = Plain(s: string) | Pointer(target: Option<string>)

  /** Whether a field holds a non-zero value: a non-empty string, or a non-nil pointer. */
  predicate HasValue(v: FieldValue)
  {
    match v
    case Plain(s) => s != ""
    case Pointer(t) => t.Some?
  }

  /** The string a named rule is applied to (a non-nil pointer is dereferenced). */
  function Underlying(v: FieldValue): string
  {
    match v
    case Plain(s) => s
    case Pointer(t) => if t.Some? then t.value else ""
  }

  /** The struct tags of `Header`, one list per field, in declaration order. */
  const HEADER_TAGS: seq<seq<Tag>> := [
    [Required, Rule(DATE_TIME_RULE)],
    [Required, Rule(Validation.EVENT_NAME_RULE)],
    [Required, Rule(UUID_RULE)],
    [OmitEmpty, Rule(UUID_RULE)]
  ]

  /** The fields of a header, in declaration order. */
  function Fields(h: Header): (fs: seq<FieldValue>)
    ensures |fs| == |HEADER_TAGS|
  {
    [Plain(h.date), Plain(h.event), Plain(h.correlationId), Pointer(h.userId)]
  }

  /** A custom rule as the library uses it: it passes when it returns a nil error. */
  function AsCheck(rule: string -> Option<Validation.NameError>): string -> bool
  {
    s => rule(s) == None
  }

  /** The rules a validator knows by name: the library's built-ins and the one custom rule `Validations` registers (`Validation.Validations` states it is `EventNameValidator`). */
  function Rules(lib: Library): (table: map<string, string -> bool>)
    ensures table.Keys == {DATE_TIME_RULE, UUID_RULE, Validation.EVENT_NAME_RULE}
    ensures forall s :: table[Validation.EVENT_NAME_RULE](s) <==> Validation.EventNameValidator(s) == None
    ensures table[DATE_TIME_RULE] == lib.dateTime && table[UUID_RULE] == lib.uuid
  {
    map[DATE_TIME_RULE := lib.dateTime, UUID_RULE := lib.uuid,
        Validation.EVENT_NAME_RULE := AsCheck(Validation.EventNameValidator)]
  }

  /** The `event_name` entry of the rule table is the rule `Validations` hands to the library. */
  lemma RulesRegisterValidations(lib: Library)
    ensures forall s :: Rules(lib)[Validation.EVENT_NAME_RULE](s) <==>
      Validation.Validations()[Validation.EVENT_NAME_RULE](s) == None
  {
  }

  /**
    How the library checks one field against its tag list, left to right:
    `required` fails on a zero value, `omitempty` skips the remaining entries
    on a zero value, and a named rule must be known and pass on the value.
  */
  predicate FieldPasses(table: map<string, string -> bool>, v: FieldValue, tags: seq<Tag>)
    decreases |tags|
  {
    if tags == [] then true
    else
      match tags[0]
      case Required => HasValue(v) && FieldPasses(table, v, tags[1..])
      case OmitEmpty => !HasValue(v) || FieldPasses(table, v, tags[1..])
      case Rule(n) => n in table && table[n](Underlying(v)) && FieldPasses(table, v, tags[1..])
  }

  /** `validator.Struct(header)` returns no error: every field passes its tags. */
  predicate ValidHeader(lib: Library, h: Header)
  {
    var table := Rules(lib);
    var fs := Fields(h);
    forall i | 0 <= i < |HEADER_TAGS| :: FieldPasses(table, fs[i], HEADER_TAGS[i])
  }

  /** A `[required, rule]` tag list passes exactly on a non-empty string the rule accepts. */
  lemma RequiredRule(table: map<string, string -> bool>, s: string, n: string)
    requires n in table
    ensures FieldPasses(table, Plain(s), [Required, Rule(n)]) <==> s != "" && table[n](s)
  {
    var v := Plain(s);
    assert [Rule(n)][1..] == [];
    assert FieldPasses(table, v, [Rule(n)]) <==> table[n](s);
    assert [Required, Rule(n)][1..] == [Rule(n)];
  }

  /** An `[omitempty, rule]` tag list on a pointer passes when it is nil, or when the rule accepts its target. */
  lemma OptionalRule(table: map<string, string -> bool>, t: Option<string>, n: string)
    requires n in table
    ensures FieldPasses(table, Pointer(t), [OmitEmpty, Rule(n)]) <==> t.None? || table[n](t.value)
  {
    var v := Pointer(t);
    assert [Rule(n)][1..] == [];
    assert FieldPasses(table, v, [Rule(n)]) <==> table[n](Underlying(v));
    assert [OmitEmpty, Rule(n)][1..] == [Rule(n)];
  }

  /**
    A header is valid exactly when its four field constraints hold: `date` is
    non-empty and a `date_time`, `event` is non-empty and passes the event-name
    rule, `correlationId` is non-empty and a `uuid`, and `userId` is absent or
    a `uuid`.
  */
  lemma ValidHeaderIff(lib: Library, h: Header)
    ensures ValidHeader(lib, h) <==>
      && (h.date != "" && lib.dateTime(h.date))
      && (h.event != "" && Validation.EventNameValidator(h.event) == None)
      && (h.correlationId != "" && lib.uuid(h.correlationId))
      && (h.userId.None? || lib.uuid(h.userId.value))
  {
    var table := Rules(lib);
    var fs := Fields(h);
    RequiredRule(table, h.date, DATE_TIME_RULE);
    RequiredRule(table, h.event, Validation.EVENT_NAME_RULE);
    RequiredRule(table, h.correlationId, UUID_RULE);
    OptionalRule(table, h.userId, UUID_RULE);
    assert FieldPasses(table, fs[0], HEADER_TAGS[0]) <==> h.date != "" && lib.dateTime(h.date);
    assert FieldPasses(table, fs[1], HEADER_TAGS[1]) <==>
      h.event != "" && Validation.EventNameValidator(h.event) == None;
    assert FieldPasses(table, fs[2], HEADER_TAGS[2]) <==> h.correlationId != "" && lib.uuid(h.correlationId);
    assert FieldPasses(table, fs[3], HEADER_TAGS[3]) <==> h.userId.None? || lib.uuid(h.userId.value);
  }

  /** A valid header's event name satisfies the event-name grammar. */
  lemma ValidHeaderEventName(lib: Library, h: Header)
    requires ValidHeader(lib, h)
    ensures h.event != [] && forall i | 0 <= i < |h.event| :: Validation.IsNameChar(h.event[i])
    ensures !exists p: string :: h.event == p + Validation.EVENT_SUFFIX
  {
    ValidHeaderIff(lib, h);
    Validation.EventNameValidatorOutcomes(h.event);
  }
}
