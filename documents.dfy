/**
 * Documents as the user-state store keeps them: string-keyed maps of loosely
 * typed values, and the wall-clock instants that stand for the ISO-8601
 * timestamps the store holds.
 */
module Documents {

  datatype Option<+T> = None | Some(value: T)

  /** Seconds in one calendar day. */
  const SECONDS_PER_DAY: int := 86400

  type SecondOfDay = s: int | 0 <= s < SECONDS_PER_DAY

  /**
   * A wall-clock instant: a calendar day number and the second within that
   * day. Two instants are on the same calendar date exactly when their days
   * are equal.
   */
  datatype Instant = Instant(day: int, second: SecondOfDay)

  /** Strict chronological order on instants. */
  predicate Before(a: Instant, b: Instant)
  {
    a.day < b.day || (a.day == b.day && a.second < b.second)
  }

  /** The instant `days` calendar days after `t`, at the same time of day. */
  function AddDays(t: Instant, days: int): (r: Instant)
    ensures days > 0 ==> Before(t, r)
    ensures days == 0 ==> r == t
    ensures r.second == t.second
  {
    Instant(t.day + days, t.second)
  }

  /** A field value of a stored document. */
  datatype Value =
    | Null
    | Bool(b: bool)
    | Int(n: int)
    | Str(s: string)
    | Time(t: Instant)
    | List(items: seq<Value>)
    | Object(fields: map<string, Value>)

  /** A stored document: its fields by name. */
  type Document = map<string, Value>

  /** Python truthiness of a stored value, as `if value:` reads it. */
  predicate Truthy(v: Value)
  {
    match v
    case Null => false
    case Bool(b) => b
    case Int(n) => n != 0
    case Str(s) => s != ""
    case Time(_) => true
    case List(items) => items != []
    case Object(fields) => fields != map[]
  }

  /**
   * A `$set` update: every field of `fields` is written into `doc`, every
   * other field of `doc` is kept, nothing is removed.
   */
  function SetFields(doc: Document, fields: Document): Document
  {
    doc + fields
  }

  /** What `$set` guarantees, field by field. */
  lemma SetFieldsSemantics(doc: Document, fields: Document)
    ensures SetFields(doc, fields).Keys == doc.Keys + fields.Keys
    ensures forall k :: k in fields ==> SetFields(doc, fields)[k] == fields[k]
    ensures forall k :: k in doc && k !in fields ==> SetFields(doc, fields)[k] == doc[k]
  {
  }

  /** Writing the same fields twice is the same as writing them once. */
  lemma SetFieldsIdempotent(doc: Document, fields: Document)
    ensures SetFields(SetFields(doc, fields), fields) == SetFields(doc, fields)
  {
  }
}
