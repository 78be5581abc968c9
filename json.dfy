/**
 * The untyped values the extension inspects before trusting them: what
 * `JSON.parse`, extension storage and runtime messages deliver, with the
 * JavaScript tests the source applies to them (`typeof`, truthiness,
 * property access).
 */
module Json {
  import opened Wrappers
  import opened Text

  datatype Value =
    | Undefined
    | Null
    | Bool(b: bool)
    /** A finite number. */
    | Num(n: real)
    /** NaN, or one of the two infinities. */
    | NonFinite(isNaN: bool)
    | Str(s: string)
    | Arr(items: seq<Value>)
    | Obj(fields: map<string, Value>)

  /** `typeof v === 'object' && v !== null`: arrays count as records. */
  predicate IsRecord(v: Value)
  {
    v.Arr? || v.Obj?
  }

  /** JavaScript truthiness. */
  predicate Truthy(v: Value)
  {
    match v
    case Undefined => false
    case Null => false
    case Bool(b) => b
    case Num(n) => n != 0.0
    case NonFinite(isNaN) => !isNaN
    case Str(s) => s != ""
    case Arr(_) => true
    case Obj(_) => true
  }

  /** A nullable string is falsy when it is null or empty: `null` and `''`. */
  predicate Falsy(o: Option<string>)
  {
    o.None? || o.value == ""
  }

  /** `v?.[key]`: the own property, or undefined (null and primitives have none of the keys read here). */
  function Get(v: Value, key: string): Value
  {
    if v.Obj? && key in v.fields then v.fields[key] else Undefined
  }

  /** `key in v` for a record. */
  predicate HasKey(v: Value, key: string)
  {
    v.Obj? && key in v.fields
  }

  /**
   * The trimmed string when `v` is a string that is not blank, else null:
   * `asTrimmedString`, `asNonEmptyString`, `toNonEmptyString` and
   * `trimToNonEmpty`, which the source writes out once per file.
   */
  function AsNonEmptyString(v: Value): (r: Option<string>)
    ensures r.Some? <==> v.Str? && Trim(v.s) != ""
    ensures r.Some? ==> r.value != "" && Trimmed(r.value) && r.value == Trim(v.s)
  {
    if v.Str? && Trim(v.s) != "" then
      TrimIdempotent(v.s);
      Some(Trim(v.s))
    else None
  }

  /** `!v || typeof v !== 'object'` is the negation of `IsRecord`: records are truthy. */
  lemma RecordsAreTruthy(v: Value)
    ensures IsRecord(v) ==> Truthy(v)
    ensures !Truthy(v) || !IsRecord(v) <==> !IsRecord(v)
  {
  }

  /** A trimmed, non-blank string passes through unchanged, so the guard is idempotent. */
  lemma AsNonEmptyStringFixpoint(v: Value)
    ensures AsNonEmptyString(v).Some? ==>
      AsNonEmptyString(Str(AsNonEmptyString(v).value)) == AsNonEmptyString(v)
  {
    if AsNonEmptyString(v).Some? {
      TrimIdempotent(v.s);
    }
  }

  /** A string that is already trimmed and not empty is its own non-empty form. */
  lemma TrimmedIsNonEmpty(s: string)
    requires s != "" && Trimmed(s)
    ensures AsNonEmptyString(Str(s)) == Some(s)
  {
    TrimOfTrimmed(s);
  }
}
