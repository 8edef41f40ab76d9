/** Parsed YAML/JSON values, the documents the program reads and writes, and the
    text form of timestamps. */
module Documents {
  import opened Wrappers

  /** A point in time, modelled as a count of seconds since an epoch. */
  type Timestamp = nat

  /** A parsed YAML or JSON value. `Time` is a datetime object that has not been
      rendered as text. */
  datatype Value =
    | Null
    | Bool(b: bool)
    | Int(i: int)
    | Real(r: real)
    | Str(s: string)
    | Time(t: Timestamp)
    | List(items: seq<Value>)
    | Dict(entries: map<string, Value>)

  /** A dict with string keys: the top level of every stored file and payload. */
  type Document = map<string, Value>

  /** Python's truth value of a parsed value (`if v:`). */
  predicate Truthy(v: Value) {
    match v
    case Null => false
    case Bool(b) => b
    case Int(i) => i != 0
    case Real(r) => r != 0.0
    case Str(s) => s != ""
    case Time(_) => true
    case List(items) => items != []
    case Dict(entries) => entries != map[]
  }

  /** Python's truth value of an `Optional[str]`: set and not empty. */
  predicate IsSet(o: Option<string>) {
    o.Some? && o.value != ""
  }

  /** `d.get(key, default)`. */
  function Get(d: Document, key: string, default: Value): (v: Value)
    ensures key in d ==> v == d[key]
    ensures key !in d ==> v == default
  {
    if key in d then d[key] else default
  }

  predicate IsDigit(c: char) {
    '0' <= c <= '9'
  }

  function DigitChar(d: nat): (c: char)
    requires d < 10
    ensures IsDigit(c)
  {
    ('0' as int + d) as char
  }

  function DigitValue(c: char): nat
    requires IsDigit(c)
  {
    c as int - '0' as int
  }

  /** `datetime.isoformat()`: the text form of a timestamp, here its decimal digits. */
  function IsoFormat(t: Timestamp): (s: string)
    ensures s != []
    ensures forall i :: 0 <= i < |s| ==> IsDigit(s[i])
  {
    if t < 10 then [DigitChar(t)] else IsoFormat(t / 10) + [DigitChar(t % 10)]
  }

  /** `datetime.fromisoformat(s)`: `None` where Python raises `ValueError`. */
  function FromIsoFormat(s: string): (r: Option<Timestamp>)
    ensures s == [] ==> r.None?
    ensures r.Some? ==> forall i :: 0 <= i < |s| ==> IsDigit(s[i])
  {
    if s == [] then None
    else
      var last := s[|s| - 1];
      if !IsDigit(last) then None
      else if |s| == 1 then Some(DigitValue(last))
      else
        match FromIsoFormat(s[..|s| - 1])
        case None => None
        case Some(n) => Some(n * 10 + DigitValue(last))
  }

  /** Parsing the text of a timestamp gives the timestamp back. */
  lemma {:induction false} IsoRoundTrip(t: Timestamp)
    ensures FromIsoFormat(IsoFormat(t)) == Some(t)
  {
    if t >= 10 {
      var s := IsoFormat(t);
      assert s[..|s| - 1] == IsoFormat(t / 10);
      IsoRoundTrip(t / 10);
    }
  }
}
