/** The Python values that flow through the event stream: what a stage
    returns, what the engine streams, what `_to_jsonable` walks. */
module PyValues {

  /** A hashable dictionary key. Floats and foreign objects are carried by
      the text `str()` gives for them. */
  datatype Key =
    | KNone
    | KBool(b: bool)
    | KInt(i: int)
    | KFloat(text: string)
    | KStr(s: string)
    | KOther(text: string)

  /** The three sequence types `_to_jsonable` treats alike. */
  datatype SeqKind = List | Tuple | Set

  /** A Python value. A dict keeps its insertion order; a set is given in
      its iteration order. `PInterrupt` is the engine's interrupt object
      with its `value` attribute; `PObject` is any other object, carried by
      what `str()` gives for it. */
  datatype PyValue =
    | PNone
    | PBool(b: bool)
    | PInt(i: int)
    | PFloat(text: string)
    | PStr(s: string)
    | PDict(entries: seq<(Key, PyValue)>)
    | PSeq(kind: SeqKind, items: seq<PyValue>)
    | PInterrupt(value: PyValue)
    | PObject(text: string)
  {
    /** The values `_to_jsonable` returns unchanged: None, str, int, float, bool. */
    predicate IsScalar() {
      PNone? || PBool? || PInt? || PFloat? || PStr?
    }
  }

  /** Decimal digits of a natural number, most significant first. */
  function Digits(n: nat): (r: string)
    ensures |r| > 0
    ensures forall i :: 0 <= i < |r| ==> '0' <= r[i] <= '9'
  {
    var d := ['0' + (n % 10) as char];
    if n < 10 then d else Digits(n / 10) + d
  }

  /** What Python's `str()` gives for a dictionary key. */
  function KeyText(k: Key): string {
    match k
    case KNone => "None"
    case KBool(b) => if b then "True" else "False"
    case KInt(i) => if i < 0 then "-" + Digits(-i) else Digits(i)
    case KFloat(t) => t
    case KStr(s) => s
    case KOther(t) => t
  }

  /** The keys of a dict, in order. */
  function KeysOf(entries: seq<(Key, PyValue)>): (r: seq<Key>)
    ensures |r| == |entries|
    ensures forall i :: 0 <= i < |r| ==> r[i] == entries[i].0
  {
    seq(|entries|, i requires 0 <= i < |entries| => entries[i].0)
  }

  /** A dict whose keys are all strings, given as (name, value) pairs. */
  function Obj(fields: seq<(string, PyValue)>): (r: PyValue)
    ensures r.PDict? && |r.entries| == |fields|
    ensures forall i :: 0 <= i < |fields| ==> r.entries[i] == (KStr(fields[i].0), fields[i].1)
  {
    PDict(seq(|fields|, i requires 0 <= i < |fields| => (KStr(fields[i].0), fields[i].1)))
  }

  /** A list of strings. */
  function StrList(ss: seq<string>): (r: PyValue)
    ensures r.PSeq? && r.kind == List && |r.items| == |ss|
    ensures forall i :: 0 <= i < |ss| ==> r.items[i] == PStr(ss[i])
  {
    PSeq(List, seq(|ss|, i requires 0 <= i < |ss| => PStr(ss[i])))
  }
}
