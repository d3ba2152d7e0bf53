/** `_to_jsonable` (app/main.py): turns a value tree into one made only of
    None, str, int, float, bool, string-keyed dicts and lists. */
module Jsonable {
  import opened Wrappers
  import opened PyValues

  /** The keys are all strings and no key occurs twice. */
  predicate StrKeyed(entries: seq<(Key, PyValue)>) {
    && (forall i :: 0 <= i < |entries| ==> entries[i].0.KStr?)
    && (forall i, j :: 0 <= i < j < |entries| ==> entries[i].0 != entries[j].0)
  }

  /** The values a JSON encoder accepts as they are. */
  predicate IsJson(v: PyValue) {
    match v
    case PDict(entries) =>
      StrKeyed(entries) && forall i :: 0 <= i < |entries| ==> IsJson(entries[i].1)
    case PSeq(kind, items) =>
      kind == List && forall i :: 0 <= i < |items| ==> IsJson(items[i])
    case PInterrupt(_) => false
    case PObject(_) => false
    case _ => true
  }

  /** The value a dict holds under the string key `k`, if any. */
  function Find(entries: seq<(Key, PyValue)>, k: string): Option<PyValue> {
    if entries == [] then None
    else if entries[0].0 == KStr(k) then Some(entries[0].1)
    else Find(entries[1..], k)
  }

  /** The value of the LAST pair named `k`: the one a dict built from the
      pairs in order ends up holding. */
  function LastWith(pairs: seq<(string, PyValue)>, k: string): Option<PyValue> {
    if pairs == [] then None
    else if pairs[|pairs| - 1].0 == k then Some(pairs[|pairs| - 1].1)
    else LastWith(pairs[..|pairs| - 1], k)
  }

  /** `d[k] = v` on a dict: an existing key keeps its place and takes the
      new value, a new key goes last. */
  function Put(entries: seq<(Key, PyValue)>, k: string, v: PyValue): (r: seq<(Key, PyValue)>)
    ensures Find(r, k) == Some(v)
    ensures KStr(k) !in KeysOf(entries) ==> r == entries + [(KStr(k), v)]
  {
    if entries == [] then [(KStr(k), v)]
    else if entries[0].0 == KStr(k) then [(KStr(k), v)] + entries[1..]
    else
      assert KeysOf(entries) == [entries[0].0] + KeysOf(entries[1..]);
      [entries[0]] + Put(entries[1..], k, v)
  }

  /** Writing one key leaves the others as they were. */
  lemma {:induction false} PutKeepsOthers(entries: seq<(Key, PyValue)>, k: string, v: PyValue, k': string)
    requires k' != k
    ensures Find(Put(entries, k, v), k') == Find(entries, k')
  {
    if entries != [] && entries[0].0 != KStr(k) {
      PutKeepsOthers(entries[1..], k, v, k');
    }
  }

  /** Every entry after writing is an old one or the written one. */
  lemma {:induction false} PutEntries(entries: seq<(Key, PyValue)>, k: string, v: PyValue)
    ensures forall p :: p in Put(entries, k, v) ==> p in entries || p == (KStr(k), v)
  {
    if entries != [] && entries[0].0 != KStr(k) {
      PutEntries(entries[1..], k, v);
    }
  }

  /** Writing keeps the keys strings and unique. */
  lemma {:induction false} PutStrKeyed(entries: seq<(Key, PyValue)>, k: string, v: PyValue)
    requires StrKeyed(entries)
    ensures StrKeyed(Put(entries, k, v))
  {
    if entries != [] && entries[0].0 != KStr(k) {
      var rest := Put(entries[1..], k, v);
      PutStrKeyed(entries[1..], k, v);
      PutEntries(entries[1..], k, v);
      forall p | p in rest ensures p.0 != entries[0].0 {
        if p in entries[1..] {
          var j :| 0 <= j < |entries[1..]| && entries[1..][j] == p;
          assert entries[j + 1] == p;
        }
      }
      ConsStrKeyed(entries[0], rest);
    }
  }

  /** An entry with a fresh string key can go in front. */
  lemma ConsStrKeyed(e: (Key, PyValue), rest: seq<(Key, PyValue)>)
    requires StrKeyed(rest) && e.0.KStr?
    requires forall p :: p in rest ==> p.0 != e.0
    ensures StrKeyed([e] + rest)
  {
    var r := [e] + rest;
    forall i, j | 0 <= i < j < |r| ensures r[i].0 != r[j].0 {
      if i == 0 {
        assert r[j] in rest;
      } else {
        assert r[i] == rest[i - 1] && r[j] == rest[j - 1];
      }
    }
  }

  /** A dict comprehension `{k: v for k, v in pairs}`, inserting in order. */
  function Comprehend(pairs: seq<(string, PyValue)>): (r: seq<(Key, PyValue)>)
    ensures StrKeyed(r)
    ensures forall p :: p in r ==> p.0.KStr? && (p.0.s, p.1) in pairs
  {
    if pairs == [] then []
    else
      var n := |pairs| - 1;
      var prefix := Comprehend(pairs[..n]);
      var r := Put(prefix, pairs[n].0, pairs[n].1);
      PutStrKeyed(prefix, pairs[n].0, pairs[n].1);
      PutEntries(prefix, pairs[n].0, pairs[n].1);
      assert forall p :: p in prefix ==> (p.0.s, p.1) in pairs by {
        forall p | p in prefix ensures (p.0.s, p.1) in pairs {
          var j :| 0 <= j < n && pairs[..n][j] == (p.0.s, p.1);
          assert pairs[j] == (p.0.s, p.1);
        }
      }
      r
  }

  /** The (str(key), converted value) pairs of a dict, in order. */
  function ConvertedPairs(entries: seq<(Key, PyValue)>): (r: seq<(string, PyValue)>)
    ensures |r| == |entries|
    ensures forall i :: 0 <= i < |entries| ==> r[i] == (KeyText(entries[i].0), ToJsonable(entries[i].1))
  {
    seq(|entries|, i requires 0 <= i < |entries| => (KeyText(entries[i].0), ToJsonable(entries[i].1)))
  }

  /** `_to_jsonable`. The pydantic `model_dump` and `dict()` branches are not
      modelled: every foreign object takes the `str(obj)` fallback. */
  function ToJsonable(v: PyValue): (r: PyValue)
    ensures IsJson(r)
    ensures v.IsScalar() ==> r == v
  {
    match v
    case PDict(entries) =>
      var pairs := seq(|entries|, i requires 0 <= i < |entries| => (KeyText(entries[i].0), ToJsonable(entries[i].1)));
      var r := Comprehend(pairs);
      assert forall i :: 0 <= i < |r| ==> IsJson(r[i].1) by {
        forall i | 0 <= i < |r| ensures IsJson(r[i].1) {
          assert r[i] in r;
          var j :| 0 <= j < |pairs| && pairs[j] == (r[i].0.s, r[i].1);
        }
      }
      PDict(r)
    case PSeq(_, items) =>
      PSeq(List, seq(|items|, i requires 0 <= i < |items| => ToJsonable(items[i])))
    case PInterrupt(x) =>
      Obj([("__type__", PStr("Interrupt")), ("value", ToJsonable(x))])
    case PObject(text) => PStr(text)
    case _ => v
  }

  // ---------------------------------------------------------------------
  // What the conversion does to each kind of value

  /** A list, tuple or set becomes a list of the same length whose elements
      are the converted elements, in the same order. */
  lemma SequenceToList(kind: SeqKind, items: seq<PyValue>)
    ensures var r := ToJsonable(PSeq(kind, items));
      && r.PSeq? && r.kind == List && |r.items| == |items|
      && forall i :: 0 <= i < |items| ==> r.items[i] == ToJsonable(items[i])
  {
  }

  /** An interrupt becomes `{"__type__": "Interrupt", "value": <converted value>}`. */
  lemma InterruptToDict(x: PyValue)
    ensures ToJsonable(PInterrupt(x))
         == PDict([(KStr("__type__"), PStr("Interrupt")), (KStr("value"), ToJsonable(x))])
  {
  }

  /** Looking a key up in the converted dict finds the converted value of the
      last entry whose key stringifies to it, and nothing if there is none. */
  lemma {:induction false} ComprehendFinds(pairs: seq<(string, PyValue)>, k: string)
    ensures Find(Comprehend(pairs), k) == LastWith(pairs, k)
  {
    if pairs != [] {
      var n := |pairs| - 1;
      ComprehendFinds(pairs[..n], k);
      if pairs[n].0 != k {
        PutKeepsOthers(Comprehend(pairs[..n]), pairs[n].0, pairs[n].1, k);
      }
    }
  }

  /** Pairs whose names are pairwise different. */
  predicate DistinctNames(pairs: seq<(string, PyValue)>) {
    forall i, j :: 0 <= i < j < |pairs| ==> pairs[i].0 != pairs[j].0
  }

  /** With no two names alike, the comprehension keeps every pair, in order. */
  lemma {:induction false} ComprehendDistinct(pairs: seq<(string, PyValue)>)
    requires DistinctNames(pairs)
    ensures Comprehend(pairs) == seq(|pairs|, i requires 0 <= i < |pairs| => (KStr(pairs[i].0), pairs[i].1))
  {
    if pairs != [] {
      var n := |pairs| - 1;
      ComprehendDistinct(pairs[..n]);
      var prefix := Comprehend(pairs[..n]);
      assert KStr(pairs[n].0) !in KeysOf(prefix);
    }
  }

  /** A dict maps to a dict with stringified keys and converted values.
      When no two keys stringify alike, every entry is kept, in order; in
      general a key holds the converted value of the last entry that
      stringifies to it, as a dict comprehension does. */
  lemma DictToStrKeyedDict(entries: seq<(Key, PyValue)>)
    ensures var r := ToJsonable(PDict(entries));
      && r.PDict? && StrKeyed(r.entries)
      && forall k :: Find(r.entries, k) == LastWith(ConvertedPairs(entries), k)
    ensures DistinctNames(ConvertedPairs(entries)) ==>
      ToJsonable(PDict(entries)).entries
        == seq(|entries|, i requires 0 <= i < |entries| => (KStr(KeyText(entries[i].0)), ToJsonable(entries[i].1)))
  {
    var pairs := ConvertedPairs(entries);
    forall k ensures Find(Comprehend(pairs), k) == LastWith(pairs, k) {
      ComprehendFinds(pairs, k);
    }
    if DistinctNames(pairs) {
      ComprehendDistinct(pairs);
    }
  }

  // ---------------------------------------------------------------------
  // Idempotence

  /** A value already made of JSON values is returned unchanged. */
  lemma {:induction false} JsonIsFixpoint(v: PyValue)
    requires IsJson(v)
    ensures ToJsonable(v) == v
  {
    match v
    case PDict(entries) =>
      var pairs := ConvertedPairs(entries);
      forall i | 0 <= i < |entries| ensures pairs[i] == (entries[i].0.s, entries[i].1) {
        JsonIsFixpoint(entries[i].1);
      }
      assert DistinctNames(pairs) by {
        forall i, j | 0 <= i < j < |pairs| ensures pairs[i].0 != pairs[j].0 {
          assert entries[i].0 != entries[j].0;
        }
      }
      ComprehendDistinct(pairs);
      assert Comprehend(pairs) == entries;
    case PSeq(kind, items) =>
      forall i | 0 <= i < |items| ensures ToJsonable(items[i]) == items[i] {
        JsonIsFixpoint(items[i]);
      }
      assert seq(|items|, i requires 0 <= i < |items| => ToJsonable(items[i])) == items;
    case _ =>
  }

  /** Converting twice is converting once. */
  lemma Idempotent(v: PyValue)
    ensures ToJsonable(ToJsonable(v)) == ToJsonable(v)
  {
    JsonIsFixpoint(ToJsonable(v));
  }
}
