/** Canonical key order of JSON documents: two documents share it exactly when only key order differs. */
module CanonicalJson {
  import opened Basics
  import opened Sorting

  datatype Entry = Entry(key: string, value: Json)

  datatype Json =
    | Null
    | Bool(b: bool)
    | Number(text: string)
    | Text(s: string)
    | Array(values: seq<Json>)
    | Object(entries: seq<Entry>)

  predicate KeyLe(a: Entry, b: Entry) { TextLe(a.key, b.key) }

  predicate DistinctKeys(entries: seq<Entry>)
  {
    forall i, j :: 0 <= i < j < |entries| ==> entries[i].key != entries[j].key
  }

  /** Every object, at any depth, has each key once. */
  predicate WellFormed(j: Json)
  {
    match j
    case Array(values) => forall k :: 0 <= k < |values| ==> WellFormed(values[k])
    case Object(entries) =>
      DistinctKeys(entries) && forall k :: 0 <= k < |entries| ==> WellFormed(entries[k].value)
    case _ => true
  }

  function Canon(j: Json): Json
  {
    match j
    case Array(values) => Array(CanonAll(values))
    case Object(entries) => Object(Sort(CanonEntries(entries), KeyLe))
    case _ => j
  }

  function CanonAll(values: seq<Json>): (r: seq<Json>)
    ensures |r| == |values| && forall k :: 0 <= k < |values| ==> r[k] == Canon(values[k])
  {
    seq(|values|, k requires 0 <= k < |values| => Canon(values[k]))
  }

  function CanonEntries(entries: seq<Entry>): (r: seq<Entry>)
    ensures |r| == |entries|
    ensures forall k :: 0 <= k < |entries| ==> r[k] == Entry(entries[k].key, Canon(entries[k].value))
  {
    seq(|entries|, k requires 0 <= k < |entries| => Entry(entries[k].key, Canon(entries[k].value)))
  }

  // ---------------------------------------------------------------- lookups

  function Find(entries: seq<Entry>, key: string): Option<Json>
  {
    if entries == [] then None
    else if entries[0].key == key then Some(entries[0].value)
    else Find(entries[1..], key)
  }

  lemma {:induction false} FindIs(entries: seq<Entry>, key: string)
    ensures Find(entries, key).Some? ==> Entry(key, Find(entries, key).value) in entries
    ensures forall k :: 0 <= k < |entries| && entries[k].key == key ==> Find(entries, key).Some?
    ensures DistinctKeys(entries) ==>
              forall k :: 0 <= k < |entries| && entries[k].key == key ==> Find(entries, key) == Some(entries[k].value)
  {
    if entries != [] { FindIs(entries[1..], key); }
  }

  datatype PathStep = Key(key: string) | Index(index: nat)

  function Lookup(j: Json, path: seq<PathStep>): Option<Json>
    decreases |path|
  {
    if path == [] then Some(j)
    else match (j, path[0])
      case (Array(values), Index(k)) => if k < |values| then Lookup(values[k], path[1..]) else None
      case (Object(entries), Key(key)) =>
        if Find(entries, key).Some? then Lookup(Find(entries, key).value, path[1..]) else None
      case _ => None
  }

  // ---------------------------------------------------------------- only key order differs

  /** The same document up to the order of keys, at every depth. */
  predicate SameUpToKeys(a: Json, b: Json)
  {
    match (a, b)
    case (Array(x), Array(y)) => |x| == |y| && forall k :: 0 <= k < |x| ==> SameUpToKeys(x[k], y[k])
    case (Object(x), Object(y)) =>
      && |x| == |y|
      && forall k :: 0 <= k < |x| ==> Find(y, x[k].key).Some? && SameUpToKeys(x[k].value, Find(y, x[k].key).value)
    case _ => a == b
  }

  lemma {:induction false} DistinctKeysHaveNoTies(entries: seq<Entry>)
    requires DistinctKeys(entries)
    ensures TotalPreorder(KeyLe) && NoTies(entries, KeyLe)
  {
    forall a: Entry, b: Entry ensures KeyLe(a, b) || KeyLe(b, a) { TextLeTotal(a.key, b.key); }
    forall a: Entry, b: Entry, c: Entry | KeyLe(a, b) && KeyLe(b, c) ensures KeyLe(a, c) {
      TextLeTransitive(a.key, b.key, c.key);
    }
    forall i, j | 0 <= i < |entries| && 0 <= j < |entries| && KeyLe(entries[i], entries[j])
                  && KeyLe(entries[j], entries[i])
      ensures entries[i] == entries[j]
    {
      TextLeTotal(entries[i].key, entries[j].key);
    }
  }

  /** Documents that differ only in key order have one canonical form. */
  lemma {:induction false} SameMeansOneForm(a: Json, b: Json)
    requires WellFormed(a) && WellFormed(b) && SameUpToKeys(a, b)
    ensures Canon(a) == Canon(b)
  {
    match (a, b)
    case (Array(x), Array(y)) =>
      forall k | 0 <= k < |x| ensures Canon(x[k]) == Canon(y[k]) { SameMeansOneForm(x[k], y[k]); }
      assert CanonAll(x) == CanonAll(y);
    case (Object(x), Object(y)) =>
      var p, q := CanonEntries(x), CanonEntries(y);
      forall k | 0 <= k < |x| ensures p[k] in q {
        FindIs(y, x[k].key);
        var j :| 0 <= j < |y| && y[j] == Entry(x[k].key, Find(y, x[k].key).value);
        SameMeansOneForm(x[k].value, y[j].value);
        assert q[j] == p[k];
      }
      ContainedIsEqual(p, q);
      DistinctKeysHaveNoTies(p);
      SortForgetsOrder(p, q, KeyLe);
    case _ =>
  }

  /** And conversely: what has one canonical form differs only in key order. */
  lemma {:induction false} OneFormMeansSame(a: Json, b: Json)
    requires WellFormed(a) && WellFormed(b) && Canon(a) == Canon(b)
    ensures SameUpToKeys(a, b)
  {
    match (a, b)
    case (Array(x), Array(y)) =>
      forall k | 0 <= k < |x| ensures SameUpToKeys(x[k], y[k]) {
        assert CanonAll(x)[k] == CanonAll(y)[k];
        OneFormMeansSame(x[k], y[k]);
      }
    case (Object(x), Object(y)) =>
      var p, q := CanonEntries(x), CanonEntries(y);
      SortKeepsElements(p, KeyLe);
      SortKeepsElements(q, KeyLe);
      assert |multiset(p)| == |multiset(q)|;
      forall k | 0 <= k < |x|
        ensures Find(y, x[k].key).Some? && SameUpToKeys(x[k].value, Find(y, x[k].key).value)
      {
        assert p[k] in multiset(q);
        var j :| 0 <= j < |q| && q[j] == p[k];
        FindIs(y, x[k].key);
        OneFormMeansSame(x[k].value, y[j].value);
      }
    case _ =>
  }

  /** The canonical form is well-formed. */
  lemma {:induction false} CanonIsWellFormed(j: Json)
    requires WellFormed(j)
    ensures WellFormed(Canon(j))
  {
    match j
    case Array(values) =>
      forall k | 0 <= k < |values| ensures WellFormed(CanonAll(values)[k]) { CanonIsWellFormed(values[k]); }
    case Object(entries) =>
      var p := CanonEntries(entries);
      var s := Sort(p, KeyLe);
      SortKeepsElements(p, KeyLe);
      SortedKeysStayDistinct(p);
      forall k | 0 <= k < |s| ensures WellFormed(s[k].value) {
        assert s[k] in multiset(p);
        var i :| 0 <= i < |p| && p[i] == s[k];
        CanonIsWellFormed(entries[i].value);
      }
    case _ =>
  }

  lemma {:induction false} SortedKeysStayDistinct(entries: seq<Entry>)
    requires DistinctKeys(entries)
    ensures DistinctKeys(Sort(entries, KeyLe))
  {
    if entries != [] {
      SortedKeysStayDistinct(entries[1..]);
      SortKeepsElements(entries[1..], KeyLe);
      var rest := Sort(entries[1..], KeyLe);
      forall k | 0 <= k < |rest| ensures rest[k].key != entries[0].key {
        assert rest[k] in multiset(entries[1..]);
      }
      InsertKeepsDistinct(entries[0], rest);
    }
  }

  lemma {:induction false} InsertKeepsDistinct(e: Entry, s: seq<Entry>)
    requires DistinctKeys(s) && forall k :: 0 <= k < |s| ==> s[k].key != e.key
    ensures DistinctKeys(Insert(e, s, KeyLe))
  {
    if s != [] && !KeyLe(e, s[0]) {
      InsertKeepsDistinct(e, s[1..]);
      InsertKeepsElements(e, s[1..], KeyLe);
      var rest := Insert(e, s[1..], KeyLe);
      forall k | 0 <= k < |rest| ensures rest[k].key != s[0].key { assert rest[k] in multiset(rest); }
    }
  }

  /** Canonicalizing changes nothing but key order, so doing it twice changes nothing more. */
  lemma {:induction false} CanonOnlyReorders(j: Json)
    requires WellFormed(j)
    ensures SameUpToKeys(j, Canon(j)) && Canon(Canon(j)) == Canon(j)
  {
    CanonReorders(j);
    CanonIsWellFormed(j);
    SameMeansOneForm(j, Canon(j));
  }

  lemma {:induction false} CanonReorders(j: Json)
    requires WellFormed(j)
    ensures SameUpToKeys(j, Canon(j))
  {
    match j
    case Array(values) =>
      forall k | 0 <= k < |values| ensures SameUpToKeys(values[k], CanonAll(values)[k]) { CanonReorders(values[k]); }
    case Object(entries) =>
      var p := CanonEntries(entries);
      var s := Sort(p, KeyLe);
      SortKeepsElements(p, KeyLe);
      SortedKeysStayDistinct(p);
      assert |multiset(s)| == |multiset(p)|;
      forall k | 0 <= k < |entries|
        ensures Find(s, entries[k].key).Some? && SameUpToKeys(entries[k].value, Find(s, entries[k].key).value)
      {
        assert p[k] in multiset(s);
        var i :| 0 <= i < |s| && s[i] == p[k];
        FindIs(s, entries[k].key);
        CanonReorders(entries[k].value);
      }
    case _ =>
  }

  /** Every path leads to the canonical form of what it led to before, or still nowhere. */
  lemma {:induction false} LookupsSurvive(j: Json, path: seq<PathStep>)
    requires WellFormed(j)
    ensures Lookup(Canon(j), path) == match Lookup(j, path) case None => None case Some(v) => Some(Canon(v))
    decreases |path|
  {
    if path != [] {
      match (j, path[0])
      case (Array(values), Index(k)) =>
        if k < |values| { LookupsSurvive(values[k], path[1..]); }
      case (Object(entries), Key(key)) =>
        FindInCanon(entries, key);
        FindIs(entries, key);
        if Find(entries, key).Some? {
          var i :| 0 <= i < |entries| && entries[i] == Entry(key, Find(entries, key).value);
          LookupsSurvive(entries[i].value, path[1..]);
        }
      case _ =>
    }
  }

  lemma {:induction false} FindInCanon(entries: seq<Entry>, key: string)
    requires DistinctKeys(entries)
    ensures Find(Sort(CanonEntries(entries), KeyLe), key)
            == match Find(entries, key) case None => None case Some(v) => Some(Canon(v))
  {
    var p := CanonEntries(entries);
    var s := Sort(p, KeyLe);
    SortKeepsElements(p, KeyLe);
    SortedKeysStayDistinct(p);
    FindIs(entries, key);
    FindIs(s, key);
    if Find(entries, key).Some? {
      var i :| 0 <= i < |entries| && entries[i] == Entry(key, Find(entries, key).value);
      assert p[i] in multiset(s);
      var j :| 0 <= j < |s| && s[j] == p[i];
      assert s[j].key == key;
    } else {
      forall e | e in s ensures e.key != key {
        assert e in multiset(p);
      }
    }
  }
}
