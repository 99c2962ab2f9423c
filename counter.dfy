/** Python's collections.Counter over a sequence of strings, as the report renderers use it:
    the distinct keys in first-occurrence order with their counts, and most_common(), the
    same entries ordered by count, highest first. */
module Counter {
  import opened Wrappers

  type Entry = (string, nat)

  /** The sum of the counts. */
  function Total(t: seq<Entry>): nat {
    if t == [] then 0 else t[0].1 + Total(t[1..])
  }

  predicate DistinctKeys(t: seq<Entry>) {
    forall i, j :: 0 <= i < j < |t| ==> t[i].0 != t[j].0
  }

  /** The position of the first occurrence of `x`. */
  function FirstIndex(keys: seq<string>, x: string): (i: nat)
    requires x in keys
    ensures i < |keys| && keys[i] == x && x !in keys[..i]
  {
    if keys[0] == x then 0
    else
      var i := 1 + FirstIndex(keys[1..], x);
      assert keys[..i] == [keys[0]] + keys[1..][..i - 1];
      i
  }

  /** Where `k` has its entry, if it has one. */
  function KeyIndex(t: seq<Entry>, k: string): (r: Option<nat>)
    ensures r.None? <==> forall i :: 0 <= i < |t| ==> t[i].0 != k
    ensures r.Some? ==> r.value < |t| && t[r.value].0 == k
  {
    if t == [] then None
    else if t[0].0 == k then Some(0)
    else
      match KeyIndex(t[1..], k)
      case None => None
      case Some(i) => Some(i + 1)
  }

  lemma {:induction false} TotalUpdate(t: seq<Entry>, i: nat, e: Entry)
    requires i < |t|
    ensures Total(t[i := e]) + t[i].1 == Total(t) + e.1
  {
    if i > 0 {
      TotalUpdate(t[1..], i - 1, e);
      assert t[i := e][1..] == t[1..][i - 1 := e];
    }
  }

  lemma {:induction false} TotalAppend(t: seq<Entry>, e: Entry)
    ensures Total(t + [e]) == Total(t) + e.1
  {
    if t != [] {
      TotalAppend(t[1..], e);
      assert (t + [e])[1..] == t[1..] + [e];
    }
  }

  /** Adding one occurrence of `k`: its count goes up by one, or it is appended with count 1. */
  function Bump(t: seq<Entry>, k: string): (r: seq<Entry>)
    requires DistinctKeys(t)
    ensures DistinctKeys(r)
    ensures |r| == (if KeyIndex(t, k).Some? then |t| else |t| + 1)
    ensures forall i :: 0 <= i < |t| ==> r[i].0 == t[i].0
    ensures forall i :: 0 <= i < |t| ==> r[i].1 == (if t[i].0 == k then t[i].1 + 1 else t[i].1)
    ensures |r| == |t| + 1 ==> r[|t|] == (k, 1)
    ensures Total(r) == Total(t) + 1
  {
    match KeyIndex(t, k)
    case Some(i) =>
      TotalUpdate(t, i, (k, t[i].1 + 1));
      t[i := (k, t[i].1 + 1)]
    case None =>
      TotalAppend(t, (k, 1));
      t + [(k, 1)]
  }

  /** `Counter(keys)`, kept in insertion order (the order `.items()` lists). */
  function Tally(keys: seq<string>): (t: seq<Entry>)
    ensures DistinctKeys(t)
    ensures Total(t) == |keys|
  {
    if keys == [] then [] else Bump(Tally(keys[..|keys| - 1]), keys[|keys| - 1])
  }

  /** A key the tally has no entry for does not occur. */
  lemma NewKeyAbsent(front: seq<string>, k: string)
    requires KeyIndex(Tally(front), k).None?
    ensures k !in front
  {
    TallyCovers(front);
    var t0 := Tally(front);
    assert forall j :: 0 <= j < |front| ==> front[j] != k;
  }

  /** Each entry is a key that occurs, with its number of occurrences. */
  predicate CountsOccurrences(keys: seq<string>, t: seq<Entry>) {
    forall i :: 0 <= i < |t| ==> t[i].0 in keys && t[i].1 == multiset(keys)[t[i].0]
  }

  /** Every key that occurs has an entry. */
  predicate CoversKeys(keys: seq<string>, t: seq<Entry>) {
    forall j :: 0 <= j < |keys| ==> exists i :: 0 <= i < |t| && t[i].0 == keys[j]
  }

  /** The entries' keys occur, and are listed in the order they first occur. */
  predicate InFirstOccurrenceOrder(keys: seq<string>, t: seq<Entry>) {
    && (forall i :: 0 <= i < |t| ==> t[i].0 in keys)
    && (forall i, j :: 0 <= i < j < |t| ==> FirstIndex(keys, t[i].0) < FirstIndex(keys, t[j].0))
  }

  lemma {:induction false} TallyCounts(keys: seq<string>)
    ensures CountsOccurrences(keys, Tally(keys))
  {
    if keys != [] {
      var n := |keys| - 1;
      var front, k := keys[..n], keys[n];
      TallyCounts(front);
      var t0 := Tally(front);
      var t := Tally(keys);
      assert t == Bump(t0, k);
      assert keys == front + [k];
      assert multiset(keys) == multiset(front) + multiset{k};
      if KeyIndex(t0, k).None? {
        NewKeyAbsent(front, k);
      }
      forall i | 0 <= i < |t|
        ensures t[i].0 in keys && t[i].1 == multiset(keys)[t[i].0]
      {
        if i < |t0| {
          assert t0[i].0 in front;
        } else {
          assert t[i] == (k, 1);
        }
      }
    }
  }

  lemma {:induction false} TallyCovers(keys: seq<string>)
    ensures CoversKeys(keys, Tally(keys))
  {
    if keys != [] {
      var n := |keys| - 1;
      var front, k := keys[..n], keys[n];
      TallyCovers(front);
      var t0 := Tally(front);
      var t := Tally(keys);
      assert t == Bump(t0, k);
      forall j | 0 <= j < |keys|
        ensures exists i :: 0 <= i < |t| && t[i].0 == keys[j]
      {
        if j < n {
          assert keys[j] == front[j];
          var i :| 0 <= i < |t0| && t0[i].0 == front[j];
          assert t[i].0 == keys[j];
        } else {
          match KeyIndex(t0, k)
          case Some(i) =>
            assert t[i].0 == keys[j];
          case None =>
            assert t[|t0|].0 == keys[j];
        }
      }
    }
  }

  lemma {:induction false} TallyInFirstOccurrenceOrder(keys: seq<string>)
    ensures InFirstOccurrenceOrder(keys, Tally(keys))
  {
    if keys != [] {
      var n := |keys| - 1;
      var front, k := keys[..n], keys[n];
      TallyInFirstOccurrenceOrder(front);
      assert keys == front + [k];
      FirstIndexExtend(front, k);
      var t0 := Tally(front);
      var t := Tally(keys);
      assert t == Bump(t0, k);
      if KeyIndex(t0, k).None? {
        NewKeyAbsent(front, k);
      }
      // Old entries keep their first positions; a new entry's first position is the end.
      forall i | 0 <= i < |t|
        ensures t[i].0 in keys
        ensures FirstIndex(keys, t[i].0) == if i < |t0| then FirstIndex(front, t0[i].0) else |front|
      {
        if i < |t0| {
          assert t[i].0 == t0[i].0 && t0[i].0 in front;
        } else {
          assert t[i].0 == k;
        }
      }
      forall i, j | 0 <= i < j < |t|
        ensures FirstIndex(keys, t[i].0) < FirstIndex(keys, t[j].0)
      {
        if j < |t0| {
          assert FirstIndex(front, t0[i].0) < FirstIndex(front, t0[j].0);
        } else {
          assert FirstIndex(front, t0[i].0) < |front|;
        }
      }
    }
  }

  /** Appending a key keeps the first occurrence of every key already present. */
  lemma {:induction false} FirstIndexExtend(front: seq<string>, k: string)
    ensures forall x :: x in front ==> FirstIndex(front + [k], x) == FirstIndex(front, x)
    ensures k !in front ==> FirstIndex(front + [k], k) == |front|
  {
    if front != [] {
      FirstIndexExtend(front[1..], k);
      assert (front + [k])[1..] == front[1..] + [k];
    }
  }

  /** Places `e` before the first entry whose count is not higher, so that among equal counts
      the entries already ordered stay behind it. */
  function InsertByCount(e: Entry, s: seq<Entry>): (r: seq<Entry>)
    ensures multiset(r) == multiset(s) + multiset{e}
    ensures |r| == |s| + 1
    ensures r[0] == e || (s != [] && r[0] == s[0])
    ensures Total(r) == e.1 + Total(s)
  {
    if s == [] || s[0].1 <= e.1 then [e] + s
    else
      var rest := InsertByCount(e, s[1..]);
      assert s == [s[0]] + s[1..];
      [s[0]] + rest
  }

  predicate NonIncreasing(t: seq<Entry>) {
    forall i :: 0 <= i < |t| - 1 ==> t[i].1 >= t[i + 1].1
  }

  /** `most_common()`: the entries by count, highest first; ties keep their order. */
  function MostCommon(t: seq<Entry>): (r: seq<Entry>)
    ensures multiset(r) == multiset(t) && |r| == |t|
    ensures NonIncreasing(r)
    ensures Total(r) == Total(t)
  {
    if t == [] then []
    else
      var rest := MostCommon(t[1..]);
      assert t == [t[0]] + t[1..];
      InsertKeepsOrder(t[0], rest);
      InsertByCount(t[0], rest)
  }

  lemma {:induction false} InsertKeepsOrder(e: Entry, s: seq<Entry>)
    requires NonIncreasing(s)
    ensures NonIncreasing(InsertByCount(e, s))
  {
    if s == [] || s[0].1 <= e.1 {
    } else {
      InsertKeepsOrder(e, s[1..]);
    }
  }
}
