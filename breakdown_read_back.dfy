/** The dashboard reads a run of rendered breakdown bullets back as the entries they came
    from, in their order. */
module BreakdownReadBack {
  import opened Wrappers
  import opened Strings
  import opened Dashboard
  import opened ParserReadBack
  import DailyReport

  /** The lines rendered from `entries`, one per entry from `start`, all with clean names. */
  predicate RenderedBullets(lines: seq<string>, start: nat, entries: seq<(string, nat)>) {
    && start + |entries| <= |lines|
    && forall k :: 0 <= k < |entries| ==>
         CleanName(entries[k].0) && lines[start + k] == DailyReport.Bullet(entries[k].0, entries[k].1)
  }

  /** The entries as the breakdown items they stand for. */
  function AsBreakdowns(entries: seq<(string, nat)>): (r: seq<Breakdown>)
    ensures |r| == |entries|
  {
    if entries == [] then [] else [Breakdown(entries[0].0, entries[0].1)] + AsBreakdowns(entries[1..])
  }

  /** Rendered bullets with clean names, from `start` up to `end`, read back as the entries
      they came from, in order. */
  lemma BreakdownsOfBullets(lines: seq<string>, start: nat, end: nat, entries: seq<(string, nat)>)
    requires RenderedBullets(lines, start, entries) && end == start + |entries|
    ensures BreakdownsOf(lines, start, end) == AsBreakdowns(entries)
  {
    RenderedItems(lines, start, entries);
    ItemsReadAll(lines, start, end, AsBreakdowns(entries));
  }

  /** Lines from `start` that each hold an item read back as those items. */
  lemma ItemsReadAll(lines: seq<string>, start: nat, end: nat, items: seq<Breakdown>)
    requires end == start + |items| && ItemsFrom(lines, start, items)
    ensures BreakdownsOf(lines, start, end) == items
  {
    ItemsRead(lines, start, start, end, [], items);
    assert [] + items == items;
  }

  /** Each line from `i` holds the corresponding item. */
  predicate ItemsFrom(lines: seq<string>, i: nat, items: seq<Breakdown>)
    decreases |items|
  {
    i + |items| <= |lines| &&
    (items != [] ==> BreakdownItem(lines[i]) == Some(items[0]) && ItemsFrom(lines, i + 1, items[1..]))
  }

  lemma {:induction false} RenderedItems(lines: seq<string>, i: nat, entries: seq<(string, nat)>)
    requires RenderedBullets(lines, i, entries)
    ensures ItemsFrom(lines, i, AsBreakdowns(entries))
    decreases |entries|
  {
    if entries != [] {
      RenderedRest(lines, i, entries);
      RenderedItems(lines, i + 1, entries[1..]);
      AsBreakdownsRest(entries);
      BreakdownBulletReads(entries[0].0, entries[0].1);
    }
  }

  lemma RenderedRest(lines: seq<string>, i: nat, entries: seq<(string, nat)>)
    requires RenderedBullets(lines, i, entries) && entries != []
    ensures CleanName(entries[0].0) && lines[i] == DailyReport.Bullet(entries[0].0, entries[0].1)
    ensures RenderedBullets(lines, i + 1, entries[1..])
  {
    assert forall k :: 0 <= k < |entries| - 1 ==> entries[1..][k] == entries[k + 1];
  }

  lemma AsBreakdownsRest(entries: seq<(string, nat)>)
    requires entries != []
    ensures AsBreakdowns(entries)[0] == Breakdown(entries[0].0, entries[0].1)
    ensures AsBreakdowns(entries)[1..] == AsBreakdowns(entries[1..])
  {
  }

  /** A line holding an item adds it to the entries read so far. */
  lemma OneMoreItem(lines: seq<string>, start: nat, end: nat, prev: seq<Breakdown>, b: Breakdown)
    requires start < end <= |lines| && BreakdownsOf(lines, start, end - 1) == prev
    requires BreakdownItem(lines[end - 1]) == Some(b)
    ensures BreakdownsOf(lines, start, end) == prev + [b]
  {
  }

  lemma ConsAssoc(done: seq<Breakdown>, items: seq<Breakdown>)
    requires items != []
    ensures done + [items[0]] + items[1..] == done + items
  {
  }

  /** Lines from `i` that each hold an item extend the entries read up to `i` by those items,
      up to `end`, just past the last of them. */
  lemma {:induction false} ItemsRead(lines: seq<string>, start: nat, i: nat, end: nat,
                                     done: seq<Breakdown>, items: seq<Breakdown>)
    requires start <= i && end == i + |items| && ItemsFrom(lines, i, items)
    requires BreakdownsOf(lines, start, i) == done
    ensures BreakdownsOf(lines, start, end) == done + items
    decreases |items|, 1
  {
    if items != [] {
      ItemsReadMore(lines, start, i, end, done, items);
    } else {
      SameEnd(lines, start, i, end);
      assert done + items == done;
    }
  }

  lemma {:induction false} ItemsReadMore(lines: seq<string>, start: nat, i: nat, end: nat,
                                         done: seq<Breakdown>, items: seq<Breakdown>)
    requires start <= i && end == i + |items| && ItemsFrom(lines, i, items)
    requires BreakdownsOf(lines, start, i) == done && items != []
    ensures BreakdownsOf(lines, start, end) == done + items
    decreases |items|, 0
  {
    OneMoreItem(lines, start, i + 1, done, items[0]);
    ItemsRead(lines, start, i + 1, end, done + [items[0]], items[1..]);
    ConsAssoc(done, items);
  }

  lemma SameEnd(lines: seq<string>, start: nat, a: nat, b: nat)
    requires a == b && start <= a <= |lines|
    ensures BreakdownsOf(lines, start, a) == BreakdownsOf(lines, start, b)
  {
  }

  /** A run of marked lines ended by an unmarked line or the end of the text is what
      RunEnd measures. */
  lemma {:induction false} RunEndAt(lines: seq<string>, i: nat, n: nat, mark: char)
    requires i <= n <= |lines|
    requires forall k :: i <= k < n ==> Marked(lines[k], mark)
    requires n == |lines| || !Marked(lines[n], mark)
    ensures RunEnd(lines, i, mark) == n
    decreases n - i
  {
    if i < n {
      RunEndAt(lines, i + 1, n, mark);
    }
  }

  /** Rendered bullets form the whole run when an unmarked line, or the end, follows them. */
  lemma BulletRun(lines: seq<string>, start: nat, entries: seq<(string, nat)>)
    requires RenderedBullets(lines, start, entries)
    requires start + |entries| == |lines| || !Marked(lines[start + |entries|], '-')
    ensures RunEnd(lines, start, '-') == start + |entries|
  {
    forall k | start <= k < start + |entries|
      ensures Marked(lines[k], '-')
    {
      assert CleanName(entries[k - start].0) && lines[k] == DailyReport.Bullet(entries[k - start].0, entries[k - start].1);
      BreakdownBulletReads(entries[k - start].0, entries[k - start].1);
    }
    RunEndAt(lines, start, start + |entries|, '-');
  }
}
