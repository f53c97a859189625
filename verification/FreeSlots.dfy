/**
 * Free time for scheduling: busy blocks merged, then one sweep over each working
 * window. Instants are whole milliseconds. The calendar (which day an instant
 * falls on, each day's working window, which days count) comes in as functions.
 */
module FreeSlots {
  datatype Interval = Interval(start: int, end: int) {
    ghost predicate Has(t: int) { start <= t < end }
  }

  /** Some interval of xs has the instant t. */
  ghost predicate Covers(xs: seq<Interval>, t: int) {
    exists i :: 0 <= i < |xs| && xs[i].Has(t)
  }

  // ---------------------------------------------------------------- Merging busy blocks

  /** Non-empty, earliest first, and never touching. */
  ghost predicate Separated(xs: seq<Interval>) {
    && (forall i :: 0 <= i < |xs| ==> xs[i].start < xs[i].end)
    && (forall i, j :: 0 <= i < j < |xs| ==> xs[i].end < xs[j].start)
  }

  ghost predicate SortedByStart(xs: seq<Interval>) {
    forall i, j :: 0 <= i < j < |xs| ==> xs[i].start <= xs[j].start
  }

  ghost predicate SameMembers(xs: seq<Interval>, ys: seq<Interval>) {
    forall x :: x in xs <==> x in ys
  }

  /** The blocks that take any time at all. */
  function NonEmpty(xs: seq<Interval>): (r: seq<Interval>)
    ensures forall x :: x in r <==> x in xs && x.end > x.start
  {
    if xs == [] then []
    else if xs[0].end > xs[0].start then [xs[0]] + NonEmpty(xs[1..])
    else NonEmpty(xs[1..])
  }

  function Insert(x: Interval, xs: seq<Interval>): (r: seq<Interval>)
    requires SortedByStart(xs)
    ensures SortedByStart(r) && SameMembers(r, [x] + xs)
  {
    if xs == [] || x.start < xs[0].start then [x] + xs
    else
      var r := Insert(x, xs[1..]);
      assert xs == [xs[0]] + xs[1..];
      assert forall y :: y in r ==> xs[0].start <= y.start;
      [xs[0]] + r
  }

  /** Stands for the library's sort. */
  function SortByStart(xs: seq<Interval>): (r: seq<Interval>)
    ensures SortedByStart(r) && SameMembers(r, xs)
  {
    if xs == [] then []
    else
      assert xs == xs[..|xs| - 1] + [xs[|xs| - 1]];
      Insert(xs[|xs| - 1], SortByStart(xs[..|xs| - 1]))
  }

  ghost predicate SamePoints(xs: seq<Interval>, ys: seq<Interval>) {
    forall t :: Covers(xs, t) <==> Covers(ys, t)
  }

  /** What one more block does to the merged list: it stretches the last interval or starts a new one. */
  function Absorb(merged: seq<Interval>, interval: Interval): seq<Interval> {
    if merged != [] && interval.start <= merged[|merged| - 1].end then
      var last := merged[|merged| - 1];
      if interval.end > last.end then merged[|merged| - 1 := last.(end := interval.end)] else merged
    else merged + [interval]
  }

  /** The first k sorted blocks are merged. */
  ghost predicate Merging(merged: seq<Interval>, sorted: seq<Interval>, k: nat)
    requires k <= |sorted|
  {
    && Separated(merged)
    && SamePoints(merged, sorted[..k])
    && (merged != [] ==> k < |sorted| ==> merged[|merged| - 1].start <= sorted[k].start)
  }

  method MergeIntervals(intervals: seq<Interval>) returns (merged: seq<Interval>)
    ensures Separated(merged)
    ensures SamePoints(merged, intervals)
  {
    var sorted := SortByStart(NonEmpty(intervals));
    merged := [];
    for k := 0 to |sorted|
      invariant Merging(merged, sorted, k)
    {
      var interval := sorted[k];
      assert interval in sorted;
      MergeStep(merged, sorted, k);
      if merged != [] && interval.start <= merged[|merged| - 1].end {
        var last := merged[|merged| - 1];
        if interval.end > last.end {
          merged := merged[|merged| - 1 := last.(end := interval.end)];
        }
      } else {
        merged := merged + [interval];
      }
    }
    assert sorted[..|sorted|] == sorted;
    SortedSamePoints(intervals);
  }

  lemma MergeStep(merged: seq<Interval>, sorted: seq<Interval>, k: nat)
    requires k < |sorted| && SortedByStart(sorted) && sorted[k].start < sorted[k].end
    requires Merging(merged, sorted, k)
    ensures Merging(Absorb(merged, sorted[k]), sorted, k + 1)
  {
    var merged' := Absorb(merged, sorted[k]);
    AbsorbPoints(merged, sorted[k]);
    OneMore(sorted[..k], sorted[k]);
    assert sorted[..k + 1] == sorted[..k] + [sorted[k]];
    assert SamePoints(merged', sorted[..k + 1]);
  }

  lemma AbsorbPoints(merged: seq<Interval>, x: Interval)
    requires Separated(merged) && x.start < x.end
    requires merged != [] ==> merged[|merged| - 1].start <= x.start
    ensures Separated(Absorb(merged, x))
    ensures forall t :: Covers(Absorb(merged, x), t) <==> Covers(merged, t) || x.Has(t)
  {
    if merged != [] && x.start <= merged[|merged| - 1].end {
      LastExtended(merged, x);
    } else {
      OneMore(merged, x);
    }
  }

  lemma OneMore(xs: seq<Interval>, x: Interval)
    ensures forall t :: Covers(xs + [x], t) <==> Covers(xs, t) || x.Has(t)
  {
    forall t ensures Covers(xs + [x], t) <==> Covers(xs, t) || x.Has(t) {
      assert (xs + [x])[|xs|] == x;
      assert forall i :: 0 <= i < |xs| ==> (xs + [x])[i] == xs[i];
    }
  }

  /** Stretching the last interval over x, which starts inside or right after it, adds exactly the points of x. */
  lemma LastExtended(xs: seq<Interval>, x: Interval)
    requires Separated(xs) && xs != [] && x.start < x.end
    requires xs[|xs| - 1].start <= x.start <= xs[|xs| - 1].end
    ensures var last := xs[|xs| - 1];
            var xs' := if x.end > last.end then xs[|xs| - 1 := last.(end := x.end)] else xs;
            Separated(xs') && forall t :: Covers(xs', t) <==> Covers(xs, t) || x.Has(t)
  {
    var last := xs[|xs| - 1];
    var stretched := last.(end := if x.end > last.end then x.end else last.end);
    OneMore(xs[..|xs| - 1], last);
    OneMore(xs[..|xs| - 1], stretched);
    assert xs == xs[..|xs| - 1] + [last];
    assert xs[|xs| - 1 := stretched] == xs[..|xs| - 1] + [stretched];
    assert forall t :: stretched.Has(t) <==> last.Has(t) || x.Has(t);
  }

  lemma SortedSamePoints(intervals: seq<Interval>)
    ensures SamePoints(SortByStart(NonEmpty(intervals)), intervals)
  {
    var sorted := SortByStart(NonEmpty(intervals));
    forall t ensures Covers(sorted, t) <==> Covers(intervals, t) {
      if i :| 0 <= i < |intervals| && intervals[i].Has(t) {
        assert intervals[i] in sorted;
      }
      if i :| 0 <= i < |sorted| && sorted[i].Has(t) {
        assert sorted[i] in intervals;
      }
    }
  }

  /** The merged list is the only separated list with its points. */
  lemma {:induction false} SeparatedIsCanonical(xs: seq<Interval>, ys: seq<Interval>)
    requires Separated(xs) && Separated(ys)
    requires SamePoints(xs, ys)
    ensures xs == ys
    decreases |xs|
  {
    assert ys != [] ==> ys[0].Has(ys[0].start) && Covers(ys, ys[0].start);
    if xs == [] {
    } else {
      assert xs[0].Has(xs[0].start) && Covers(xs, xs[0].start);
      SameHead(xs, ys);
      SameHead(ys, xs);
      forall t ensures Covers(xs[1..], t) <==> Covers(ys[1..], t) {
        CoversTail(xs, t);
        CoversTail(ys, t);
      }
      SeparatedIsCanonical(xs[1..], ys[1..]);
    }
  }

  lemma CoversTail(xs: seq<Interval>, t: int)
    requires Separated(xs) && xs != []
    ensures Covers(xs[1..], t) <==> Covers(xs, t) && !xs[0].Has(t)
  {
    if Covers(xs, t) && !xs[0].Has(t) {
      var i :| 0 <= i < |xs| && xs[i].Has(t);
      assert xs[1..][i - 1] == xs[i];
    }
  }

  lemma SameHead(xs: seq<Interval>, ys: seq<Interval>)
    requires Separated(xs) && Separated(ys) && xs != [] && ys != []
    requires SamePoints(xs, ys)
    ensures ys[0].start <= xs[0].start && (ys[0].start == xs[0].start ==> ys[0].end <= xs[0].end)
  {
    assert xs[0].Has(xs[0].start) && Covers(xs, xs[0].start);
    assert Covers(xs, xs[0].end) <==> Covers(ys, xs[0].end);
    var covered := Covers(ys, xs[0].end);
    assert ys[0].Has(xs[0].end) ==> covered;
  }

  // ---------------------------------------------------------------- Maximal free stretches

  ghost predicate Free(busy: seq<Interval>, u: int, v: int) {
    forall t :: u <= t < v ==> !Covers(busy, t)
  }

  /** A non-empty free stretch of [lo, hi) that can be extended on neither side. */
  ghost predicate MaximalFree(x: Interval, lo: int, hi: int, busy: seq<Interval>) {
    && lo <= x.start < x.end <= hi
    && Free(busy, x.start, x.end)
    && (x.start == lo || Covers(busy, x.start - 1))
    && (x.end == hi || Covers(busy, x.end))
  }

  ghost predicate LongEnough(x: Interval, minimum: int) {
    x.end - x.start >= minimum
  }

  ghost predicate Ordered(xs: seq<Interval>) {
    forall i, j :: 0 <= i < j < |xs| ==> xs[i].end <= xs[j].start
  }

  /** The blocks before k are behind the cursor, and the slots are the long enough stretches up to the cursor. */
  ghost predicate Swept(slots: seq<Interval>, blocks: seq<Interval>, k: nat, lo: int, cursor: int, hi: int, minimum: int)
    requires k <= |blocks|
  {
    && (forall i :: 0 <= i < k ==> blocks[i].end <= cursor)
    && lo <= cursor && (cursor == lo || Covers(blocks, cursor - 1))
    && SlotsUpTo(slots, blocks, lo, cursor, hi, minimum)
  }

  ghost predicate SlotsUpTo(slots: seq<Interval>, blocks: seq<Interval>, lo: int, cursor: int, hi: int, minimum: int) {
    && (forall x :: x in slots ==> LongEnough(x, minimum))
    && (forall x :: x in slots && x.start < x.end ==> MaximalFree(x, lo, hi, blocks) && x.end <= cursor)
    && (forall x :: MaximalFree(x, lo, hi, blocks) && LongEnough(x, minimum) && x.end <= cursor ==> x in slots)
    && (minimum > 0 ==> Ordered(slots))
  }

  /** A long enough last stretch is the one slot to add. */
  lemma OneSlotMore(slots: seq<Interval>, blocks: seq<Interval>, lo: int, cursor: int, cursor': int, hi: int,
                    minimum: int, x: Interval)
    requires SlotsUpTo(slots, blocks, lo, cursor, hi, minimum) && cursor <= cursor' && x.start == cursor && x.end <= cursor'
    requires x.start < x.end ==> MaximalFree(x, lo, hi, blocks)
    requires forall y :: MaximalFree(y, lo, hi, blocks) && y.end <= cursor' ==> y.end <= cursor || y == x
    ensures SlotsUpTo(if LongEnough(x, minimum) then slots + [x] else slots, blocks, lo, cursor', hi, minimum)
  {
    var slots' := if LongEnough(x, minimum) then slots + [x] else slots;
    forall y | MaximalFree(y, lo, hi, blocks) && LongEnough(y, minimum) && y.end <= cursor' ensures y in slots' {
      if y.end <= cursor {
        assert y in slots;
      } else {
        assert y == x;
      }
    }
    hide MaximalFree, Ordered;
    if minimum > 0 { OrderedMore(slots, cursor, x, minimum); }
    forall y | y in slots' && y.start < y.end ensures MaximalFree(y, lo, hi, blocks) && y.end <= cursor' {
      if y != x { assert y in slots; }
    }
  }

  lemma OrderedMore(slots: seq<Interval>, cursor: int, x: Interval, minimum: int)
    requires minimum > 0 && Ordered(slots) && x.start == cursor
    requires forall y :: y in slots ==> LongEnough(y, minimum) && (y.start < y.end ==> y.end <= cursor)
    ensures Ordered(slots + [x])
  {
    forall i, j | 0 <= i < j < |slots + [x]| ensures (slots + [x])[i].end <= (slots + [x])[j].start {
      assert (slots + [x])[i] == slots[i] && slots[i] in slots;
    }
  }

  /** The inner loop: the slots of one window, clipped to [lo, end). */
  method WindowSlots(blocks: seq<Interval>, lo: int, end: int, minimum: int) returns (slots: seq<Interval>)
    requires Separated(blocks)
    ensures forall x :: x in slots ==> LongEnough(x, minimum)
    ensures forall x: Interval :: x.start < x.end ==>
              (x in slots <==> MaximalFree(x, lo, end, blocks) && LongEnough(x, minimum))
    ensures minimum > 0 ==> Ordered(slots)
  {
    hide SlotsUpTo, MaximalFree, Ordered, Separated, Covers;
    NoSlotsYet(blocks, lo, end, minimum);
    slots := [];
    var cursor := lo;
    var k := 0;
    while k < |blocks|
      invariant 0 <= k <= |blocks|
      invariant Swept(slots, blocks, k, lo, cursor, end, minimum)
    {
      var block := blocks[k];
      if block.end <= cursor {
        k := k + 1;
        continue;
      }
      if block.start >= end {
        break;
      }
      BeforeBlock(blocks, k, lo, cursor, end);
      EndIsCovered(blocks, k);
      OneSlotMore(slots, blocks, lo, cursor, block.end, end, minimum, Interval(cursor, block.start));
      if block.start - cursor >= minimum {
        slots := slots + [Interval(cursor, block.start)];
      }
      cursor := block.end;
      k := k + 1;
    }
    AfterBlocks(blocks, k, lo, cursor, end);
    ghost var beyond := if cursor < end then end else cursor;
    OneSlotMore(slots, blocks, lo, cursor, beyond, end, minimum, Interval(cursor, end));
    if end - cursor >= minimum {
      slots := slots + [Interval(cursor, end)];
    }
    AllSlots(slots, blocks, lo, beyond, end, minimum);
  }

  lemma NoSlotsYet(blocks: seq<Interval>, lo: int, hi: int, minimum: int)
    ensures SlotsUpTo([], blocks, lo, lo, hi, minimum)
  {
  }

  lemma EndIsCovered(blocks: seq<Interval>, k: nat)
    requires Separated(blocks) && k < |blocks|
    ensures blocks[k].start < blocks[k].end && Covers(blocks, blocks[k].end - 1)
  {
    assert blocks[k].Has(blocks[k].end - 1);
  }

  lemma AllSlots(slots: seq<Interval>, blocks: seq<Interval>, lo: int, cursor: int, hi: int, minimum: int)
    requires SlotsUpTo(slots, blocks, lo, cursor, hi, minimum) && hi <= cursor
    ensures forall x :: x in slots ==> LongEnough(x, minimum)
    ensures forall x: Interval :: x.start < x.end ==>
              (x in slots <==> MaximalFree(x, lo, hi, blocks) && LongEnough(x, minimum))
    ensures minimum > 0 ==> Ordered(slots)
  {
    assert forall x :: MaximalFree(x, lo, hi, blocks) ==> x.end <= hi;
  }

  /** From the cursor to the end of the next block, the busy points are that block's. */
  lemma NextBlock(blocks: seq<Interval>, k: nat, cursor: int)
    requires Separated(blocks) && k < |blocks|
    requires forall i :: 0 <= i < k ==> blocks[i].end <= cursor
    ensures forall t :: cursor <= t <= blocks[k].end ==> (Covers(blocks, t) <==> blocks[k].Has(t))
  {
  }

  /** The only maximal free stretch between the cursor and the end of the next block is the gap before that block. */
  lemma BeforeBlock(blocks: seq<Interval>, k: nat, lo: int, cursor: int, hi: int)
    requires Separated(blocks) && k < |blocks|
    requires forall i :: 0 <= i < k ==> blocks[i].end <= cursor
    requires lo <= cursor < blocks[k].end && (cursor == lo || Covers(blocks, cursor - 1))
    requires blocks[k].start < hi
    ensures cursor < blocks[k].start ==> MaximalFree(Interval(cursor, blocks[k].start), lo, hi, blocks)
    ensures forall x :: MaximalFree(x, lo, hi, blocks) && x.end <= blocks[k].end ==>
              x.end <= cursor || x == Interval(cursor, blocks[k].start)
  {
    NextBlock(blocks, k, cursor);
    var block := blocks[k];
    forall x | MaximalFree(x, lo, hi, blocks) && cursor < x.end <= blocks[k].end
      ensures x == Interval(cursor, blocks[k].start)
    {
      InsideWindow(blocks, lo, cursor, hi, x);
      assert !Covers(blocks, x.end - 1);
      assert Covers(blocks, x.end) <==> block.Has(x.end);
      assert x.start > cursor ==> (Covers(blocks, x.start - 1) <==> block.Has(x.start - 1));
    }
  }

  /** A maximal free stretch that ends after the cursor starts at or after it. */
  lemma InsideWindow(blocks: seq<Interval>, lo: int, cursor: int, hi: int, x: Interval)
    requires lo <= cursor && (cursor == lo || Covers(blocks, cursor - 1))
    requires MaximalFree(x, lo, hi, blocks) && cursor < x.end
    ensures cursor <= x.start
  {
    assert x.start <= cursor - 1 < x.end ==> !Covers(blocks, cursor - 1);
  }

  /** Past the last block that matters, the rest of the window is the last maximal free stretch. */
  lemma AfterBlocks(blocks: seq<Interval>, k: nat, lo: int, cursor: int, hi: int)
    requires Separated(blocks) && k <= |blocks|
    requires forall i :: 0 <= i < k ==> blocks[i].end <= cursor
    requires lo <= cursor && (cursor == lo || Covers(blocks, cursor - 1))
    requires k < |blocks| ==> blocks[k].start >= hi
    ensures cursor < hi ==> MaximalFree(Interval(cursor, hi), lo, hi, blocks)
    ensures forall x :: MaximalFree(x, lo, hi, blocks) ==> x.end <= cursor || x == Interval(cursor, hi)
  {
    assert forall t :: cursor <= t < hi ==> !Covers(blocks, t);
    forall x | MaximalFree(x, lo, hi, blocks) && cursor < x.end
      ensures x == Interval(cursor, hi)
    {
      InsideWindow(blocks, lo, cursor, hi, x);
    }
  }

  // ---------------------------------------------------------------- All days

  /** What the source takes from Temporal and the working hours. */
  datatype Calendar = Calendar(dayOf: int -> int, window: int -> Interval, open: int -> bool)

  /** Days follow time, and a day's window lies inside that day. */
  ghost predicate Lawful(c: Calendar) {
    && (forall t, u :: t <= u ==> c.dayOf(t) <= c.dayOf(u))
    && (forall day, t :: c.window(day).Has(t) ==> c.dayOf(t) == day)
  }

  function Max(x: int, y: int): int { if x >= y then x else y }

  function Min(x: int, y: int): int { if x <= y then x else y }

  /** x is a long enough maximal free stretch of the day's window, clipped to [since, until). */
  ghost predicate SlotOn(x: Interval, day: int, busy: seq<Interval>, since: int, until: int, minimum: int, c: Calendar) {
    && c.open(day)
    && MaximalFree(x, Max(c.window(day).start, since), Min(c.window(day).end, until), busy)
    && LongEnough(x, minimum)
  }

  lemma SamePointsSameStretches(blocks: seq<Interval>, busy: seq<Interval>, x: Interval, lo: int, hi: int)
    requires SamePoints(blocks, busy)
    ensures MaximalFree(x, lo, hi, blocks) <==> MaximalFree(x, lo, hi, busy)
  {
  }

  /** The slots found on the days from first up to (not including) day. */
  ghost predicate FoundBefore(slots: seq<Interval>, first: int, day: int, busy: seq<Interval>, since: int, until: int,
                              minimum: int, c: Calendar)
  {
    && (forall x :: x in slots ==> LongEnough(x, minimum))
    && (forall x :: x in slots && x.start < x.end ==>
          exists d :: first <= d < day && SlotOn(x, d, busy, since, until, minimum, c))
    && (forall x, d :: first <= d < day && SlotOn(x, d, busy, since, until, minimum, c) ==> x in slots)
    && (Lawful(c) && minimum > 0 ==> Ordered(slots))
  }

  lemma LaterDayLater(x: Interval, d: int, y: Interval, day: int, busy: seq<Interval>, since: int, until: int, minimum: int,
                      c: Calendar)
    requires Lawful(c) && d < day && x.start < x.end && y.start < y.end
    requires SlotOn(x, d, busy, since, until, minimum, c) && SlotOn(y, day, busy, since, until, minimum, c)
    ensures x.end <= y.start
  {
    assert c.window(d).Has(x.end - 1) && c.window(day).Has(y.start);
    assert y.start <= x.end - 1 ==> c.dayOf(y.start) <= c.dayOf(x.end - 1);
  }

  lemma OneDayMore(slots: seq<Interval>, more: seq<Interval>, first: int, day: int, busy: seq<Interval>, since: int,
                   until: int, minimum: int, c: Calendar)
    requires FoundBefore(slots, first, day, busy, since, until, minimum, c) && first <= day
    requires forall x :: x in more ==> LongEnough(x, minimum)
    requires forall x: Interval :: x.start < x.end ==> (x in more <==> SlotOn(x, day, busy, since, until, minimum, c))
    requires minimum > 0 ==> Ordered(more)
    ensures FoundBefore(slots + more, first, day + 1, busy, since, until, minimum, c)
  {
    forall x | x in slots + more && x.start < x.end
      ensures exists d :: first <= d < day + 1 && SlotOn(x, d, busy, since, until, minimum, c)
    {
      if x in slots {
        var d :| first <= d < day && SlotOn(x, d, busy, since, until, minimum, c);
        assert first <= d < day + 1;
      } else {
        assert SlotOn(x, day, busy, since, until, minimum, c);
      }
    }
    if Lawful(c) && minimum > 0 {
      forall x, y | x in slots && y in more ensures x.end <= y.start {
        assert LongEnough(x, minimum) && LongEnough(y, minimum);
        var d :| first <= d < day && SlotOn(x, d, busy, since, until, minimum, c);
        LaterDayLater(x, d, y, day, busy, since, until, minimum, c);
      }
      hide SlotOn, Lawful;
    }
  }

  method FreeSlots(busy: seq<Interval>, since: int, until: int, durationMinutes: int, c: Calendar)
    returns (slots: seq<Interval>)
    ensures forall x :: x in slots ==> LongEnough(x, durationMinutes * 60_000)
    ensures forall x: Interval :: x.start < x.end ==>
              (x in slots <==> exists day :: c.dayOf(since) <= day <= c.dayOf(until)
                                          && SlotOn(x, day, busy, since, until, durationMinutes * 60_000, c))
    ensures Lawful(c) && durationMinutes > 0 ==> Ordered(slots)
  {
    var blocks := MergeIntervals(busy);
    var minimum := durationMinutes * 60_000;
    slots := [];
    var first, last := c.dayOf(since), c.dayOf(until);
    var day := first;
    while day <= last
      invariant first <= day && (day <= last + 1 || day == first)
      invariant FoundBefore(slots, first, day, busy, since, until, minimum, c)
      decreases last - day
    {
      var more := [];
      if c.open(day) {
        var window := c.window(day);
        more := WindowSlots(blocks, Max(window.start, since), Min(window.end, until), minimum);
        forall x: Interval | x.start < x.end
          ensures x in more <==> SlotOn(x, day, busy, since, until, minimum, c)
        {
          SamePointsSameStretches(blocks, busy, x, Max(window.start, since), Min(window.end, until));
        }
      }
      OneDayMore(slots, more, first, day, busy, since, until, minimum, c);
      slots := slots + more;
      day := day + 1;
    }
  }

  // ---------------------------------------------------------------- What the slots are good for

  /** What FreeSlots promises of the slots it returns. */
  ghost predicate AreSlots(slots: seq<Interval>, busy: seq<Interval>, since: int, until: int, minimum: int, c: Calendar) {
    && (forall x :: x in slots ==> LongEnough(x, minimum))
    && (forall x: Interval :: x.start < x.end ==>
          (x in slots <==> exists day :: c.dayOf(since) <= day <= c.dayOf(until)
                                      && SlotOn(x, day, busy, since, until, minimum, c)))
  }

  /** Every instant of a slot is free, wanted, and inside one open day's window. */
  lemma SlotsAreFree(slots: seq<Interval>, busy: seq<Interval>, since: int, until: int, minimum: int, c: Calendar, x: Interval)
    requires AreSlots(slots, busy, since, until, minimum, c) && minimum > 0 && x in slots
    ensures exists day :: c.open(day) && forall t :: x.Has(t) ==>
              since <= t < until && c.window(day).Has(t) && !Covers(busy, t)
    ensures x.end - x.start >= minimum
  {
    assert LongEnough(x, minimum);
    var day :| c.dayOf(since) <= day <= c.dayOf(until) && SlotOn(x, day, busy, since, until, minimum, c);
    assert c.open(day);
  }

  lemma {:induction false} WidenLeft(busy: seq<Interval>, lo: int, u: int, v: int) returns (start: int)
    requires lo <= u && Free(busy, u, v)
    ensures lo <= start <= u && Free(busy, start, v) && (start == lo || Covers(busy, start - 1))
    decreases u - lo
  {
    if u == lo || Covers(busy, u - 1) {
      return u;
    }
    start := WidenLeft(busy, lo, u - 1, v);
  }

  lemma {:induction false} WidenRight(busy: seq<Interval>, hi: int, u: int, v: int) returns (end: int)
    requires v <= hi && Free(busy, u, v)
    ensures v <= end <= hi && Free(busy, u, end) && (end == hi || Covers(busy, end))
    decreases hi - v
  {
    if v == hi || Covers(busy, v) {
      return v;
    }
    end := WidenRight(busy, hi, u, v + 1);
  }

  /** Nothing is missed: a long enough free interval inside one open window, between since and until, lies in a slot. */
  lemma NoFreeTimeMissed(slots: seq<Interval>, busy: seq<Interval>, since: int, until: int, minimum: int, c: Calendar,
                         day: int, u: int, v: int)
    requires AreSlots(slots, busy, since, until, minimum, c) && minimum > 0 && Lawful(c)
    requires c.open(day) && c.window(day).start <= u && v <= c.window(day).end
    requires since <= u && v <= until && v - u >= minimum && Free(busy, u, v)
    ensures exists x :: x in slots && x.start <= u && v <= x.end
  {
    var lo, hi := Max(c.window(day).start, since), Min(c.window(day).end, until);
    var start := WidenLeft(busy, lo, u, v);
    var end := WidenRight(busy, hi, start, v);
    var x := Interval(start, end);
    assert c.window(day).Has(u);
    assert c.dayOf(since) <= c.dayOf(u) == day <= c.dayOf(until);
    assert SlotOn(x, day, busy, since, until, minimum, c);
    assert x in slots;
  }

  /** Ordered and long enough leaves no choice: two lists with the same promises are the same list. */
  lemma SlotsAreDetermined(xs: seq<Interval>, ys: seq<Interval>, busy: seq<Interval>, since: int, until: int,
                           minimum: int, c: Calendar)
    requires AreSlots(xs, busy, since, until, minimum, c) && Ordered(xs)
    requires AreSlots(ys, busy, since, until, minimum, c) && Ordered(ys)
    requires minimum > 0
    ensures xs == ys
  {
    forall x ensures x in xs <==> x in ys {
      if x.start >= x.end { assert !LongEnough(x, minimum); }
    }
    OrderedIsCanonical(xs, ys);
  }

  lemma {:induction false} OrderedIsCanonical(xs: seq<Interval>, ys: seq<Interval>)
    requires Ordered(xs) && Ordered(ys) && SameMembers(xs, ys)
    requires forall x :: x in xs ==> x.start < x.end
    ensures xs == ys
    decreases |xs|
  {
    assert ys != [] ==> ys[0] in xs;
    if xs == [] {
    } else {
      assert xs[0] in ys && xs[0].start < xs[0].end && ys[0].start < ys[0].end;
      assert xs[0] == ys[0];
      TailMembers(xs);
      TailMembers(ys);
      OrderedIsCanonical(xs[1..], ys[1..]);
    }
  }

  lemma TailMembers(xs: seq<Interval>)
    requires Ordered(xs) && xs != [] && xs[0].start < xs[0].end
    requires forall x :: x in xs ==> x.start < x.end
    ensures forall x :: x in xs[1..] <==> x in xs && x != xs[0]
  {
    assert xs == [xs[0]] + xs[1..];
  }
}
