/**
 * Spelling suggestions of the command line tool: the one-row Levenshtein table
 * and the choice of the closest candidate.
 *
 * Strings are sequences of UTF-16 code units, which is what the source indexes.
 */
module EditDistance {
  import opened Wrappers

  type CodeUnit = u: int | 0 <= u < 0x1_0000

  type Text = seq<CodeUnit>

  // ---------------------------------------------------------------- Edit scripts

  /**
   * One edit. `(None, Some(y))` inserts y, `(Some(x), None)` deletes x,
   * `(Some(x), Some(y))` keeps x when x == y and substitutes it otherwise.
   */
  datatype Edit = Edit(from: Option<CodeUnit>, to: Option<CodeUnit>)

  function Unit(x: Option<CodeUnit>): Text {
    if x.Some? then [x.value] else []
  }

  /** What a script reads. */
  ghost function Source(es: seq<Edit>): Text {
    if es == [] then [] else Source(es[..|es| - 1]) + Unit(es[|es| - 1].from)
  }

  /** What a script writes. */
  ghost function Target(es: seq<Edit>): Text {
    if es == [] then [] else Target(es[..|es| - 1]) + Unit(es[|es| - 1].to)
  }

  /** Insertions, deletions and substitutions cost one each; keeping is free. */
  ghost function Cost(es: seq<Edit>): nat {
    if es == [] then 0
    else Cost(es[..|es| - 1]) + if es[|es| - 1].from == es[|es| - 1].to then 0 else 1
  }

  ghost predicate Turns(es: seq<Edit>, a: Text, b: Text) {
    Source(es) == a && Target(es) == b
  }

  /** d is the least cost of all scripts that turn a into b. */
  ghost predicate IsDistance(a: Text, b: Text, d: nat) {
    && (exists es: seq<Edit> :: Turns(es, a, b) && Cost(es) == d)
    && (forall es: seq<Edit> :: Turns(es, a, b) ==> d <= Cost(es))
  }

  // ---------------------------------------------------------------- The recurrence

  function Min3(x: nat, y: nat, z: nat): nat {
    if x <= y && x <= z then x else if y <= z then y else z
  }

  /** The table: the distance of the first i units of a from the first j of b. */
  function Table(a: Text, b: Text, i: nat, j: nat): nat
    requires i <= |a| && j <= |b|
  {
    if i == 0 then j
    else if j == 0 then i
    else Min3(Table(a, b, i - 1, j) + 1, Table(a, b, i, j - 1) + 1,
              Table(a, b, i - 1, j - 1) + if a[i - 1] == b[j - 1] then 0 else 1)
  }

  function Lev(a: Text, b: Text): nat {
    Table(a, b, |a|, |b|)
  }

  lemma Extend(es: seq<Edit>, e: Edit)
    ensures Source(es + [e]) == Source(es) + Unit(e.from)
    ensures Target(es + [e]) == Target(es) + Unit(e.to)
    ensures Cost(es + [e]) == Cost(es) + if e.from == e.to then 0 else 1
  {
    assert (es + [e])[..|es|] == es;
  }

  /** What an edit covers between two prefixes of a: the next unit, or nothing. */
  ghost predicate Covers(a: Text, i': nat, i: nat, x: Option<CodeUnit>)
    requires i <= |a|
  {
    i == i' + |Unit(x)| && (x.Some? ==> x.value == a[i'])
  }

  /** The cell that cell (i, j) was reached from, and the edit that leads here from it. */
  ghost function CameFrom(a: Text, b: Text, i: nat, j: nat): (c: (nat, nat, Edit))
    requires i <= |a| && j <= |b| && i + j > 0
    ensures c.0 + c.1 < i + j && Covers(a, c.0, i, c.2.from) && Covers(b, c.1, j, c.2.to)
    ensures Table(a, b, i, j) == Table(a, b, c.0, c.1) + if c.2.from == c.2.to then 0 else 1
  {
    if j == 0 || (i > 0 && Table(a, b, i, j) == Table(a, b, i - 1, j) + 1) then
      (i - 1, j, Edit(Some(a[i - 1]), None))
    else if i == 0 || Table(a, b, i, j) == Table(a, b, i, j - 1) + 1 then
      (i, j - 1, Edit(None, Some(b[j - 1])))
    else
      (i - 1, j - 1, Edit(Some(a[i - 1]), Some(b[j - 1])))
  }

  /** The recurrence is achieved by a script. */
  lemma {:induction false} TableAchieved(a: Text, b: Text, i: nat, j: nat) returns (es: seq<Edit>)
    requires i <= |a| && j <= |b|
    ensures Turns(es, a[..i], b[..j]) && Cost(es) == Table(a, b, i, j)
    decreases i + j
  {
    if i + j == 0 {
      return [];
    }
    var (i', j', e) := CameFrom(a, b, i, j);
    es := TableAchieved(a, b, i', j');
    assert a[..i] == a[..i'] + Unit(e.from) && b[..j] == b[..j'] + Unit(e.to);
    Extend(es, e);
    es := es + [e];
  }

  /** Without its last edit, a script turns the shorter prefixes into one another. */
  lemma DropLast(a: Text, b: Text, i: nat, j: nat, es: seq<Edit>) returns (i': nat, j': nat)
    requires i <= |a| && j <= |b| && es != []
    requires Turns(es, a[..i], b[..j])
    ensures Covers(a, i', i, es[|es| - 1].from) && Covers(b, j', j, es[|es| - 1].to)
    ensures Turns(es[..|es| - 1], a[..i'], b[..j'])
  {
    var es', e := es[..|es| - 1], es[|es| - 1];
    i', j' := i - |Unit(e.from)|, j - |Unit(e.to)|;
    assert a[..i] == Source(es') + Unit(e.from) && b[..j] == Target(es') + Unit(e.to);
    assert a[..i'] == a[..i][..i'] && a[i'..i] == a[..i][i'..];
    assert b[..j'] == b[..j][..j'] && b[j'..j] == b[..j][j'..];
  }

  /** One edit adds at most its cost to a cell. */
  lemma TableStep(a: Text, b: Text, i': nat, j': nat, i: nat, j: nat, e: Edit)
    requires i <= |a| && j <= |b|
    requires Covers(a, i', i, e.from) && Covers(b, j', j, e.to)
    ensures Table(a, b, i, j) <= Table(a, b, i', j') + if e.from == e.to then 0 else 1
  {
  }

  /** No script is cheaper than the recurrence. */
  lemma {:induction false} TableIsLeast(a: Text, b: Text, i: nat, j: nat, es: seq<Edit>)
    requires i <= |a| && j <= |b|
    requires Turns(es, a[..i], b[..j])
    ensures Table(a, b, i, j) <= Cost(es)
    decreases |es|
  {
    if es == [] {
    } else {
      var i', j' := DropLast(a, b, i, j, es);
      TableIsLeast(a, b, i', j', es[..|es| - 1]);
      TableStep(a, b, i', j', i, j, es[|es| - 1]);
    }
  }

  lemma LevAchieved(a: Text, b: Text) returns (es: seq<Edit>)
    ensures Turns(es, a, b) && Cost(es) == Lev(a, b)
  {
    assert a[..|a|] == a && b[..|b|] == b;
    es := TableAchieved(a, b, |a|, |b|);
  }

  lemma LevIsLeast(es: seq<Edit>)
    ensures Lev(Source(es), Target(es)) <= Cost(es)
  {
    var a, b := Source(es), Target(es);
    assert a[..|a|] == a && b[..|b|] == b;
    TableIsLeast(a, b, |a|, |b|, es);
  }

  /** The recurrence is the minimum over all edit scripts. */
  lemma LevIsDistance(a: Text, b: Text)
    ensures IsDistance(a, b, Lev(a, b))
  {
    var es := LevAchieved(a, b);
    forall fs: seq<Edit> | Turns(fs, a, b) ensures Lev(a, b) <= Cost(fs) {
      LevIsLeast(fs);
    }
  }

  // ---------------------------------------------------------------- A metric

  ghost function Inverse(es: seq<Edit>): seq<Edit> {
    seq(|es|, i requires 0 <= i < |es| => Edit(es[i].to, es[i].from))
  }

  lemma {:induction false} InverseTurnsBack(es: seq<Edit>)
    ensures Turns(Inverse(es), Target(es), Source(es)) && Cost(Inverse(es)) == Cost(es)
    decreases |es|
  {
    if es == [] {
    } else {
      InverseTurnsBack(es[..|es| - 1]);
      assert Inverse(es)[..|es| - 1] == Inverse(es[..|es| - 1]);
    }
  }

  lemma Symmetric(a: Text, b: Text)
    ensures Lev(a, b) == Lev(b, a)
  {
    var es := LevAchieved(a, b);
    InverseTurnsBack(es);
    LevIsLeast(Inverse(es));
    var fs := LevAchieved(b, a);
    InverseTurnsBack(fs);
    LevIsLeast(Inverse(fs));
  }

  /** Doing fs after es, as one script that costs no more than both. */
  lemma {:induction false} Compose(es: seq<Edit>, fs: seq<Edit>) returns (gs: seq<Edit>)
    requires Target(es) == Source(fs)
    ensures Turns(gs, Source(es), Target(fs)) && Cost(gs) <= Cost(es) + Cost(fs)
    decreases |es| + |fs|
  {
    if fs != [] && fs[|fs| - 1].from.None? {
      gs := Compose(es, fs[..|fs| - 1]);
      Extend(gs, fs[|fs| - 1]);
      gs := gs + [fs[|fs| - 1]];
    } else if es != [] && es[|es| - 1].to.None? {
      gs := Compose(es[..|es| - 1], fs);
      Extend(gs, es[|es| - 1]);
      gs := gs + [es[|es| - 1]];
    } else if es != [] && fs != [] {
      var e, f := es[|es| - 1], fs[|fs| - 1];
      var mid := Target(es);
      assert mid == Target(es[..|es| - 1]) + [e.to.value];
      assert mid == Source(fs[..|fs| - 1]) + [f.from.value];
      assert e.to.value == mid[|mid| - 1] == f.from.value;
      assert Target(es[..|es| - 1]) == mid[..|mid| - 1] == Source(fs[..|fs| - 1]);
      gs := Compose(es[..|es| - 1], fs[..|fs| - 1]);
      Extend(gs, Edit(e.from, f.to));
      gs := gs + [Edit(e.from, f.to)];
    } else {
      gs := [];
    }
  }

  lemma Triangle(a: Text, b: Text, c: Text)
    ensures Lev(a, c) <= Lev(a, b) + Lev(b, c)
  {
    var es := LevAchieved(a, b);
    var fs := LevAchieved(b, c);
    var gs := Compose(es, fs);
    LevIsLeast(gs);
  }

  lemma {:induction false} FreeScriptKeeps(es: seq<Edit>)
    requires Cost(es) == 0
    ensures Source(es) == Target(es)
    decreases |es|
  {
    if es == [] {
    } else {
      FreeScriptKeeps(es[..|es| - 1]);
    }
  }

  ghost function KeepAll(a: Text): seq<Edit> {
    seq(|a|, i requires 0 <= i < |a| => Edit(Some(a[i]), Some(a[i])))
  }

  lemma {:induction false} KeepAllIsFree(a: Text)
    ensures Turns(KeepAll(a), a, a) && Cost(KeepAll(a)) == 0
    decreases |a|
  {
    if a == [] {
    } else {
      var a' := a[..|a| - 1];
      KeepAllIsFree(a');
      assert KeepAll(a) == KeepAll(a') + [Edit(Some(a[|a| - 1]), Some(a[|a| - 1]))];
      Extend(KeepAll(a'), Edit(Some(a[|a| - 1]), Some(a[|a| - 1])));
    }
  }

  /** Distance zero is equality: with Symmetric and Triangle, a metric. */
  lemma ZeroIsEquality(a: Text, b: Text)
    ensures Lev(a, b) == 0 <==> a == b
  {
    KeepAllIsFree(a);
    LevIsLeast(KeepAll(a));
    var es := LevAchieved(a, b);
    if Lev(a, b) == 0 { FreeScriptKeeps(es); }
  }

  // ---------------------------------------------------------------- The one-row table

  /** Cells lo to hi of the row hold row i of the table. */
  ghost predicate HoldsRow(row: seq<nat>, a: Text, b: Text, i: nat, lo: nat, hi: nat)
    requires i <= |a| && |row| == |b| + 1 && hi <= |row|
  {
    forall k :: lo <= k < hi ==> row[k] == Table(a, b, i, k)
  }

  lemma FirstCell(a: Text, b: Text, i: nat)
    requires i <= |a|
    ensures Table(a, b, i, 0) == i
  {
  }

  lemma NextCell(a: Text, b: Text, i: nat, j: nat)
    requires 1 <= i <= |a| && 1 <= j <= |b|
    ensures Table(a, b, i, j)
         == Min3(Table(a, b, i - 1, j) + 1, Table(a, b, i, j - 1) + 1,
                 Table(a, b, i - 1, j - 1) + if a[i - 1] == b[j - 1] then 0 else 1)
  {
  }

  /** The inner loop: overwrites row i - 1 with row i, left to right. */
  method NextRow(row: array<nat>, a: Text, b: Text, i: nat)
    requires 1 <= i <= |a| && row.Length == |b| + 1
    requires HoldsRow(row[..], a, b, i - 1, 0, |b| + 1)
    modifies row
    ensures HoldsRow(row[..], a, b, i, 0, |b| + 1)
  {
    hide Table, Min3;
    FirstCell(a, b, i);
    var previous := row[0];
    row[0] := i;
    for j := 1 to |b| + 1
      invariant previous == Table(a, b, i - 1, j - 1)
      invariant HoldsRow(row[..], a, b, i, 0, j)
      invariant HoldsRow(row[..], a, b, i - 1, j, |b| + 1)
    {
      var current := row[j];
      NextCell(a, b, i, j);
      row[j] := Min3(current + 1, row[j - 1] + 1, previous + if a[i - 1] == b[j - 1] then 0 else 1);
      previous := current;
    }
  }

  method Distance(a: Text, b: Text) returns (d: nat)
    ensures IsDistance(a, b, d)
    ensures d == Lev(a, b)
  {
    var row := new nat[|b| + 1](i => i);
    for i := 1 to |a| + 1
      invariant HoldsRow(row[..], a, b, i - 1, 0, |b| + 1)
    {
      NextRow(row, a, b, i);
    }
    LevIsDistance(a, b);
    return row[|b|];
  }

  // ---------------------------------------------------------------- The suggestion

  /** A typo is likely up to two edits, or a third of the input. */
  function Threshold(input: Text): nat {
    if |input| / 3 > 2 then |input| / 3 else 2
  }

  /** Candidate k is at the least distance of all, and none before it is as close. */
  ghost predicate EarliestClosest(input: Text, candidates: seq<Text>, k: nat) {
    && k < |candidates|
    && (forall j :: 0 <= j < |candidates| ==> Lev(input, candidates[k]) <= Lev(input, candidates[j]))
    && (forall j :: 0 <= j < k ==> Lev(input, candidates[k]) < Lev(input, candidates[j]))
  }

  method Suggest(input: Text, candidates: seq<Text>) returns (suggestion: Option<Text>)
    ensures suggestion.Some? ==>
              exists k: nat :: EarliestClosest(input, candidates, k) && suggestion.value == candidates[k]
    ensures suggestion.Some? <==> exists c :: c in candidates && (Lev(input, c) <= 2 || Lev(input, c) <= |input| / 3)
  {
    var best: Option<Text> := None;
    var bestDistance: Option<nat> := None; // None is Infinity
    ghost var bestAt: nat := 0;
    for i := 0 to |candidates|
      invariant best.None? <==> bestDistance.None?
      invariant best.None? <==> i == 0
      invariant i > 0 ==> && EarliestClosest(input, candidates[..i], bestAt)
                          && best == Some(candidates[bestAt])
                          && bestDistance == Some(Lev(input, candidates[bestAt]))
    {
      var d := Distance(input, candidates[i]);
      if bestDistance.None? || d < bestDistance.value {
        best, bestDistance := Some(candidates[i]), Some(d);
        bestAt := i;
      }
    }
    assert candidates[..|candidates|] == candidates;
    if bestDistance.Some? && bestDistance.value <= Threshold(input) {
      assert best.value in candidates;
      return best;
    }
    return None;
  }

  /** The suggestion is unique: the contract of Suggest leaves no choice. */
  lemma OneEarliestClosest(input: Text, candidates: seq<Text>, j: nat, k: nat)
    requires EarliestClosest(input, candidates, j) && EarliestClosest(input, candidates, k)
    ensures j == k
  {
    assert Lev(input, candidates[j]) == Lev(input, candidates[k]);
  }
}
