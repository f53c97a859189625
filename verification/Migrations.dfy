/**
 * A site's migrations, applied in name order, each in one batch with its record.
 *
 * What SQL does is a function of the database's content and the statements; a
 * batch that fails changes nothing. Any call to the site host may also fail, before
 * it takes effect or after.
 */
module Migrations {
  import opened Wrappers
  import SqlSplit

  datatype Migration = Migration(name: string, sql: string)

  /** The site's own tables, and the migrations recorded with the time they were applied. */
  datatype Database<C> = Database(content: C, records: map<string, int>)

  /** Runs statements, or fails as a whole. */
  type Sql<!C> = (C, seq<string>) -> Option<C>

  /** How a call to the site host goes wrong: it has no effect, or it has one and the answer is lost. */
  datatype Fault = NoFault | Refused | AnswerLost

  /** What becomes of the calls to the site host, by number. */
  type Outages = nat -> Fault

  datatype Outcome =
    | Applied(applied: seq<string>)
    | MigrationFailed(migration: string, applied: seq<string>)
    | HostFailed

  // ---------------------------------------------------------------- Name order

  function Less(a: string, b: string): bool {
    b != [] && (a == [] || a[0] < b[0] || (a[0] == b[0] && Less(a[1..], b[1..])))
  }

  ghost predicate Sorted(ms: seq<Migration>) {
    forall i, j :: 0 <= i < j < |ms| ==> !Less(ms[j].name, ms[i].name)
  }

  ghost predicate Distinct(ms: seq<Migration>) {
    forall i, j :: 0 <= i < j < |ms| ==> ms[i].name != ms[j].name
  }

  /** At the first difference the smaller character comes first, and a text comes before one that goes on after it. */
  lemma {:induction false} LessIff(a: string, b: string)
    ensures Less(a, b) <==> exists k :: 0 <= k <= |a| && DiffersAt(a, b, k)
    decreases |a|
  {
    if a == [] {
      assert b != [] ==> DiffersAt(a, b, 0);
    } else if b == [] {
    } else if a[0] != b[0] {
      assert a[0] < b[0] ==> DiffersAt(a, b, 0);
      forall k | 1 <= k <= |a| && k < |b|
        ensures a[..k] != b[..k]
      {
        assert a[..k][0] != b[..k][0];
      }
    } else {
      LessIff(a[1..], b[1..]);
      assert Less(a, b) == Less(a[1..], b[1..]);
      hide Less, DiffersAt;
      if k :| 0 <= k <= |a| - 1 && DiffersAt(a[1..], b[1..], k) { DiffersLater(a, b, k + 1); }
      if k :| 0 <= k <= |a| && DiffersAt(a, b, k) { DiffersLater(a, b, k); }
    }
  }

  lemma DiffersLater(a: string, b: string, k: int)
    requires a != [] && b != [] && a[0] == b[0] && 0 <= k <= |a|
    ensures DiffersAt(a, b, k) <==> k > 0 && DiffersAt(a[1..], b[1..], k - 1)
  {
    if 0 < k < |b| {
      assert a[..k][1..] == a[1..][..k - 1] && b[..k][1..] == b[1..][..k - 1];
      assert a[..k] == [a[0]] + a[1..][..k - 1] && b[..k] == [b[0]] + b[1..][..k - 1];
    }
  }

  ghost predicate DiffersAt(a: string, b: string, k: int)
    requires 0 <= k <= |a|
  {
    k < |b| && a[..k] == b[..k] && (k == |a| || a[k] < b[k])
  }

  lemma {:induction false} LessIsTotal(a: string, b: string)
    ensures Less(a, b) || Less(b, a) || a == b
    decreases |a|
  {
    if a != [] && b != [] && a[0] == b[0] {
      LessIsTotal(a[1..], b[1..]);
      assert a == [a[0]] + a[1..] && b == [b[0]] + b[1..];
    }
  }

  lemma {:induction false} LessIsTransitive(a: string, b: string, c: string)
    requires !Less(b, a) && !Less(c, b)
    ensures !Less(c, a)
    decreases |a|
  {
    if a != [] && b != [] && c != [] && a[0] == b[0] == c[0] {
      LessIsTransitive(a[1..], b[1..], c[1..]);
    }
  }

  function Insert(m: Migration, ms: seq<Migration>): (r: seq<Migration>)
    ensures multiset(r) == multiset([m] + ms)
    ensures forall x :: x in r <==> x == m || x in ms
  {
    if ms == [] || Less(m.name, ms[0].name) then [m] + ms
    else
      assert ms == [ms[0]] + ms[1..];
      [ms[0]] + Insert(m, ms[1..])
  }

  /** Stands for the library's sort by name. */
  function SortByName(ms: seq<Migration>): (r: seq<Migration>)
    ensures multiset(r) == multiset(ms)
  {
    if ms == [] then []
    else
      assert ms == [ms[0]] + ms[1..];
      Insert(ms[0], SortByName(ms[1..]))
  }

  lemma {:induction false} InsertSorts(m: Migration, ms: seq<Migration>)
    requires Sorted(ms)
    ensures Sorted(Insert(m, ms))
    decreases |ms|
  {
    if ms == [] {
    } else {
      LessIsTotal(m.name, ms[0].name);
      if Less(m.name, ms[0].name) {
        forall j | 0 <= j < |ms| ensures !Less(ms[j].name, m.name) {
          LessIsAsymmetric(m.name, ms[0].name);
          if j > 0 { LessIsTransitive(m.name, ms[0].name, ms[j].name); }
        }
      } else {
        InsertSorts(m, ms[1..]);
        assert forall x :: x in Insert(m, ms[1..]) ==> !Less(x.name, ms[0].name);
      }
    }
  }

  lemma {:induction false} LessIsAsymmetric(a: string, b: string)
    requires Less(a, b)
    ensures !Less(b, a)
    decreases |a|
  {
    if a != [] && a[0] == b[0] { LessIsAsymmetric(a[1..], b[1..]); }
  }

  lemma {:induction false} SortByNameSorts(ms: seq<Migration>)
    ensures Sorted(SortByName(ms))
    decreases |ms|
  {
    if ms == [] {
    } else {
      SortByNameSorts(ms[1..]);
      InsertSorts(ms[0], SortByName(ms[1..]));
    }
  }

  // ---------------------------------------------------------------- A run, as a function

  /** One migration's statements and its record, together or not at all. */
  function Batch<C>(db: Database<C>, m: Migration, now: int, exec: Sql<C>): Option<Database<C>> {
    if m.name in db.records then None // the record's primary key
    else
      match exec(db.content, SqlSplit.Split(m.sql))
      case None => None
      case Some(content) => Some(Database(content, db.records[m.name := now]))
  }

  /** A batch sent to the host: what the database is afterwards, and whether the caller hears that it went well. */
  function Attempt<C>(db: Database<C>, m: Migration, now: int, exec: Sql<C>, fault: Fault): (Database<C>, bool) {
    match Batch(db, m, now, exec)
    case None => (db, false)
    case Some(db') => (if fault.Refused? then db else db', fault.NoFault?)
  }

  function Prepend(name: string, o: Outcome): Outcome {
    match o
    case Applied(names) => Applied([name] + names)
    case MigrationFailed(at, names) => MigrationFailed(at, [name] + names)
    case HostFailed => HostFailed
  }

  /** The loop over the sorted migrations, from call number `call` on. */
  function Run<C>(db: Database<C>, ms: seq<Migration>, done: set<string>, now: int, exec: Sql<C>, down: Outages, call: nat)
    : (Database<C>, Outcome)
    decreases |ms|
  {
    if ms == [] then (db, Applied([]))
    else if ms[0].name in done then Run(db, ms[1..], done, now, exec, down, call)
    else
      var (db', ok) := Attempt(db, ms[0], now, exec, down(call));
      if !ok then (db', MigrationFailed(ms[0].name, []))
      else
        var (final, o) := Run(db', ms[1..], done, now, exec, down, call + 1);
        (final, Prepend(ms[0].name, o))
  }

  function Apply<C>(db: Database<C>, ms: seq<Migration>, now: int, exec: Sql<C>, down: Outages): (Database<C>, Outcome) {
    if !down(0).NoFault? then (db, HostFailed) else Run(db, SortByName(ms), db.records.Keys, now, exec, down, 1)
  }

  // ---------------------------------------------------------------- The runner

  class SiteHost<C> {
    var db: Database<C>
    var calls: nat
    const exec: Sql<C>
    const down: Outages

    constructor (db: Database<C>, exec: Sql<C>, down: Outages)
      ensures this.db == db && this.calls == 0 && this.exec == exec && this.down == down
    {
      this.db, this.calls, this.exec, this.down := db, 0, exec, down;
    }

    /** Reads the recorded names. */
    method Recorded() returns (names: Option<set<string>>)
      modifies this`calls
      ensures calls == old(calls) + 1
      ensures names == if down(old(calls)).NoFault? then Some(db.records.Keys) else None
    {
      names := if down(calls).NoFault? then Some(db.records.Keys) else None;
      calls := calls + 1;
    }

    method BatchSql(m: Migration, statements: seq<string>, now: int) returns (ok: bool)
      requires statements == SqlSplit.Split(m.sql)
      modifies this
      ensures calls == old(calls) + 1
      ensures (db, ok) == Attempt(old(db), m, now, exec, down(old(calls)))
    {
      ok := false;
      if !down(calls).Refused? && m.name !in db.records {
        var content := exec(db.content, statements);
        if content.Some? {
          db := Database(content.value, db.records[m.name := now]);
          ok := down(calls).NoFault?;
        }
      }
      calls := calls + 1;
    }
  }

  /** What a run has applied so far, followed by the rest of it. */
  function Continue(applied: seq<string>, o: Outcome): Outcome {
    match o
    case Applied(names) => Applied(applied + names)
    case MigrationFailed(at, names) => MigrationFailed(at, applied + names)
    case HostFailed => HostFailed
  }

  lemma ContinuePrepend(applied: seq<string>, name: string, o: Outcome)
    ensures Continue(applied, Prepend(name, o)) == Continue(applied + [name], o)
  {
    if !o.HostFailed? { assert applied + ([name] + o.applied) == applied + [name] + o.applied; }
  }

  method ApplyMigrations<C>(host: SiteHost<C>, migrations: seq<Migration>, now: int) returns (outcome: Outcome)
    requires host.calls == 0
    modifies host
    ensures (host.db, outcome) == Apply(old(host.db), migrations, now, host.exec, host.down)
  {
    hide SqlSplit.Split, Less, SortByName;
    var names := host.Recorded();
    if names.None? {
      return HostFailed;
    }
    var done, applied := names.value, [];
    var sorted := SortByName(migrations);
    ghost var (db', o) := Run(host.db, sorted, done, now, host.exec, host.down, 1);
    for k := 0 to |sorted|
      invariant var (rest, o') := Run(host.db, sorted[k..], done, now, host.exec, host.down, host.calls);
                rest == db' && o == Continue(applied, o')
    {
      var migration := sorted[k];
      assert sorted[k..][0] == migration && sorted[k..][1..] == sorted[k + 1..];
      if migration.name in done {
        continue;
      }
      var statements := SqlSplit.SplitSql(migration.sql);
      var ok := host.BatchSql(migration, statements, now);
      if !ok {
        assert applied + [] == applied;
        return MigrationFailed(migration.name, applied);
      }
      ContinuePrepend(applied, migration.name, Run(host.db, sorted[k + 1..], done, now, host.exec, host.down, host.calls).1);
      applied := applied + [migration.name];
    }
    assert applied + [] == applied;
    return Applied(applied);
  }

  // ---------------------------------------------------------------- What a run leaves behind

  function Pending(ms: seq<Migration>, done: set<string>): seq<Migration> {
    if ms == [] then []
    else (if ms[0].name in done then [] else [ms[0]]) + Pending(ms[1..], done)
  }

  function Names(ms: seq<Migration>): seq<string> {
    seq(|ms|, i requires 0 <= i < |ms| => ms[i].name)
  }

  /** The batches of ms, one after the other. */
  function Replay<C>(db: Database<C>, ms: seq<Migration>, now: int, exec: Sql<C>): Option<Database<C>>
    decreases |ms|
  {
    if ms == [] then Some(db)
    else
      match Batch(db, ms[0], now, exec)
      case None => None
      case Some(db') => Replay(db', ms[1..], now, exec)
  }

  /** The pending migration at which a run failed was applied all the same: its answer was lost. */
  predicate LostAt<C>(db: Database<C>, m: Migration, now: int, exec: Sql<C>, fault: Fault) {
    fault.AnswerLost? && Batch(db, m, now, exec).Some?
  }

  /**
   * A run ends at k, with `before` the database its first k migrations make: those are
   * applied and recorded, in order, and reported; the one it failed at is applied and
   * recorded too, unreported, if and only if its batch went through and its answer was lost.
   */
  ghost predicate EndsAt<C>(db: Database<C>, ms: seq<Migration>, done: set<string>, now: int, exec: Sql<C>, down: Outages,
                            call: nat, k: nat, before: Database<C>)
  {
    && k <= |ms|
    && var (db', o), pending := Run(db, ms, done, now, exec, down, call), Pending(ms[..k], done);
    && Some(before) == Replay(db, pending, now, exec)
    && !o.HostFailed? && o.applied == Names(pending)
    && if o.Applied? then k == |ms| && db' == before
       else k < |ms| && FailsAt(ms[k], done, o.migration, now, exec, down(call + |pending|), before, db')
  }

  ghost predicate FailsAt<C>(m: Migration, done: set<string>, reported: string, now: int, exec: Sql<C>, fault: Fault,
                             before: Database<C>, db': Database<C>)
  {
    && m.name == reported && m.name !in done
    && if LostAt(before, m, now, exec, fault) then Some(db') == Batch(before, m, now, exec) else db' == before
  }

  lemma {:induction false} ExactlyThoseBefore<C>(db: Database<C>, ms: seq<Migration>, done: set<string>, now: int,
                                                 exec: Sql<C>, down: Outages, call: nat) returns (k: nat, before: Database<C>)
    ensures EndsAt(db, ms, done, now, exec, down, call, k, before)
    decreases |ms|
  {
    hide EndsAt;
    if ms == [] {
      EndsNow(db, ms, done, now, exec, down, call);
      return 0, db;
    } else if ms[0].name in done {
      k, before := ExactlyThoseBefore(db, ms[1..], done, now, exec, down, call);
      EndsOnePast(db, ms, done, now, exec, down, call, k, before);
      k := k + 1;
    } else {
      var (db', ok) := Attempt(db, ms[0], now, exec, down(call));
      if !ok {
        EndsNow(db, ms, done, now, exec, down, call);
        return 0, db;
      }
      k, before := ExactlyThoseBefore(db', ms[1..], done, now, exec, down, call + 1);
      EndsOneLater(db, ms, done, now, exec, down, call, k, before);
      k := k + 1;
    }
  }

  lemma EndsNow<C>(db: Database<C>, ms: seq<Migration>, done: set<string>, now: int, exec: Sql<C>, down: Outages, call: nat)
    requires ms != [] ==> ms[0].name !in done && !Attempt(db, ms[0], now, exec, down(call)).1
    ensures EndsAt(db, ms, done, now, exec, down, call, 0, db)
  {
    assert Names([]) == [] && Pending(ms[..0], done) == [];
    hide Names, Pending;
  }

  lemma RunOnePast<C>(db: Database<C>, ms: seq<Migration>, done: set<string>, now: int, exec: Sql<C>, down: Outages, call: nat)
    requires ms != []
    ensures ms[0].name in done ==>
              Run(db, ms, done, now, exec, down, call) == Run(db, ms[1..], done, now, exec, down, call)
    ensures ms[0].name !in done && Attempt(db, ms[0], now, exec, down(call)).1 ==>
              var db' := Attempt(db, ms[0], now, exec, down(call)).0;
              && Batch(db, ms[0], now, exec) == Some(db')
              && var (final, o) := Run(db', ms[1..], done, now, exec, down, call + 1);
                 Run(db, ms, done, now, exec, down, call) == (final, Prepend(ms[0].name, o))
  {
    hide SqlSplit.Split;
  }

  lemma EndsOnePast<C>(db: Database<C>, ms: seq<Migration>, done: set<string>, now: int, exec: Sql<C>, down: Outages,
                       call: nat, k: nat, before: Database<C>)
    requires ms != [] && ms[0].name in done && EndsAt(db, ms[1..], done, now, exec, down, call, k, before)
    ensures EndsAt(db, ms, done, now, exec, down, call, k + 1, before)
  {
    hide Run, FailsAt, Replay, Pending, Names, Attempt, Batch;
    RunOnePast(db, ms, done, now, exec, down, call);
    PendingOneMore(ms, done, k);
  }

  lemma EndsOneLater<C>(db: Database<C>, ms: seq<Migration>, done: set<string>, now: int, exec: Sql<C>, down: Outages,
                        call: nat, k: nat, before: Database<C>)
    requires ms != [] && ms[0].name !in done && Attempt(db, ms[0], now, exec, down(call)).1
    requires EndsAt(Attempt(db, ms[0], now, exec, down(call)).0, ms[1..], done, now, exec, down, call + 1, k, before)
    ensures EndsAt(db, ms, done, now, exec, down, call, k + 1, before)
  {
    hide Run, FailsAt, Replay, Pending, Names, Attempt, Batch;
    RunOnePast(db, ms, done, now, exec, down, call);
    PendingOneMore(ms, done, k);
    var tail := Pending(ms[1..][..k], done);
    ReplayOneMore(db, Attempt(db, ms[0], now, exec, down(call)).0, ms[0], tail, now, exec);
    var o := Run(db, ms, done, now, exec, down, call).1;
    assert o == Prepend(ms[0].name, Run(Attempt(db, ms[0], now, exec, down(call)).0, ms[1..], done, now, exec, down, call + 1).1);
    assert !o.HostFailed? && o.applied == Names([ms[0]] + tail);
    assert call + |[ms[0]] + tail| == call + 1 + |tail|;
  }

  lemma ReplayOneMore<C>(db: Database<C>, db': Database<C>, m: Migration, tail: seq<Migration>, now: int, exec: Sql<C>)
    requires Batch(db, m, now, exec) == Some(db')
    ensures Replay(db, [m] + tail, now, exec) == Replay(db', tail, now, exec)
  {
    assert ([m] + tail)[1..] == tail;
    hide Batch;
  }

  /** Any migration that goes through can be reported as failed, when its answer is lost, and be applied and recorded. */
  lemma FailedButApplied<C>(db: Database<C>, m: Migration, now: int, exec: Sql<C>) returns (down: Outages)
    requires Batch(db, m, now, exec).Some?
    ensures Apply(db, [m], now, exec, down) == (Batch(db, m, now, exec).value, MigrationFailed(m.name, []))
    ensures m.name in Batch(db, m, now, exec).value.records
  {
    hide SqlSplit.Split;
    down := call => if call == 1 then AnswerLost else NoFault;
    assert [m][1..] == [] && Insert(m, []) == [m];
    assert SortByName([m]) == [m];
  }

  lemma NamesOneMore(m: Migration, ms: seq<Migration>)
    ensures Names([m] + ms) == [m.name] + Names(ms)
  {
  }

  lemma PendingOneMore(ms: seq<Migration>, done: set<string>, k: nat)
    requires ms != [] && k <= |ms[1..]|
    ensures var tail := Pending(ms[1..][..k], done);
            && Pending(ms[..k + 1], done) == (if ms[0].name in done then tail else [ms[0]] + tail)
            && Names([ms[0]] + tail) == [ms[0].name] + Names(tail)
  {
    NamesOneMore(ms[0], Pending(ms[1..][..k], done));
    hide Names;
    var p := ms[..k + 1];
    assert p[0] == ms[0] && p[1..] == ms[1..][..k];
    var tail := Pending(p[1..], done);
    assert Pending(p, done) == (if p[0].name in done then [] else [p[0]]) + tail;
  }

  /** The same tables and the same recorded names, whenever they were recorded. */
  ghost predicate SameDatabase<C>(a: Database<C>, b: Database<C>) {
    a.content == b.content && a.records.Keys == b.records.Keys
  }

  /** For these migrations, being in the set is being recorded. */
  ghost predicate Agrees<C>(done: set<string>, db: Database<C>, ms: seq<Migration>) {
    forall m :: m in ms ==> (m.name in done <==> m.name in db.records)
  }

  ghost predicate Never(down: Outages) {
    forall call :: down(call).NoFault?
  }

  /** A run does not depend on when earlier migrations were recorded, nor on the call numbers when no call fails. */
  lemma {:induction false} RunIgnoresTimes<C>(a: Database<C>, b: Database<C>, ms: seq<Migration>, doneA: set<string>,
                                              doneB: set<string>, nowA: int, nowB: int, exec: Sql<C>, up: Outages,
                                              callA: nat, callB: nat)
    requires SameDatabase(a, b) && Never(up)
    requires forall m :: m in ms ==> (m.name in doneA <==> m.name in doneB)
    ensures var (a', oA) := Run(a, ms, doneA, nowA, exec, up, callA);
            var (b', oB) := Run(b, ms, doneB, nowB, exec, up, callB);
            SameDatabase(a', b') && oA == oB
    decreases |ms|
  {
    if ms == [] {
    } else {
      assert ms[0] in ms && forall m :: m in ms[1..] ==> m in ms;
      var skip := ms[0].name in doneA;
      var a' := if skip then Some(a) else Batch(a, ms[0], nowA, exec);
      var b' := if skip then Some(b) else Batch(b, ms[0], nowB, exec);
      if a'.Some? {
        RunIgnoresTimes(a'.value, b'.value, ms[1..], doneA, doneB, nowA, nowB, exec, up,
                        if skip then callA else callA + 1, if skip then callB else callB + 1);
      }
    }
  }

  lemma {:induction false} RecordsGrow<C>(db: Database<C>, ms: seq<Migration>, done: set<string>, now: int, exec: Sql<C>,
                                          down: Outages, call: nat)
    ensures db.records.Keys <= Run(db, ms, done, now, exec, down, call).0.records.Keys
    decreases |ms|
  {
    if ms == [] {
    } else {
      if ms[0].name in done {
        RecordsGrow(db, ms[1..], done, now, exec, down, call);
      } else {
        var (db', ok) := Attempt(db, ms[0], now, exec, down(call));
        if ok { RecordsGrow(db', ms[1..], done, now, exec, down, call + 1); }
      }
    }
  }

  lemma DistinctTail(ms: seq<Migration>)
    requires Distinct(ms) && ms != []
    ensures Distinct(ms[1..]) && forall m :: m in ms[1..] ==> m.name != ms[0].name && m in ms
  {
    forall m | m in ms[1..] ensures m.name != ms[0].name && m in ms {
      var i :| 0 <= i < |ms[1..]| && ms[1..][i] == m;
      assert ms[i + 1] == m;
    }
  }

  /** The migration a run failed at, if it is recorded all the same. */
  function Unreported<C>(db: Database<C>, o: Outcome): seq<string> {
    if o.MigrationFailed? && o.migration in db.records then [o.migration] else []
  }

  /** What two runs, the second from what the first left, come to together. */
  ghost predicate MadeGood<C>(db1: Database<C>, o1: Outcome, db2: Database<C>, o2: Outcome, db': Database<C>, o: Outcome) {
    SameDatabase(db2, db') && !o1.HostFailed? && o == Continue(o1.applied + Unreported(db1, o1), o2)
  }

  /**
   * Migrations resume. Run once with any outages, and again from what that left with
   * none: the same database as one undisturbed run, with no migration applied twice
   * or left out. Each is reported by one of the two, but for one whose answer was lost.
   */
  lemma {:induction false} RunResumes<C>(db: Database<C>, ms: seq<Migration>, done: set<string>, exec: Sql<C>,
                                         down: Outages, up: Outages, call: nat, now1: int, now2: int, now: int)
    requires Distinct(ms) && Agrees(done, db, ms) && Never(up)
    ensures var (db1, o1) := Run(db, ms, done, now1, exec, down, call);
            var (db2, o2) := Run(db1, ms, db1.records.Keys, now2, exec, up, 0);
            var (db', o) := Run(db, ms, done, now, exec, up, 0);
            MadeGood(db1, o1, db2, o2, db', o)
    decreases |ms|
  {
    if ms == [] {
    } else {
      DistinctTail(ms);
      assert ms[0] in ms;
      var m := ms[0];
      if m.name in done {
        RunResumes(db, ms[1..], done, exec, down, up, call, now1, now2, now);
        RecordsGrow(db, ms[1..], done, now1, exec, down, call);
      } else if Attempt(db, m, now1, exec, down(call)).1 {
        AfterFirst(db, ms, done, exec, down, up, call, now1, now2, now);
      } else if LostAt(db, m, now1, exec, down(call)) {
        AfterLost(db, ms, done, exec, down, up, call, now1, now2, now);
      } else {
        RunIgnoresTimes(db, db, ms, db.records.Keys, done, now2, now, exec, up, 0, 0);
        var o := Run(db, ms, db.records.Keys, now2, exec, up, 0).1;
        RunNeverLosesTheHost(db, ms, db.records.Keys, now2, exec, up, 0);
        assert [] + [] + o.applied == o.applied;
      }
    }
  }

  lemma {:induction false} RunNeverLosesTheHost<C>(db: Database<C>, ms: seq<Migration>, done: set<string>, now: int,
                                                   exec: Sql<C>, down: Outages, call: nat)
    ensures !Run(db, ms, done, now, exec, down, call).1.HostFailed?
    decreases |ms|
  {
    var k, before := ExactlyThoseBefore(db, ms, done, now, exec, down, call);
  }

  /** The first run's first batch goes through and is reported. */
  lemma {:induction false} AfterFirst<C>(db: Database<C>, ms: seq<Migration>, done: set<string>, exec: Sql<C>,
                                         down: Outages, up: Outages, call: nat, now1: int, now2: int, now: int)
    requires Distinct(ms) && Agrees(done, db, ms) && Never(up)
    requires ms != [] && ms[0].name !in done && Attempt(db, ms[0], now1, exec, down(call)).1
    ensures var (db1, o1) := Run(db, ms, done, now1, exec, down, call);
            var (db2, o2) := Run(db1, ms, db1.records.Keys, now2, exec, up, 0);
            var (db', o) := Run(db, ms, done, now, exec, up, 0);
            MadeGood(db1, o1, db2, o2, db', o)
    decreases |ms|, 0
  {
    DistinctTail(ms);
    var m, rest := ms[0], ms[1..];
    var a := Batch(db, m, now1, exec).value;
    var b := Batch(db, m, now, exec).value;
    var (db1, o1) := Run(a, rest, done, now1, exec, down, call + 1);
    RecordsGrow(a, rest, done, now1, exec, down, call + 1);
    assert Run(db1, ms, db1.records.Keys, now2, exec, up, 0) == Run(db1, rest, db1.records.Keys, now2, exec, up, 0);
    RunResumes(a, rest, done, exec, down, up, call + 1, now1, now2, now);
    RunIgnoresTimes(a, b, rest, done, done, now, now, exec, up, 0, 1);
    var o := Run(b, rest, done, now, exec, up, 1).1;
    var o2 := Run(db1, rest, db1.records.Keys, now2, exec, up, 0).1;
    assert o == Continue(o1.applied + Unreported(db1, o1), o2);
    PrependMore(m.name, o1.applied, Unreported(db1, o1), o2);
  }

  lemma PrependMore(name: string, applied: seq<string>, lost: seq<string>, o: Outcome)
    ensures Prepend(name, Continue(applied + lost, o)) == Continue([name] + applied + lost, o)
  {
    if !o.HostFailed? { assert [name] + (applied + lost + o.applied) == [name] + applied + lost + o.applied; }
  }

  /** The first run's first batch goes through and its answer is lost: the second run finds it recorded. */
  lemma AfterLost<C>(db: Database<C>, ms: seq<Migration>, done: set<string>, exec: Sql<C>,
                     down: Outages, up: Outages, call: nat, now1: int, now2: int, now: int)
    requires Distinct(ms) && Agrees(done, db, ms) && Never(up)
    requires ms != [] && ms[0].name !in done && LostAt(db, ms[0], now1, exec, down(call))
    ensures var (db1, o1) := Run(db, ms, done, now1, exec, down, call);
            var (db2, o2) := Run(db1, ms, db1.records.Keys, now2, exec, up, 0);
            var (db', o) := Run(db, ms, done, now, exec, up, 0);
            MadeGood(db1, o1, db2, o2, db', o)
  {
    DistinctTail(ms);
    var m, rest := ms[0], ms[1..];
    var a := Batch(db, m, now1, exec).value;
    var b := Batch(db, m, now, exec).value;
    assert Run(db, ms, done, now1, exec, down, call) == (a, MigrationFailed(m.name, []));
    assert Run(a, ms, a.records.Keys, now2, exec, up, 0) == Run(a, rest, a.records.Keys, now2, exec, up, 0);
    RunIgnoresTimes(a, b, rest, a.records.Keys, done, now2, now, exec, up, 0, 1);
    assert [] + [m.name] == [m.name];
  }

  // ---------------------------------------------------------------- Whole runs

  lemma DistinctByCount(ms: seq<Migration>)
    requires Distinct(ms)
    ensures forall m :: multiset(ms)[m] <= 1
    ensures forall m, n :: m in ms && n in ms && m.name == n.name ==> m == n
    decreases |ms|
  {
    if ms != [] {
      DistinctTail(ms);
      DistinctByCount(ms[1..]);
      assert ms == [ms[0]] + ms[1..];
    }
  }

  lemma SortedStaysDistinct(ms: seq<Migration>)
    requires Distinct(ms)
    ensures Distinct(SortByName(ms)) && SameMigrations(SortByName(ms), ms)
  {
    var sorted := SortByName(ms);
    DistinctByCount(ms);
    hide SortByName;
    forall m ensures m in sorted <==> m in ms {
      assert m in multiset(sorted) <==> m in multiset(ms);
    }
    forall i, j | 0 <= i < j < |sorted| ensures sorted[i].name != sorted[j].name {
      assert sorted[i] in ms && sorted[j] in ms;
      if sorted[i] == sorted[j] {
        TwiceCounts(sorted, i, j);
      }
    }
  }

  lemma TwiceCounts(ms: seq<Migration>, i: nat, j: nat)
    requires i < j < |ms| && ms[i] == ms[j]
    ensures multiset(ms)[ms[i]] >= 2
  {
    assert ms == ms[..j] + ms[j..];
    assert ms[i] in ms[..j] && ms[j] in ms[j..];
  }

  ghost predicate SameMigrations(a: seq<Migration>, b: seq<Migration>) {
    forall m :: m in a <==> m in b
  }

  /** RunResumes, for the whole of applyMigrations: a first call that fails anywhere is made good by a second. */
  lemma Resumes<C>(db: Database<C>, ms: seq<Migration>, exec: Sql<C>, down: Outages, up: Outages, now1: int, now2: int,
                   now: int)
    requires Distinct(ms) && Never(up)
    ensures var (db1, o1) := Apply(db, ms, now1, exec, down);
            var (db2, o2) := Apply(db1, ms, now2, exec, up);
            var (db', o) := Apply(db, ms, now, exec, up);
            if o1.HostFailed? then SameDatabase(db2, db') && o == o2 else MadeGood(db1, o1, db2, o2, db', o)
  {
    var sorted := SortByName(ms);
    SortedStaysDistinct(ms);
    if !down(0).NoFault? {
      RunIgnoresTimes(db, db, sorted, db.records.Keys, db.records.Keys, now2, now, exec, up, 1, 1);
    } else {
      var db1 := Run(db, sorted, db.records.Keys, now1, exec, down, 1).0;
      RunResumes(db, sorted, db.records.Keys, exec, down, up, 1, now1, now2, now);
      RunIgnoresTimes(db, db, sorted, db.records.Keys, db.records.Keys, now, now, exec, up, 0, 1);
      RunIgnoresTimes(db1, db1, sorted, db1.records.Keys, db1.records.Keys, now2, now2, exec, up, 0, 1);
    }
  }

  lemma {:induction false} RunRecordsAll<C>(db: Database<C>, ms: seq<Migration>, done: set<string>, now: int, exec: Sql<C>,
                                            down: Outages, call: nat)
    requires done <= db.records.Keys && Run(db, ms, done, now, exec, down, call).1.Applied?
    ensures forall m :: m in ms ==> m.name in Run(db, ms, done, now, exec, down, call).0.records
    decreases |ms|
  {
    if ms == [] {
    } else {
      assert ms == [ms[0]] + ms[1..];
      var db' := if ms[0].name in done then db else Batch(db, ms[0], now, exec).value;
      var call' := if ms[0].name in done then call else call + 1;
      var (final, o) := Run(db', ms[1..], done, now, exec, down, call');
      RunRecordsAll(db', ms[1..], done, now, exec, down, call');
      RecordsGrow(db', ms[1..], done, now, exec, down, call');
    }
  }

  lemma {:induction false} NothingPending<C>(db: Database<C>, ms: seq<Migration>, now: int, exec: Sql<C>, down: Outages, call: nat)
    requires forall m :: m in ms ==> m.name in db.records
    ensures Run(db, ms, db.records.Keys, now, exec, down, call) == (db, Applied([]))
    decreases |ms|
  {
    if ms == [] {
    } else {
      assert ms[0] in ms && forall m :: m in ms[1..] ==> m in ms;
      NothingPending(db, ms[1..], now, exec, down, call);
    }
  }

  /** Once everything is applied, applying again changes nothing (or fails to reach the host, changing nothing). */
  lemma AgainAppliesNothing<C>(db: Database<C>, ms: seq<Migration>, now: int, now': int, exec: Sql<C>, down: Outages,
                               down': Outages)
    requires Apply(db, ms, now, exec, down).1.Applied?
    ensures var db1 := Apply(db, ms, now, exec, down).0;
            Apply(db1, ms, now', exec, down') == (db1, if down'(0).NoFault? then Applied([]) else HostFailed)
  {
    var db1 := Apply(db, ms, now, exec, down).0;
    RunRecordsAll(db, SortByName(ms), db.records.Keys, now, exec, down, 1);
    NothingPending(db1, SortByName(ms), now', exec, down', 1);
  }

  // ---------------------------------------------------------------- Names given twice

  /** No name is given twice, but for those already recorded. */
  ghost predicate NoneTwice(ms: seq<Migration>, done: set<string>)
    decreases |ms|
  {
    ms != [] ==> NotAmong(ms[0], ms[1..], done) && NoneTwice(ms[1..], done)
  }

  ghost predicate NotAmong(m: Migration, ms: seq<Migration>, done: set<string>) {
    m.name in done || forall other :: other in ms ==> other.name != m.name
  }

  lemma NoneTwiceMore(m: Migration, ms: seq<Migration>, done: set<string>)
    ensures NoneTwice([m] + ms, done) <==> NotAmong(m, ms, done) && NoneTwice(ms, done)
  {
    assert ([m] + ms)[1..] == ms;
  }

  ghost predicate NeverFails<C(!new)>(exec: Sql<C>) {
    forall content: C, statements: seq<string> :: exec(content, statements).Some?
  }

  lemma {:induction false} InsertNoneTwice(m: Migration, ms: seq<Migration>, done: set<string>)
    ensures NoneTwice(Insert(m, ms), done) <==> NoneTwice([m] + ms, done)
    decreases |ms|
  {
    if ms == [] || Less(m.name, ms[0].name) {
    } else {
      var first, rest := ms[0], ms[1..];
      assert ms == [first] + rest && Insert(m, ms) == [first] + Insert(m, rest);
      InsertNoneTwice(m, rest, done);
      hide NoneTwice, Insert;
      NoneTwiceMore(first, Insert(m, rest), done);
      NoneTwiceMore(m, rest, done);
      NoneTwiceMore(m, ms, done);
      NoneTwiceMore(first, rest, done);
      NotAmongInserted(first, m, rest, done);
    }
  }

  lemma NotAmongInserted(first: Migration, m: Migration, rest: seq<Migration>, done: set<string>)
    ensures NotAmong(m, rest, done) ==>
              (NotAmong(first, Insert(m, rest), done) && NotAmong(m, rest, done) <==>
               NotAmong(m, [first] + rest, done) && NotAmong(first, rest, done))
    ensures !NotAmong(m, rest, done) ==> !NotAmong(m, [first] + rest, done)
  {
  }

  lemma {:induction false} SortNoneTwice(ms: seq<Migration>, done: set<string>)
    ensures NoneTwice(SortByName(ms), done) <==> NoneTwice(ms, done)
    decreases |ms|
  {
    if ms == [] {
    } else {
      var sorted := SortByName(ms[1..]);
      SortNoneTwice(ms[1..], done);
      assert ms == [ms[0]] + ms[1..];
      assert forall m :: m in sorted <==> m in multiset(sorted);
      assert forall m :: m in ms[1..] <==> m in multiset(ms[1..]);
      hide NoneTwice;
      InsertNoneTwice(ms[0], sorted, done);
      NoneTwiceMore(ms[0], sorted, done);
      NoneTwiceMore(ms[0], ms[1..], done);
    }
  }

  lemma {:induction false} RunAppliesIff<C(!new)>(db: Database<C>, ms: seq<Migration>, done: set<string>, now: int, exec: Sql<C>,
                                                  up: Outages, call: nat)
    requires Never(up) && NeverFails(exec) && done <= db.records.Keys
    ensures Run(db, ms, done, now, exec, up, call).1.Applied? <==>
              NoneTwice(ms, done) && forall m :: m in ms && m.name in db.records ==> m.name in done
    decreases |ms|
  {
    if ms == [] {
    } else {
      assert ms == [ms[0]] + ms[1..];
      if ms[0].name in done {
        RunAppliesIff(db, ms[1..], done, now, exec, up, call);
      } else if ms[0].name !in db.records {
        assert exec(db.content, SqlSplit.Split(ms[0].sql)).Some?;
        RunAppliesIff(Batch(db, ms[0], now, exec).value, ms[1..], done, now, exec, up, call + 1);
      }
    }
  }

  /**
   * When neither the host nor a statement fails, a call applies every migration if and
   * only if no name that is not recorded yet is given twice, in whatever order the
   * list comes: the second of the two finds the record's key taken.
   */
  lemma AppliesAllIff<C(!new)>(db: Database<C>, ms: seq<Migration>, now: int, exec: Sql<C>, up: Outages)
    requires Never(up) && NeverFails(exec)
    ensures Apply(db, ms, now, exec, up).1.Applied? <==> NoneTwice(ms, db.records.Keys)
  {
    RunAppliesIff(db, SortByName(ms), db.records.Keys, now, exec, up, 1);
    SortNoneTwice(ms, db.records.Keys);
  }
}
