/**
 * The Postgres job queue: rows of the jobs table, leases with tokens, retries,
 * and a dedupe key that is unique among queued rows only.
 *
 * One SQL statement is one atomic step. Times are milliseconds of the database's
 * clock; lease tokens are numbers, a fresh one for every call of `lease`.
 */
module JobQueue {
  import opened Wrappers

  type Token = nat

  datatype Status = Queued | Running | Done | Failed

  datatype Job = Job(
    kind: string,
    payload: string,
    status: Status,
    runAt: int,
    lockedUntil: Option<int>,
    leaseToken: Option<Token>,
    attempts: int,
    maxAttempts: int,
    dedupeKey: Option<string>,
    lastError: Option<string>,
    finishedAt: Option<int>)

  type Rows = map<nat, Job>

  datatype Table = Table(rows: Rows, nextId: nat)

  /** A leased job: its id, its row as it was when leased, and the token of that lease. */
  datatype Lease = Lease(id: nat, job: Job, token: Token)

  datatype Options = Options(
    kind: string,
    payload: string,
    runAt: Option<int>,
    delayMs: Option<int>,
    maxAttempts: int,
    dedupeKey: Option<string>,
    reschedule: bool)

  // ---------------------------------------------------------------- Statements

  predicate QueuedWith(rows: Rows, id: nat, key: string) {
    id in rows && rows[id].status == Queued && rows[id].dedupeKey == Some(key)
  }

  /** The queued job with this key. */
  ghost function FindQueued(rows: Rows, key: string): (found: Option<nat>)
    ensures found.Some? ==> QueuedWith(rows, found.value, key)
    ensures found.None? ==> forall id :: !QueuedWith(rows, id, key)
  {
    if id :| QueuedWith(rows, id, key) then Some(id) else None
  }

  function DueAt(o: Options, now: int): int {
    match o.delayMs
    case Some(delay) => now + delay
    case None => if o.runAt.Some? then o.runAt.value else now
  }

  function NewJob(o: Options, now: int): Job {
    Job(o.kind, o.payload, Queued, DueAt(o, now), None, None, 0, o.maxAttempts, o.dedupeKey, None, None)
  }

  /** The queued job the insert runs into, if any. */
  ghost function Conflict(rows: Rows, o: Options): Option<nat> {
    if o.dedupeKey.Some? then FindQueued(rows, o.dedupeKey.value) else None
  }

  /** `insert … on conflict`: a new row, the old one rescheduled, or the old one left as it is. */
  ghost function Insert(t: Table, o: Options, now: int): Table {
    match Conflict(t.rows, o)
    case None => Table(t.rows[t.nextId := NewJob(o, now)], t.nextId + 1)
    case Some(id) =>
      if o.reschedule then t.(rows := t.rows[id := t.rows[id].(runAt := DueAt(o, now))]) else t
  }

  /** The job that will do what the call asked for. */
  ghost function Carrier(t: Table, o: Options): nat {
    match Conflict(t.rows, o) case None => t.nextId case Some(id) => id
  }

  predicate Due(job: Job, kinds: set<string>, now: int) {
    && job.kind in kinds
    && ((job.status == Queued && job.runAt <= now)
        || (job.status == Running && job.lockedUntil.Some? && job.lockedUntil.value < now))
  }

  /** A result of the query of `lease`: up to `limit` due rows that nobody has locked, earliest first. */
  ghost predicate Picks(rows: Rows, kinds: set<string>, limit: nat, locked: set<nat>, now: int, picked: set<nat>) {
    var free := set id | id in rows && id !in locked && Due(rows[id], kinds, now);
    && picked <= free
    && |picked| == (if |free| < limit then |free| else limit)
    && forall p, q :: p in picked && q in free - picked ==> rows[p].runAt <= rows[q].runAt
  }

  function Leased(job: Job, token: Token, until: int): Job {
    job.(status := Running, leaseToken := Some(token), lockedUntil := Some(until), attempts := job.attempts + 1)
  }

  function LeaseRows(rows: Rows, picked: set<nat>, token: Token, until: int): Rows {
    map id | id in rows :: if id in picked then Leased(rows[id], token, until) else rows[id]
  }

  function LeasesOf(rows: Rows, picked: set<nat>, token: Token): set<Lease> {
    set id | id in picked && id in rows :: Lease(id, rows[id], token)
  }

  /** No later lease has taken the job, and it has not ended. */
  predicate Held(rows: Rows, lease: Lease) {
    && lease.id in rows
    && rows[lease.id].status == Running
    && rows[lease.id].leaseToken == Some(lease.token)
  }

  function CompletedJob(job: Job, now: int): Job {
    job.(status := Done, finishedAt := Some(now), lockedUntil := None, leaseToken := None)
  }

  predicate HasQueuedSibling(rows: Rows, id: nat) {
    id in rows && exists other :: other in rows && other != id
                   && rows[other].status == Queued && rows[id].dedupeKey.Some?
                   && rows[other].dedupeKey == rows[id].dedupeKey
  }

  /** Whether the attempt was the last one is read from the lease's snapshot, not from the row. */
  function FailedJob(rows: Rows, lease: Lease, error: string, delayMs: int, now: int): Job
    requires lease.id in rows
  {
    var job := rows[lease.id];
    if lease.job.attempts >= lease.job.maxAttempts then
      job.(status := Failed, finishedAt := Some(now), lastError := Some(error), lockedUntil := None, leaseToken := None)
    else
      job.(status := Queued, runAt := now + delayMs, lastError := Some(error), lockedUntil := None, leaseToken := None,
           dedupeKey := if HasQueuedSibling(rows, lease.id) then None else job.dedupeKey)
  }

  function Complete(rows: Rows, lease: Lease, now: int): Rows {
    if Held(rows, lease) then rows[lease.id := CompletedJob(rows[lease.id], now)] else rows
  }

  function Fail(rows: Rows, lease: Lease, error: string, delayMs: int, now: int): Rows {
    if Held(rows, lease) then rows[lease.id := FailedJob(rows, lease, error, delayMs, now)] else rows
  }

  function Extend(rows: Rows, lease: Lease, leaseMs: int, now: int): Rows {
    if Held(rows, lease) then rows[lease.id := rows[lease.id].(lockedUntil := Some(now + leaseMs))] else rows
  }

  // ---------------------------------------------------------------- The protocol

  /**
   * The table, the clock, every lease ever handed out, every token ever used,
   * and the requests still waiting: which job carries each, and under which key.
   */
  datatype State = State(table: Table, now: int, leases: set<Lease>, tokens: set<Token>, waiting: set<(nat, Option<string>)>) {
    function rows(): Rows { table.rows }
  }

  datatype Step =
    | Tick(now: int)
    | EnqueueStep(options: Options)
    | LeaseStep(kinds: set<string>, leaseMs: int, limit: nat, locked: set<nat>, picked: set<nat>, token: Token)
    | CompleteStep(lease: Lease)
    | FailStep(lease: Lease, error: string, delayMs: int)
    | ExtendStep(lease: Lease, leaseMs: int)

  ghost predicate Allowed(s: State, step: Step) {
    match step
    case Tick(now) => s.now <= now
    case EnqueueStep(_) => true
    case LeaseStep(kinds, _, limit, locked, picked, token) =>
      token !in s.tokens && Picks(s.rows(), kinds, limit, locked, s.now, picked)
    case CompleteStep(lease) => lease in s.leases
    case FailStep(lease, _, _) => lease in s.leases
    case ExtendStep(lease, _) => lease in s.leases
  }

  ghost function Next(s: State, step: Step): State {
    match step
    case Tick(now) => s.(now := now)
    case EnqueueStep(o) =>
      s.(table := Insert(s.table, o, s.now), waiting := s.waiting + {(Carrier(s.table, o), o.dedupeKey)})
    case LeaseStep(_, leaseMs, _, _, picked, token) =>
      var rows := LeaseRows(s.rows(), picked, token, s.now + leaseMs);
      s.(table := s.table.(rows := rows),
         leases := s.leases + LeasesOf(rows, picked, token),
         tokens := s.tokens + {token},
         waiting := set w | w in s.waiting && w.0 !in picked)
    case CompleteStep(lease) => s.(table := s.table.(rows := Complete(s.rows(), lease, s.now)))
    case FailStep(lease, error, delayMs) => s.(table := s.table.(rows := Fail(s.rows(), lease, error, delayMs, s.now)))
    case ExtendStep(lease, leaseMs) => s.(table := s.table.(rows := Extend(s.rows(), lease, leaseMs, s.now)))
  }

  // ---------------------------------------------------------------- What every step keeps

  ghost predicate JobInv(job: Job) {
    && (job.status == Running <==> job.leaseToken.Some?)
    && (job.status == Running <==> job.lockedUntil.Some?)
    && 0 <= job.attempts
    && (job.status == Running ==> 1 <= job.attempts)
    && (job.status == Queued ==> job.attempts == 0 || job.attempts < job.maxAttempts)
    && (job.status == Failed ==> job.maxAttempts <= job.attempts)
  }

  ghost predicate RowsInv(s: State) {
    && (forall id :: id in s.rows() ==> id < s.table.nextId && JobInv(s.rows()[id]))
    && (forall id :: id in s.rows() && s.rows()[id].leaseToken.Some? ==> s.rows()[id].leaseToken.value in s.tokens)
  }

  /** No two queued jobs share a key. */
  ghost predicate KeysInv(rows: Rows) {
    forall i, j, key :: QueuedWith(rows, i, key) && QueuedWith(rows, j, key) ==> i == j
  }

  /** A lease's snapshot is never ahead of its row, and while the lease is held it is not behind either. */
  ghost predicate LeaseInv(s: State, lease: Lease) {
    && lease.token in s.tokens
    && lease.id in s.rows()
    && 1 <= lease.job.attempts <= s.rows()[lease.id].attempts
    && lease.job.maxAttempts == s.rows()[lease.id].maxAttempts
    && (Held(s.rows(), lease) ==> lease.job.attempts == s.rows()[lease.id].attempts)
  }

  /** Attempts number a job's leases: attempt n was given to exactly one of them. */
  ghost predicate AttemptsInv(s: State) {
    && (forall a, b :: a in s.leases && b in s.leases && a.id == b.id && a.job.attempts == b.job.attempts ==> a == b)
    && (forall id, n :: id in s.rows() && 1 <= n <= s.rows()[id].attempts ==> Given(s, id, n))
    && (forall id :: id in s.rows() && s.rows()[id].status == Running ==>
          exists lease :: lease in s.leases && lease.id == id && Held(s.rows(), lease))
  }

  ghost predicate Given(s: State, id: nat, n: int) {
    exists lease :: lease in s.leases && lease.id == id && lease.job.attempts == n
  }

  ghost predicate WaitingInv(s: State) {
    forall w :: w in s.waiting ==>
      w.0 in s.rows() && s.rows()[w.0].status == Queued && s.rows()[w.0].dedupeKey == w.1
  }

  ghost predicate Inv(s: State) {
    && RowsInv(s)
    && KeysInv(s.rows())
    && (forall lease :: lease in s.leases ==> LeaseInv(s, lease))
    && AttemptsInv(s)
    && WaitingInv(s)
  }

  ghost const EMPTY: State := State(Table(map[], 0), 0, {}, {}, {})

  lemma EmptyInv()
    ensures Inv(EMPTY)
  {
  }

  /** What every step but a lease has in common: no job starts running, and no attempt is counted. */
  ghost predicate NoLease(s: State, s': State) {
    && s'.leases == s.leases && s'.tokens == s.tokens
    && (forall id :: id in s.rows() ==>
          && id in s'.rows()
          && s'.rows()[id].attempts == s.rows()[id].attempts
          && s'.rows()[id].maxAttempts == s.rows()[id].maxAttempts)
    && (forall id :: id in s'.rows() ==>
          if id in s.rows() then
            s'.rows()[id].status == Running ==>
              s.rows()[id].status == Running && s'.rows()[id].leaseToken == s.rows()[id].leaseToken
          else s'.rows()[id].attempts == 0 && s'.rows()[id].status != Running)
  }

  lemma NoLeaseKeeps(s: State, s': State)
    requires NoLease(s, s') && AttemptsInv(s) && forall lease :: lease in s.leases ==> LeaseInv(s, lease)
    ensures AttemptsInv(s') && forall lease :: lease in s'.leases ==> LeaseInv(s', lease)
  {
    assert forall id, n :: Given(s, id, n) ==> Given(s', id, n);
    assert forall lease :: lease in s.leases && Held(s'.rows(), lease) ==> Held(s.rows(), lease);
    forall id | id in s'.rows() && s'.rows()[id].status == Running
      ensures exists lease :: lease in s'.leases && lease.id == id && Held(s'.rows(), lease)
    {
      var lease :| lease in s.leases && lease.id == id && Held(s.rows(), lease);
      assert Held(s'.rows(), lease);
    }
  }

  lemma TickKeeps(s: State, step: Step)
    requires Inv(s) && step.Tick? && Allowed(s, step)
    ensures Inv(Next(s, step))
  {
    NoLeaseKeeps(s, Next(s, step));
  }

  /** The insert's conflict rule keeps one queued job a key. */
  lemma InsertKeepsKeys(t: Table, o: Options, now: int)
    requires KeysInv(t.rows) && t.nextId !in t.rows
    ensures KeysInv(Insert(t, o, now).rows)
  {
    var rows', carrier := Insert(t, o, now).rows, Carrier(t, o);
    assert forall i, key :: i != carrier && QueuedWith(rows', i, key) ==> QueuedWith(t.rows, i, key);
    assert o.dedupeKey.Some? ==> forall i :: QueuedWith(t.rows, i, o.dedupeKey.value) ==> i == carrier;
  }

  lemma EnqueueKeeps(s: State, step: Step)
    requires Inv(s) && step.EnqueueStep?
    ensures Inv(Next(s, step))
  {
    hide AttemptsInv, LeaseInv, KeysInv;
    NoLeaseKeeps(s, Next(s, step));
    InsertKeepsKeys(s.table, step.options, s.now);
  }

  lemma CompleteKeeps(s: State, step: Step)
    requires Inv(s) && step.CompleteStep? && Allowed(s, step)
    ensures Inv(Next(s, step))
  {
    hide AttemptsInv, LeaseInv;
    var s' := Next(s, step);
    NoLeaseKeeps(s, s');
    assert forall i, key :: QueuedWith(s'.rows(), i, key) ==> QueuedWith(s.rows(), i, key);
  }

  lemma ExtendKeeps(s: State, step: Step)
    requires Inv(s) && step.ExtendStep? && Allowed(s, step)
    ensures Inv(Next(s, step))
  {
    hide AttemptsInv, LeaseInv;
    var s' := Next(s, step);
    NoLeaseKeeps(s, s');
    assert forall i, key :: QueuedWith(s'.rows(), i, key) ==> QueuedWith(s.rows(), i, key);
  }

  /** A job that goes back to the queue beside a sibling gives up its key, so one queued job a key remains. */
  lemma FailKeepsKeys(rows: Rows, lease: Lease, error: string, delayMs: int, now: int)
    requires KeysInv(rows)
    ensures KeysInv(Fail(rows, lease, error, delayMs, now))
  {
    var rows' := Fail(rows, lease, error, delayMs, now);
    assert forall i, key :: i != lease.id ==> (QueuedWith(rows', i, key) <==> QueuedWith(rows, i, key));
    assert forall i, key :: i != lease.id && QueuedWith(rows', i, key) && Held(rows, lease) ==>
             !QueuedWith(rows', lease.id, key);
  }

  /** A failed job is spent exactly when its attempts are, because a held lease's snapshot is its row's. */
  lemma FailedJobInv(rows: Rows, lease: Lease, error: string, delayMs: int, now: int)
    requires lease.id in rows && JobInv(rows[lease.id])
    requires lease.job.attempts == rows[lease.id].attempts && lease.job.maxAttempts == rows[lease.id].maxAttempts
    ensures var job := FailedJob(rows, lease, error, delayMs, now);
            JobInv(job) && job.leaseToken == None && job.attempts == rows[lease.id].attempts
            && job.maxAttempts == rows[lease.id].maxAttempts && job.status != Running
  {
  }

  lemma FailKeepsRows(s: State, step: Step)
    requires Inv(s) && step.FailStep? && Allowed(s, step)
    ensures var s' := Next(s, step); RowsInv(s') && WaitingInv(s') && NoLease(s, s')
  {
    var lease := step.lease;
    assert LeaseInv(s, lease);
    if Held(s.rows(), lease) { FailedJobInv(s.rows(), lease, step.error, step.delayMs, s.now); }
    hide AttemptsInv, KeysInv, LeaseInv, JobInv, FailedJob;
    assert forall id :: id in Next(s, step).rows() && id != lease.id ==> Next(s, step).rows()[id] == s.rows()[id];
  }

  lemma FailKeeps(s: State, step: Step)
    requires Inv(s) && step.FailStep? && Allowed(s, step)
    ensures Inv(Next(s, step))
  {
    FailKeepsRows(s, step);
    FailKeepsKeys(s.rows(), step.lease, step.error, step.delayMs, s.now);
    hide AttemptsInv, KeysInv, LeaseInv, RowsInv, WaitingInv, NoLease;
    NoLeaseKeeps(s, Next(s, step));
  }

  lemma LeaseKeepsRows(s: State, step: Step)
    requires Inv(s) && step.LeaseStep? && Allowed(s, step)
    ensures var s' := Next(s, step); RowsInv(s') && KeysInv(s'.rows()) && WaitingInv(s')
  {
    var s' := Next(s, step);
    assert forall i, key :: QueuedWith(s'.rows(), i, key) ==> QueuedWith(s.rows(), i, key);
  }

  lemma LeaseKeepsLeases(s: State, step: Step)
    requires Inv(s) && step.LeaseStep? && Allowed(s, step)
    ensures var s' := Next(s, step); AttemptsInv(s') && forall lease :: lease in s'.leases ==> LeaseInv(s', lease)
  {
    var s', picked, token := Next(s, step), step.picked, step.token;
    forall lease | lease in s'.leases ensures LeaseInv(s', lease) {
      if lease in s.leases { assert LeaseInv(s, lease); }
    }
    forall id, n | id in s'.rows() && 1 <= n <= s'.rows()[id].attempts ensures Given(s', id, n) {
      if n <= s.rows()[id].attempts {
        assert Given(s, id, n);
      } else {
        assert Lease(id, s'.rows()[id], token) in s'.leases;
      }
    }
    forall id | id in s'.rows() && s'.rows()[id].status == Running
      ensures exists lease :: lease in s'.leases && lease.id == id && Held(s'.rows(), lease)
    {
      if id in picked {
        assert Held(s'.rows(), Lease(id, s'.rows()[id], token));
      } else {
        var lease :| lease in s.leases && lease.id == id && Held(s.rows(), lease);
        assert Held(s'.rows(), lease);
      }
    }
  }

  lemma StepKeeps(s: State, step: Step)
    requires Inv(s) && Allowed(s, step)
    ensures Inv(Next(s, step))
  {
    match step
    case Tick(_) => TickKeeps(s, step);
    case EnqueueStep(_) => EnqueueKeeps(s, step);
    case LeaseStep(_, _, _, _, _, _) =>
      LeaseKeepsRows(s, step);
      LeaseKeepsLeases(s, step);
    case CompleteStep(_) => CompleteKeeps(s, step);
    case FailStep(_, _, _) => FailKeeps(s, step);
    case ExtendStep(_, _) => ExtendKeeps(s, step);
  }

  // ---------------------------------------------------------------- Whole runs

  ghost predicate Legal(s: State, steps: seq<Step>)
    decreases |steps|
  {
    steps == [] || (Allowed(s, steps[0]) && Legal(Next(s, steps[0]), steps[1..]))
  }

  ghost function After(s: State, steps: seq<Step>): State
    decreases |steps|
  {
    if steps == [] then s else After(Next(s, steps[0]), steps[1..])
  }

  /** In every interleaving of the operations and the clock, from the empty table on, the invariant holds. */
  lemma {:induction false} RunKeeps(s: State, steps: seq<Step>)
    requires Inv(s) && Legal(s, steps)
    ensures Inv(After(s, steps))
    decreases |steps|
  {
    if steps == [] {
    } else {
      StepKeeps(s, steps[0]);
      RunKeeps(Next(s, steps[0]), steps[1..]);
    }
  }

  lemma ReachableInv(steps: seq<Step>)
    requires Legal(EMPTY, steps)
    ensures Inv(After(EMPTY, steps))
  {
    EmptyInv();
    RunKeeps(EMPTY, steps);
  }

  /** At most one lease per job is current, and a running job has one. */
  lemma OneHolder(s: State, id: nat)
    requires Inv(s) && id in s.rows()
    ensures s.rows()[id].status == Running <==>
              exists lease :: lease in s.leases && lease.id == id && Held(s.rows(), lease)
    ensures forall a, b ::
              a in s.leases && b in s.leases && a.id == id && b.id == id && Held(s.rows(), a) && Held(s.rows(), b) ==> a == b
  {
    assert forall lease :: lease in s.leases ==> LeaseInv(s, lease);
  }

  /** A lease once lost is lost for good: its token never comes back. */
  lemma {:induction false} LostStaysLost(s: State, steps: seq<Step>, lease: Lease)
    requires Inv(s) && Legal(s, steps) && lease in s.leases && !Held(s.rows(), lease)
    ensures !Held(After(s, steps).rows(), lease)
    decreases |steps|
  {
    if steps == [] {
    } else {
      StepKeeps(s, steps[0]);
      StepLoses(s, steps[0], lease);
      LostStaysLost(Next(s, steps[0]), steps[1..], lease);
    }
  }

  lemma StepLoses(s: State, step: Step, lease: Lease)
    requires Inv(s) && Allowed(s, step) && lease in s.leases && !Held(s.rows(), lease)
    ensures lease in Next(s, step).leases && !Held(Next(s, step).rows(), lease)
  {
    assert LeaseInv(s, lease);
  }

  /** The lease's own worker does not finish it, and no query looks for due jobs after it has expired. */
  ghost predicate Undisturbed(s: State, steps: seq<Step>, lease: Lease)
    decreases |steps|
  {
    steps == [] ||
    (&& steps[0] != CompleteStep(lease)
     && (steps[0].FailStep? ==> steps[0].lease != lease)
     && (steps[0].LeaseStep? && lease.id in s.rows() && s.rows()[lease.id].lockedUntil.Some? ==>
           s.now <= s.rows()[lease.id].lockedUntil.value)
     && Undisturbed(Next(s, steps[0]), steps[1..], lease))
  }

  /** Until it expires, a lease is exclusive: nothing that others do takes the job away. */
  lemma {:induction false} HeldUntilExpiry(s: State, steps: seq<Step>, lease: Lease)
    requires Inv(s) && Legal(s, steps) && lease in s.leases && Held(s.rows(), lease)
    requires Undisturbed(s, steps, lease)
    ensures Held(After(s, steps).rows(), lease)
    decreases |steps|
  {
    if steps == [] {
    } else {
      StepKeeps(s, steps[0]);
      StepHolds(s, steps[0], lease);
      HeldUntilExpiry(Next(s, steps[0]), steps[1..], lease);
    }
  }

  lemma StepHolds(s: State, step: Step, lease: Lease)
    requires Inv(s) && Allowed(s, step) && lease in s.leases && Held(s.rows(), lease)
    requires step != CompleteStep(lease) && (step.FailStep? ==> step.lease != lease)
    requires step.LeaseStep? ==> s.now <= s.rows()[lease.id].lockedUntil.value
    ensures lease in Next(s, step).leases && Held(Next(s, step).rows(), lease)
  {
    OneHolder(s, lease.id);
  }

  /** A finished job never changes again. */
  lemma {:induction false} FinalIsForever(s: State, steps: seq<Step>, id: nat)
    requires Inv(s) && Legal(s, steps)
    requires id in s.rows() && (s.rows()[id].status == Done || s.rows()[id].status == Failed)
    ensures id in After(s, steps).rows() && After(s, steps).rows()[id] == s.rows()[id]
    decreases |steps|
  {
    if steps == [] {
    } else {
      StepKeeps(s, steps[0]);
      FinalIsForever(Next(s, steps[0]), steps[1..], id);
    }
  }

  /** No lease of these steps takes the job. */
  ghost predicate NotLeased(steps: seq<Step>, id: nat) {
    forall k :: 0 <= k < |steps| && steps[k].LeaseStep? ==> id !in steps[k].picked
  }

  lemma {:induction false} WaitingStays(s: State, steps: seq<Step>, w: (nat, Option<string>))
    requires Legal(s, steps) && w in s.waiting && NotLeased(steps, w.0)
    ensures w in After(s, steps).waiting
    decreases |steps|
  {
    if steps == [] {
    } else {
      assert steps[0].LeaseStep? ==> w.0 !in steps[0].picked;
      assert NotLeased(steps[1..], w.0);
      WaitingStays(Next(s, steps[0]), steps[1..], w);
    }
  }

  /**
   * No enqueue is lost: from the call on, until a later lease takes the job that
   * carries it, that job is queued under the call's key. A job that was already
   * running, or finished, when the call came never carries it.
   */
  lemma NoEnqueueLost(s: State, o: Options, steps: seq<Step>)
    requires Inv(s)
    requires Legal(Next(s, EnqueueStep(o)), steps) && NotLeased(steps, Carrier(s.table, o))
    ensures var carrier, rows := Carrier(s.table, o), After(Next(s, EnqueueStep(o)), steps).rows();
            && carrier in rows && rows[carrier].status == Queued && rows[carrier].dedupeKey == o.dedupeKey
            && (carrier in s.rows() ==> s.rows()[carrier].status == Queued)
  {
    var s' := Next(s, EnqueueStep(o));
    EnqueueKeeps(s, EnqueueStep(o));
    RunKeeps(s', steps);
    WaitingStays(s', steps, (Carrier(s.table, o), o.dedupeKey));
  }

  /**
   * The second statement of `enqueue` looks for the queued job of the key. When it
   * finds none and the call throws, the request was not dropped: its job has been leased.
   */
  lemma ThrowMeansLeased(s: State, o: Options, steps: seq<Step>)
    requires Inv(s) && o.dedupeKey.Some?
    requires Legal(Next(s, EnqueueStep(o)), steps)
    requires FindQueued(After(Next(s, EnqueueStep(o)), steps).rows(), o.dedupeKey.value).None?
    ensures exists k :: 0 <= k < |steps| && steps[k].LeaseStep? && Carrier(s.table, o) in steps[k].picked
  {
    if NotLeased(steps, Carrier(s.table, o)) {
      NoEnqueueLost(s, o, steps);
      assert QueuedWith(After(Next(s, EnqueueStep(o)), steps).rows(), Carrier(s.table, o), o.dedupeKey.value);
    }
  }

  /** A queued job has an attempt left, unless it was enqueued with none. */
  lemma QueuedHasAttemptsLeft(s: State, id: nat)
    requires Inv(s) && id in s.rows() && s.rows()[id].status == Queued
    ensures s.rows()[id].attempts < s.rows()[id].maxAttempts <==> 1 <= s.rows()[id].maxAttempts
  {
    assert JobInv(s.rows()[id]);
  }

  /** The function allows that: a job enqueued with no attempt is queued with none left. */
  lemma NoneGranted() returns (o: Options)
    ensures Legal(EMPTY, [EnqueueStep(o)])
    ensures var rows := After(EMPTY, [EnqueueStep(o)]).rows();
            0 in rows && rows[0].status == Queued && rows[0].attempts >= rows[0].maxAttempts
  {
    o := Options("", "", None, None, 0, None, false);
    var s := Next(EMPTY, EnqueueStep(o));
    assert s.rows() == map[0 := NewJob(o, 0)];
    assert [EnqueueStep(o)][1..] == [];
    assert After(EMPTY, [EnqueueStep(o)]) == s;
  }

  ghost predicate HasAttempt(leases: set<Lease>, n: int) {
    exists a :: a in leases && a.job.attempts == n
  }

  lemma {:induction false} CountByAttempts(leases: set<Lease>, n: nat)
    requires forall a, b :: a in leases && b in leases && a.job.attempts == b.job.attempts ==> a == b
    requires forall a :: a in leases ==> 1 <= a.job.attempts <= n
    requires forall k :: 1 <= k <= n ==> HasAttempt(leases, k)
    ensures |leases| == n
  {
    if n > 0 {
      assert HasAttempt(leases, n);
      var last :| last in leases && last.job.attempts == n;
      var rest := leases - {last};
      forall k | 1 <= k <= n - 1 ensures HasAttempt(rest, k) {
        assert HasAttempt(leases, k);
        var a :| a in leases && a.job.attempts == k;
        assert a in rest;
      }
      CountByAttempts(rest, n - 1);
    } else {
      assert leases == {};
    }
  }

  ghost function LeasesFor(s: State, id: nat): set<Lease> {
    set lease | lease in s.leases && lease.id == id
  }

  /** A job's attempts are the number of times it was leased, and each lease has its own attempt, from the first to the last. */
  lemma AttemptsCountLeases(s: State, id: nat)
    requires Inv(s) && id in s.rows()
    ensures |LeasesFor(s, id)| == s.rows()[id].attempts
    ensures forall a, b :: a in LeasesFor(s, id) && b in LeasesFor(s, id) && a.job.attempts == b.job.attempts ==> a == b
    ensures forall n :: 1 <= n <= s.rows()[id].attempts <==> HasAttempt(LeasesFor(s, id), n)
  {
    var leases := LeasesFor(s, id);
    assert JobInv(s.rows()[id]);
    forall lease | lease in leases ensures 1 <= lease.job.attempts <= s.rows()[id].attempts {
      assert LeaseInv(s, lease);
    }
    forall k | 1 <= k <= s.rows()[id].attempts ensures HasAttempt(leases, k) {
      assert Given(s, id, k);
      var a :| a in s.leases && a.id == id && a.job.attempts == k;
      assert a in leases;
    }
    CountByAttempts(leases, s.rows()[id].attempts);
  }

  /** From some moment on, the job is leasable. */
  ghost predicate DueAfter(job: Job, moment: int) {
    forall now :: moment < now ==> Due(job, {job.kind}, now)
  }

  /** Nothing is stuck: an unfinished job, whether its worker lives or not, becomes leasable if nothing else happens to it. */
  lemma NothingStuck(s: State, id: nat)
    requires Inv(s) && id in s.rows() && s.rows()[id].status != Done && s.rows()[id].status != Failed
    ensures exists moment :: DueAfter(s.rows()[id], moment)
  {
    var job := s.rows()[id];
    assert JobInv(job);
    assert DueAfter(job, if job.status == Queued then job.runAt else job.lockedUntil.value);
  }

  /** A due row that was passed over means that the limit was reached, by rows no later than it. */
  lemma MorePicked(rows: Rows, kinds: set<string>, limit: nat, locked: set<nat>, now: int, picked: set<nat>)
    requires Picks(rows, kinds, limit, locked, now, picked)
    ensures |picked| <= limit
    ensures forall id :: id in rows && id !in locked && id !in picked && Due(rows[id], kinds, now) ==>
              |picked| == limit && forall p :: p in picked ==> rows[p].runAt <= rows[id].runAt
  {
    var free := set id | id in rows && id !in locked && Due(rows[id], kinds, now);
    if |picked| < limit {
      FullSubset(picked, free);
    }
  }

  lemma FullSubset(a: set<nat>, b: set<nat>)
    requires a <= b && |a| == |b|
    ensures a == b
  {
    if x :| x in b && x !in a {
      assert |b - {x}| == |b| - 1;
      SubsetSize(a, b - {x});
    }
  }

  lemma {:induction false} SubsetSize(a: set<nat>, b: set<nat>)
    requires a <= b
    ensures |a| <= |b|
    decreases |a|
  {
    if a == {} {
    } else {
      var x :| x in a;
      SubsetSize(a - {x}, b - {x});
    }
  }

  // ---------------------------------------------------------------- The operations

  class Queue {
    var rows: Rows
    var nextId: nat

    ghost predicate Valid()
      reads this
    {
      KeysInv(rows) && forall id :: id in rows ==> id < nextId
    }

    ghost function Contents(): Table
      reads this
    {
      Table(rows, nextId)
    }

    constructor ()
      ensures Valid() && Contents() == EMPTY.table
    {
      rows, nextId := map[], 0;
    }

    /**
     * With no queued job of the key, a new row; with one, that job, which moves to the
     * new time just when the call reschedules.
     */
    method Enqueue(o: Options, now: int) returns (id: nat)
      requires Valid()
      modifies this
      ensures Valid() && Contents() == Insert(old(Contents()), o, now)
      ensures id == Carrier(old(Contents()), o)
      ensures o.dedupeKey.Some? ==> QueuedWith(rows, id, o.dedupeKey.value)
      ensures var at := if o.delayMs.Some? then now + o.delayMs.value else if o.runAt.Some? then o.runAt.value else now;
              && ((forall i :: i in old(rows) && old(rows)[i].status == Queued && o.dedupeKey.Some? ==>
                     old(rows)[i].dedupeKey != o.dedupeKey) ==>
                    && id !in old(rows)
                    && rows == old(rows)[id := Job(o.kind, o.payload, Queued, at, None, None, 0, o.maxAttempts, o.dedupeKey, None, None)])
              && (forall i :: i in old(rows) && old(rows)[i].status == Queued && o.dedupeKey.Some?
                              && old(rows)[i].dedupeKey == o.dedupeKey ==>
                    && id == i
                    && rows == if o.reschedule then old(rows)[i := old(rows)[i].(runAt := at)] else old(rows))
    {
      assert forall i :: i in rows && rows[i].status == Queued && o.dedupeKey.Some? && rows[i].dedupeKey == o.dedupeKey ==>
               QueuedWith(rows, i, o.dedupeKey.value);
      InsertKeepsKeys(Contents(), o, now);
      var row: Option<nat> := None;
      if o.dedupeKey.Some? && exists other :: other in rows && QueuedWith(rows, other, o.dedupeKey.value) {
        if o.reschedule {
          var other :| other in rows && QueuedWith(rows, other, o.dedupeKey.value);
          rows := rows[other := rows[other].(runAt := DueAt(o, now))];
          row := Some(other);
        }
      } else {
        rows := rows[nextId := NewJob(o, now)];
        row := Some(nextId);
        nextId := nextId + 1;
      }
      if row.Some? {
        return row.value;
      }
      // The insert ran into a queued job and did not touch it.
      id :| id in rows && QueuedWith(rows, id, o.dedupeKey.value);
    }

    /** `picked` is what the query returned. */
    method LeaseJobs(kinds: set<string>, leaseMs: int, limit: nat, ghost locked: set<nat>, picked: set<nat>, token: Token, now: int)
      returns (leases: set<Lease>)
      requires Valid() && Picks(rows, kinds, limit, locked, now, picked)
      modifies this`rows
      ensures Valid() && rows == LeaseRows(old(rows), picked, token, now + leaseMs)
      ensures leases == LeasesOf(rows, picked, token)
      ensures forall lease :: lease in leases ==> Held(rows, lease)
      ensures forall id :: id in picked ==>
                && id in old(rows) && id !in locked && old(rows)[id].kind in kinds
                && (if old(rows)[id].status == Queued then old(rows)[id].runAt <= now
                    else old(rows)[id].status == Running && old(rows)[id].lockedUntil.Some? && old(rows)[id].lockedUntil.value < now)
                && rows[id] == old(rows)[id].(status := Running, leaseToken := Some(token), lockedUntil := Some(now + leaseMs),
                                              attempts := old(rows)[id].attempts + 1)
                && Lease(id, rows[id], token) in leases
      ensures rows.Keys == old(rows).Keys && forall id :: id in rows && id !in picked ==> rows[id] == old(rows)[id]
      ensures |picked| <= limit
      ensures forall id :: id in old(rows) && id !in locked && id !in picked && old(rows)[id].kind in kinds
                           && ((old(rows)[id].status == Queued && old(rows)[id].runAt <= now)
                               || (old(rows)[id].status == Running && old(rows)[id].lockedUntil.Some?
                                   && old(rows)[id].lockedUntil.value < now)) ==>
                |picked| == limit && forall p :: p in picked ==> old(rows)[p].runAt <= old(rows)[id].runAt
    {
      MorePicked(rows, kinds, limit, locked, now, picked);
      rows := map id | id in rows :: if id in picked then Leased(rows[id], token, now + leaseMs) else rows[id];
      leases := set id | id in picked && id in rows :: Lease(id, rows[id], token);
      assert forall id, key :: QueuedWith(rows, id, key) ==> QueuedWith(old(rows), id, key);
    }

    method CompleteJob(lease: Lease, now: int) returns (done: bool)
      requires Valid()
      modifies this`rows
      ensures Valid() && rows == Complete(old(rows), lease, now)
      ensures done <==> lease.id in old(rows) && old(rows)[lease.id].status == Running
                        && old(rows)[lease.id].leaseToken == Some(lease.token)
      ensures rows == if done then
                        old(rows)[lease.id := old(rows)[lease.id].(status := Done, finishedAt := Some(now), lockedUntil := None,
                                                                   leaseToken := None)]
                      else old(rows)
    {
      done := Held(rows, lease);
      if done {
        rows := rows[lease.id := CompletedJob(rows[lease.id], now)];
      }
      assert forall id, key :: QueuedWith(rows, id, key) ==> QueuedWith(old(rows), id, key);
    }

    method FailJob(lease: Lease, error: string, delayMs: int, now: int) returns (updated: bool)
      requires Valid()
      modifies this`rows
      ensures Valid() && rows == Fail(old(rows), lease, error, delayMs, now)
      ensures updated <==> lease.id in old(rows) && old(rows)[lease.id].status == Running
                           && old(rows)[lease.id].leaseToken == Some(lease.token)
      ensures !updated ==> rows == old(rows)
      ensures updated ==>
                var before, after := old(rows)[lease.id], if lease.id in rows then rows[lease.id] else old(rows)[lease.id];
                && rows == old(rows)[lease.id := after]
                && after.lastError == Some(error) && after.lockedUntil == None && after.leaseToken == None
                && after.attempts == before.attempts && after.maxAttempts == before.maxAttempts
                && after.kind == before.kind && after.payload == before.payload
                && (if lease.job.attempts >= lease.job.maxAttempts then
                      after.status == Failed && after.finishedAt == Some(now) && after.dedupeKey == before.dedupeKey
                    else
                      && after.status == Queued && after.runAt == now + delayMs
                      && after.dedupeKey ==
                         if exists i :: i in old(rows) && i != lease.id && old(rows)[i].status == Queued
                                        && before.dedupeKey.Some? && old(rows)[i].dedupeKey == before.dedupeKey
                         then None else before.dedupeKey)
    {
      FailKeepsKeys(rows, lease, error, delayMs, now);
      var exhausted := lease.job.attempts >= lease.job.maxAttempts;
      updated := Held(rows, lease);
      if updated {
        var job := rows[lease.id];
        var freed := job.(lastError := Some(error), lockedUntil := None, leaseToken := None);
        if exhausted {
          rows := rows[lease.id := freed.(status := Failed, finishedAt := Some(now))];
        } else {
          var key := if HasQueuedSibling(rows, lease.id) then None else job.dedupeKey;
          rows := rows[lease.id := freed.(status := Queued, runAt := now + delayMs, dedupeKey := key)];
        }
      }
    }

    method ExtendLease(lease: Lease, leaseMs: int, now: int) returns (extended: bool)
      requires Valid()
      modifies this`rows
      ensures Valid() && rows == Extend(old(rows), lease, leaseMs, now)
      ensures extended <==> lease.id in old(rows) && old(rows)[lease.id].status == Running
                            && old(rows)[lease.id].leaseToken == Some(lease.token)
      ensures rows == if extended then old(rows)[lease.id := old(rows)[lease.id].(lockedUntil := Some(now + leaseMs))] else old(rows)
    {
      extended := Held(rows, lease);
      if extended {
        rows := rows[lease.id := rows[lease.id].(lockedUntil := Some(now + leaseMs))];
      }
      assert forall id, key :: QueuedWith(rows, id, key) ==> QueuedWith(old(rows), id, key);
    }
  }
}
