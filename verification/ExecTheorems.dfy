/** What holds in every run of the gateway, a VM's executor and the sockets between them. */
module ExecTheorems {
  import opened Wrappers
  import opened Bytes
  import opened Execs
  import opened Executor
  import opened ExecutorTruth
  import opened Reports
  import opened ExecSystem

  lemma ReachedInv(steps: seq<Step>, d: Decoder)
    requires Legal(Start(), steps, d)
    ensures Inv(After(Start(), steps, d))
  {
    StartInv();
    RunKeeps(Start(), steps, d);
  }

  // ---------------------------------------------------------------- Once, and exactly

  /**
   * However often an id is asked for, over whatever sockets, its command is started
   * once until its result is forgotten, and until then it has at most one result.
   */
  lemma StartedAtMostOnce(steps: seq<Step>, d: Decoder, id: ExecId)
    requires Legal(Start(), steps, d)
    ensures var vm := After(Start(), steps, d).vm;
            && multiset(vm.spawned)[id] == multiset(vm.forgotten)[id] + (if id in vm.results then 1 else 0)
            && (id !in vm.forgotten ==>
                  forall r, r' :: (id, r) in vm.recorded && (id, r') in vm.recorded ==> r == r')
  {
    ReachedInv(steps, d);
    var s := After(Start(), steps, d);
    VmOf(s);
    hide Inv, VmInv, After, Legal;
    if id !in s.vm.forgotten {
      forall r, r' | (id, r) in s.vm.recorded && (id, r') in s.vm.recorded ensures r == r' {
        var i :| 0 <= i < |s.vm.recorded| && s.vm.recorded[i] == (id, r);
        var j :| 0 <= j < |s.vm.recorded| && s.vm.recorded[j] == (id, r');
        assert i != j ==> id in s.vm.forgotten;
      }
    }
  }

  /** One caller's call of our VM that came to a result. */
  predicate Answered(g: Gateway, c: Call) {
    && c in g.outcomes && c in g.asks && g.asks[c].vmId == US
    && Seen(g.asks[c], g.outcomes[c]).Resolved? && Seen(g.asks[c], g.outcomes[c]).result.Some?
  }

  /**
   * A result a caller gets, by the stream or by its id, whole or replayed, is one the
   * VM recorded for that very id: same exit code and flags, and the same output but
   * for the head the call missed. Only `fetch` resolves without one.
   */
  lemma ResultIsRecorded(steps: seq<Step>, d: Decoder, c: Call)
    requires Legal(Start(), steps, d)
    requires var g := After(Start(), steps, d).g;
             c in g.outcomes && c in g.asks && g.asks[c].vmId == US && Seen(g.asks[c], g.outcomes[c]).Resolved?
    ensures var s := After(Start(), steps, d);
            var seen := Seen(s.g.asks[c], s.g.outcomes[c]);
            if seen.result.Some? then (s.g.asks[c].execId, WithHead(MissedOf(s.missed, c), seen.result.value)) in s.vm.recorded
            else s.g.asks[c].fetchOnly
  {
    ReachedInv(steps, d);
    var s := After(Start(), steps, d);
    hide After, Legal, Valid, SocketsOk, AllTaken, VmInv, Ledger, HeardInBounds, HearingOk, WithHead, MissedOf;
    assert OutcomeOk(s.g.asks[c].execId, s.g.outcomes[c], MissedOf(s.missed, c), s.vm.recorded);
  }

  /** So, until its id is forgotten, it is the recorded result exactly when nothing was missed. */
  lemma WholeUnlessMissed(steps: seq<Step>, d: Decoder, c: Call)
    requires Legal(Start(), steps, d) && Answered(After(Start(), steps, d).g, c)
    ensures var s := After(Start(), steps, d);
            var id, told := s.g.asks[c].execId, s.g.outcomes[c].result.value;
            && (MissedOf(s.missed, c) == NOTHING ==> (id, told) in s.vm.recorded)
            && (id !in s.vm.forgotten && (id, told) in s.vm.recorded ==> MissedOf(s.missed, c) == NOTHING)
  {
    var s := After(Start(), steps, d);
    var id, told, head := s.g.asks[c].execId, s.g.outcomes[c].result.value, MissedOf(s.missed, c);
    ResultIsRecorded(steps, d, c);
    StartedAtMostOnce(steps, d, id);
    hide After, Legal, MissedOf;
    HeadlessIsWhole(told);
    if id !in s.vm.forgotten && (id, told) in s.vm.recorded {
      assert told == WithHead(head, told);
      assert |head.stdout| == 0 && |head.stderr| == 0;
      assert head == NOTHING;
    }
  }

  // ---------------------------------------------------------------- What is missed

  /** This step sends a request about the id on our VM's socket, where that much was heard of it since its last exit. */
  ghost predicate SentWith(s: System, step: Step, id: ExecId, head: Head) {
    && step.Asks? && step.vmId == US && step.request.execId == id && WouldSend(s.g, id)
    && head == HeadOf(Heard(s), id)
  }

  ghost predicate SentAt(steps: seq<Step>, d: Decoder, k: nat, id: ExecId, head: Head)
    requires k < |steps|
  {
    Legal(Start(), steps[..k], d) && SentWith(After(Start(), steps[..k], d), steps[k], id, head)
  }

  ghost predicate Sent(steps: seq<Step>, d: Decoder, id: ExecId, head: Head) {
    exists k :: 0 <= k < |steps| && SentAt(steps, d, k, id, head)
  }

  /** A request sent on a socket where its id was asked about before. */
  ghost predicate AsksAgain(steps: seq<Step>, d: Decoder, k: nat)
    requires k < |steps|
  {
    && Legal(Start(), steps[..k], d)
    && var s, step := After(Start(), steps[..k], d), steps[k];
       step.Asks? && step.vmId == US && WouldSend(s.g, step.request.execId)
       && Asked(SentOn(s.g.wire, s.g.connected[US]), step.request.execId)
  }

  lemma {:induction false} LastStep(s: System, steps: seq<Step>, d: Decoder)
    requires Legal(s, steps, d) && steps != []
    ensures var n := |steps| - 1;
            && Legal(s, steps[..n], d) && Allowed(After(s, steps[..n], d), steps[n])
            && After(s, steps, d) == Next(After(s, steps[..n], d), steps[n], d)
    decreases |steps|
  {
    hide Allowed, Next;
    var n := |steps| - 1;
    if n > 0 {
      var s1 := Next(s, steps[0], d);
      LastStep(s1, steps[1..], d);
      assert steps[1..][..n - 1] == steps[..n][1..] && steps[1..][n - 1] == steps[n];
    } else {
      assert steps[1..] == [];
    }
  }

  lemma SentStays(steps: seq<Step>, step: Step, d: Decoder, id: ExecId, head: Head)
    requires Sent(steps, d, id, head)
    ensures Sent(steps + [step], d, id, head)
  {
    hide Legal, After, SentWith;
    var k :| 0 <= k < |steps| && SentAt(steps, d, k, id, head);
    assert (steps + [step])[..k] == steps[..k] && (steps + [step])[k] == steps[k];
    assert SentAt(steps + [step], d, k, id, head);
  }

  /** Every head in flight, and every head missed, is that of a request sent about its id. */
  ghost predicate HeadsSent(steps: seq<Step>, d: Decoder, s: System) {
    && (forall id :: id in s.heads ==> Sent(steps, d, id, s.heads[id]))
    && (forall c :: c in s.missed && s.missed[c] != NOTHING ==> c in s.g.asks && Sent(steps, d, s.g.asks[c].execId, s.missed[c]))
  }

  /** What a step adds to the heads in flight, and to those missed. */
  ghost predicate HeadsFrom(s: System, step: Step, s': System) {
    && (forall id :: id in s'.heads ==> (id in s.heads && s'.heads[id] == s.heads[id]) || SentWith(s, step, id, s'.heads[id]))
    && (forall c :: c in s.g.asks ==> c in s'.g.asks && s'.g.asks[c] == s.g.asks[c])
    && (forall c :: c in s'.missed ==> MissedFrom(s, c, s'.missed[c]))
  }

  ghost predicate MissedFrom(s: System, c: Call, head: Head) {
    || head == NOTHING
    || (c in s.missed && head == s.missed[c])
    || (c in s.g.asks && s.g.asks[c].execId in s.heads && head == s.heads[s.g.asks[c].execId])
  }

  lemma StepHeads(s: System, step: Step, d: Decoder)
    requires Inv(s) && Allowed(s, step)
    ensures HeadsFrom(s, step, Next(s, step, d))
  {
    ValidOf(s);
    hide Inv, HeadOf, Heard;
    if step.Deliver? {
      HearMisses(s, s.vm.log[s.g.connected[US]][Count(s.heard, s.g.connected[US])]);
      hide Valid, Misses, Settle, MissedFrom;
    } else {
      AsksStay(s, step, d);
      HeadsStep(s, step, d);
      hide Next, Valid, SentWith;
    }
  }

  lemma HeadsStep(s: System, step: Step, d: Decoder)
    requires Allowed(s, step) && !step.Deliver?
    ensures var s' := Next(s, step, d);
            && s'.missed == s.missed
            && forall id :: id in s'.heads ==> (id in s.heads && s'.heads[id] == s.heads[id]) || SentWith(s, step, id, s'.heads[id])
  {
    hide CloseSocket, TakeRequest, Pump, PipeEnds, Exits, Forget, Settle, Handle, Track, HeadOf, Heard;
  }

  lemma AsksStay(s: System, step: Step, d: Decoder)
    requires Allowed(s, step) && !step.Deliver?
    ensures forall c :: c in s.g.asks ==> c in Next(s, step, d).g.asks && Next(s, step, d).g.asks[c] == s.g.asks[c]
  {
    hide TakeRequest, Pump, PipeEnds, Exits, Forget, HeadOf, Heard;
  }

  lemma HearMisses(s: System, report: Report)
    requires Valid(s.g)
    ensures forall c :: c in Misses(s, report) ==> MissedFrom(s, c, Misses(s, report)[c])
  {
    if report.execId in s.g.pending {
      assert AllWait(s.g.asks, s.g.outcomes, report.execId, s.g.pending[report.execId]);
    }
    hide Valid;
  }

  lemma {:induction false} HeadsAreSent(steps: seq<Step>, d: Decoder)
    requires Legal(Start(), steps, d)
    ensures HeadsSent(steps, d, After(Start(), steps, d))
    decreases |steps|
  {
    if steps == [] {
    } else {
      var n := |steps| - 1;
      LastStep(Start(), steps, d);
      HeadsAreSent(steps[..n], d);
      ReachedInv(steps[..n], d);
      StepHeads(After(Start(), steps[..n], d), steps[n], d);
      hide Inv, Next, Legal, After, Allowed, HeadsFrom, HeadsSent;
      HeadsStaySent(steps, d, After(Start(), steps, d));
    }
  }

  lemma HeadsStaySent(steps: seq<Step>, d: Decoder, s': System)
    requires steps != [] && Legal(Start(), steps[..|steps| - 1], d)
    requires HeadsSent(steps[..|steps| - 1], d, After(Start(), steps[..|steps| - 1], d))
    requires HeadsFrom(After(Start(), steps[..|steps| - 1], d), steps[|steps| - 1], s')
    ensures HeadsSent(steps, d, s')
  {
    var before, step := steps[..|steps| - 1], steps[|steps| - 1];
    var s := After(Start(), before, d);
    hide Legal, After, SentWith, Sent, Start;
    assert before + [step] == steps;
    forall id | id in s'.heads ensures Sent(steps, d, id, s'.heads[id]) {
      if SentWith(s, step, id, s'.heads[id]) {
        JustSent(steps, d, id, s'.heads[id]);
      } else {
        SentStays(before, step, d, id, s.heads[id]);
      }
    }
    forall c | c in s'.missed && s'.missed[c] != NOTHING
      ensures c in s'.g.asks && Sent(steps, d, s'.g.asks[c].execId, s'.missed[c])
    {
      assert MissedFrom(s, c, s'.missed[c]);
      SentStays(before, step, d, s.g.asks[c].execId, s'.missed[c]);
    }
  }

  lemma JustSent(steps: seq<Step>, d: Decoder, id: ExecId, head: Head)
    requires steps != [] && Legal(Start(), steps[..|steps| - 1], d)
    requires SentWith(After(Start(), steps[..|steps| - 1], d), steps[|steps| - 1], id, head)
    ensures Sent(steps, d, id, head)
  {
    hide SentWith;
    assert SentAt(steps, d, |steps| - 1, id, head);
  }

  /** Nothing is missed unless some request about the id was sent on a socket where it was asked about before. */
  lemma MissedWasHeard(steps: seq<Step>, d: Decoder, c: Call)
    requires Legal(Start(), steps, d)
    requires MissedOf(After(Start(), steps, d).missed, c) != NOTHING
    ensures var s := After(Start(), steps, d);
            && c in s.g.asks
            && exists k :: 0 <= k < |steps| && SentAt(steps, d, k, s.g.asks[c].execId, MissedOf(s.missed, c)) && AsksAgain(steps, d, k)
  {
    var s := After(Start(), steps, d);
    HeadsAreSent(steps, d);
    var id, head := s.g.asks[c].execId, s.missed[c];
    assert Sent(steps, d, id, head);
    hide Legal, After, HeadsSent;
    var k :| 0 <= k < |steps| && SentAt(steps, d, k, id, head);
    ReachedInv(steps[..k], d);
    HeadWasAsked(After(Start(), steps[..k], d), id);
    hide Inv, HeadOf;
    assert AsksAgain(steps, d, k);
  }

  lemma HeadWasAsked(s: System, id: ExecId)
    requires Inv(s) && US in s.g.connected && HeadOf(Heard(s), id) != NOTHING
    ensures Asked(SentOn(s.g.wire, s.g.connected[US]), id)
  {
    var k := s.g.connected[US];
    OursIsLive(s);
    hide Inv, Asked, Since;
    if !Said(SentOn(s.vm.log, k), id) {
      assert !Said(Heard(s), id);
      SinceUnsaid(Heard(s), id, Stdout);
      SinceUnsaid(Heard(s), id, Stderr);
    }
    hide Said;
    SaidIsAsked(s, k, id);
  }

  /** When no request is sent on a socket where its id was asked about before, every result is the recorded one. */
  lemma OnceIsWhole(steps: seq<Step>, d: Decoder, c: Call)
    requires Legal(Start(), steps, d) && Answered(After(Start(), steps, d).g, c)
    requires forall k :: 0 <= k < |steps| ==> !AsksAgain(steps, d, k)
    ensures var s := After(Start(), steps, d); (s.g.asks[c].execId, s.g.outcomes[c].result.value) in s.vm.recorded
  {
    hide Legal, After, AsksAgain, SentAt;
    if MissedOf(After(Start(), steps, d).missed, c) != NOTHING { MissedWasHeard(steps, d, c); }
    WholeUnlessMissed(steps, d, c);
  }

  // ---------------------------------------------------------------- Every waiter is told once

  /** A step that takes over the id this call waits on, for another VM. */
  predicate DisplacesAt(g: Gateway, step: Step, c: Call) {
    step.Asks? && Displaces(g, step.vmId, step.request, c)
  }

  /** What becomes of a call: told once and for good, or waiting, or left behind for good when displaced. */
  ghost predicate Fate(g: Gateway, g': Gateway, c: Call, displaced: bool) {
    && c in g'.outcomes && c in g'.asks
    && (Told(g, c) ==> g'.outcomes[c] == g.outcomes[c])
    && (Attached(g, c) ==> (Attached(g', c) || Told(g', c) <==> !displaced))
    && (!Attached(g, c) && !Told(g, c) ==> !Attached(g', c) && !Told(g', c))
  }

  lemma FateOfKept(g: Gateway, g': Gateway, c: Call)
    requires Keeps(g, g') && c in g.outcomes
    ensures Fate(g, g', c, false)
  {
    hide Attached, Told;
  }

  lemma StepFate(s: System, step: Step, d: Decoder, c: Call)
    requires Inv(s) && Allowed(s, step) && c in s.g.outcomes
    ensures Fate(s.g, Next(s, step, d).g, c, DisplacesAt(s.g, step, c))
  {
    ValidOf(s);
    var g' := Next(s, step, d).g;
    hide Inv, Attached;
    if step.Asks? {
      if Attached(s.g, c) { TellsWaiting(s.g, c); }
      TrackKeeps(s.g, step.call, step.vmId, step.request);
      hide Track, Valid;
    } else if step.SocketCloses? {
      var g1 := if step.vmId in s.g.connected && s.g.connected[step.vmId] == step.socket
                then s.g.(connected := s.g.connected - {step.vmId}) else s.g;
      assert Valid(g1) by { hide AllWait; }
      CloseVmKeeps(g1, step.vmId);
      hide Valid, CloseVm;
      FateOfKept(g1, g', c);
      assert Attached(g1, c) == Attached(s.g, c) by { SameWaiters(g1, s.g, c); }
    } else {
      OthersKeep(s, step, d);
      FateOfKept(s.g, g', c);
    }
  }

  lemma SameWaiters(g: Gateway, g': Gateway, c: Call)
    requires g'.pending == g.pending && g'.asks == g.asks
    ensures Attached(g', c) == Attached(g, c)
  {
  }

  lemma OthersKeep(s: System, step: Step, d: Decoder)
    requires Inv(s) && Allowed(s, step) && !step.Asks? && !step.SocketCloses?
    ensures Keeps(s.g, Next(s, step, d).g)
  {
    ValidOf(s);
    hide Inv;
    match step
    case Deliver => HandleKeeps(s.g, US, s.vm.log[s.g.connected[US]][Count(s.heard, s.g.connected[US])]);
    case DeliverOther(vmId, report) => HandleKeeps(s.g, vmId, report);
    case Timeout(id) => SettleKeeps(s.g, id, Rejected(Unreachable));
    case _ => hide TakeRequest, Pump, PipeEnds, Exits, Forget, AllWait;
  }

  lemma TellsWaiting(g: Gateway, c: Call)
    requires Valid(g) && Attached(g, c)
    ensures !Told(g, c)
  {
    assert AllWait(g.asks, g.outcomes, g.asks[c].execId, g.pending[g.asks[c].execId]);
  }

  ghost predicate DisplacedIn(s: System, steps: seq<Step>, d: Decoder, c: Call)
    requires Legal(s, steps, d)
    decreases |steps|
  {
    steps != [] && ((Attached(s.g, c) && DisplacesAt(s.g, steps[0], c)) || DisplacedIn(Next(s, steps[0], d), steps[1..], d, c))
  }

  /**
   * Over any run a waiting call goes on waiting or is told, once; the one exception
   * is a call whose id is taken over by a call for another VM, which is never told.
   */
  lemma {:induction false} EveryWaiterIsToldOnce(s: System, steps: seq<Step>, d: Decoder, c: Call)
    requires Inv(s) && Legal(s, steps, d) && c in s.g.outcomes
    ensures Fate(s.g, After(s, steps, d).g, c, DisplacedIn(s, steps, d, c))
    decreases |steps|
  {
    ValidOf(s);
    if steps == [] {
      assert s.g.asks.Keys == s.g.outcomes.Keys by { AsksAreOutcomes(s.g); }
    } else {
      var s1 := Next(s, steps[0], d);
      StepFate(s, steps[0], d, c);
      StepKeeps(s, steps[0], d);
      hide Inv, Next, Allowed, Valid;
      EveryWaiterIsToldOnce(s1, steps[1..], d, c);
      GoneIsNotDisplaced(s1, steps[1..], d, c);
      if Attached(s.g, c) { TellsWaiting(s.g, c); }
      hide DisplacesAt, Attached, Told;
    }
  }

  /** Only one who waits can be displaced. */
  lemma {:induction false} GoneIsNotDisplaced(s: System, steps: seq<Step>, d: Decoder, c: Call)
    requires Inv(s) && Legal(s, steps, d) && c in s.g.outcomes
    ensures !Attached(s.g, c) ==> !DisplacedIn(s, steps, d, c)
    decreases |steps|
  {
    if steps != [] && !Attached(s.g, c) {
      var s1 := Next(s, steps[0], d);
      StepFate(s, steps[0], d, c);
      StepKeeps(s, steps[0], d);
      ValidOf(s);
      ValidOf(s1);
      if Attached(s1.g, c) {
        TellsWaiting(s1.g, c);
      }
      hide Inv, Next, Allowed;
      GoneIsNotDisplaced(s1, steps[1..], d, c);
    }
  }

  /** Such a run: the same id asked of two VMs. */
  lemma TwoVmsOneId(d: Decoder) returns (steps: seq<Step>)
    ensures Legal(Start(), steps, d)
    ensures var g := After(Start(), steps, d).g; 0 in g.outcomes && g.outcomes[0].Waiting? && !Attached(g, 0)
  {
    steps := [Connect(US, 0), Connect(1, 1), Asks(0, US, Exec(7, "", 0)), Asks(1, 1, Exec(7, "", 0))];
    var s1 := Next(Start(), steps[0], d);
    var s2 := Next(s1, steps[1], d);
    var s3 := Next(s2, steps[2], d);
    var s4 := Next(s3, steps[3], d);
    assert s3.g.pending[7] == Pending(US, [], [], false, [0]) && s4.g.pending[7] == Pending(1, [], [], false, [1]);
    assert Allowed(Start(), steps[0]) && Allowed(s1, steps[1]) && Allowed(s2, steps[2]) && Allowed(s3, steps[3]);
    assert Legal(s4, [], d) && After(s4, [], d) == s4;
    assert steps == [steps[0]] + ([steps[1]] + ([steps[2]] + ([steps[3]] + [])));
    hide Next, Allowed, Start, Legal, After;
    Prepend(s3, steps[3], [], d);
    Prepend(s2, steps[2], [steps[3]] + [], d);
    Prepend(s1, steps[1], [steps[2]] + ([steps[3]] + []), d);
    Prepend(Start(), steps[0], [steps[1]] + ([steps[2]] + ([steps[3]] + [])), d);
  }

  // ---------------------------------------------------------------- What one call misses

  function HeadAt(heads: map<ExecId, Head>, id: ExecId): Head {
    if id in heads then heads[id] else NOTHING
  }

  /** What has been heard of a command before the request that a call about it would wait on: the one it sends, or joins. */
  function HeadBefore(s: System, id: ExecId): Head {
    if WouldSend(s.g, id) then HeadOf(Heard(s), id) else HeadAt(s.heads, id)
  }

  /** This step tells the call a found result. */
  predicate FoundAt(s: System, step: Step, c: Call)
    requires Allowed(s, step)
  {
    step.Deliver? && Attached(s.g, c)
    && var report := s.vm.log[s.g.connected[US]][Count(s.heard, s.g.connected[US])];
       report.Found? && report.execId == s.g.asks[c].execId && s.g.pending[report.execId].vmId == US
  }

  ghost predicate FoundIn(s: System, steps: seq<Step>, d: Decoder, c: Call)
    requires Legal(s, steps, d)
    decreases |steps|
  {
    steps != [] && (FoundAt(s, steps[0], c) || FoundIn(Next(s, steps[0], d), steps[1..], d, c))
  }

  /** While it waits the call is due to miss `head`; once told a result it has missed it, unless the result was found. */
  ghost predicate Owes(s: System, c: Call, ask: Ask, head: Head, found: bool) {
    && c in s.g.asks && c in s.g.outcomes && s.g.asks[c] == ask && ask.vmId == US
    && (Attached(s.g, c) ==> HeadAt(s.heads, ask.execId) == head && !found)
    && (GotResult(s.g, c) ==> MissedOf(s.missed, c) == if found then NOTHING else head)
  }

  predicate GotResult(g: Gateway, c: Call) {
    c in g.outcomes && g.outcomes[c].Resolved? && g.outcomes[c].result.Some?
  }

  lemma AskOwes(s: System, c: Call, request: Request, d: Decoder)
    requires Inv(s) && Allowed(s, Asks(c, US, request))
    ensures Owes(Next(s, Asks(c, US, request), d), c, Ask(US, request.execId, request.Fetch?), HeadBefore(s, request.execId), false)
  {
    hide Inv, HeadOf, Heard;
  }

  /** The report is about the command the call waits on. */
  predicate HearsOwn(s: System, report: Report, c: Call) {
    Attached(s.g, c) && report.execId == s.g.asks[c].execId && s.g.pending[report.execId].vmId == US
  }

  lemma OwnOwes(s: System, c: Call, ask: Ask, head: Head)
    requires Valid(s.g) && Allowed(s, Deliver) && Owes(s, c, ask, head, false)
    requires HearsOwn(s, s.vm.log[s.g.connected[US]][Count(s.heard, s.g.connected[US])], c)
    ensures Owes(HearNext(s), c, ask, head, FoundAt(s, Deliver, c))
  {
    assert AllWait(s.g.asks, s.g.outcomes, ask.execId, s.g.pending[ask.execId]);
    hide Valid, AllWait, Join;
  }

  lemma HandleLeaves(g: Gateway, report: Report, c: Call)
    requires Valid(g) && c in g.asks && c in g.outcomes
    requires !(Attached(g, c) && report.execId == g.asks[c].execId && g.pending[report.execId].vmId == US)
    ensures var g' := Handle(g, US, report);
            g'.asks == g.asks && c in g'.outcomes && g'.outcomes[c] == g.outcomes[c] && (Attached(g', c) ==> Attached(g, c))
  {
    if report.execId in g.pending { assert AllWait(g.asks, g.outcomes, report.execId, g.pending[report.execId]); }
    hide Valid, AllWait, Join;
  }

  lemma MissesLeaves(s: System, report: Report, c: Call)
    requires Valid(s.g) && c in s.g.asks && !HearsOwn(s, report, c)
    ensures MissedOf(Misses(s, report), c) == MissedOf(s.missed, c)
  {
    if report.execId in s.g.pending { assert AllWait(s.g.asks, s.g.outcomes, report.execId, s.g.pending[report.execId]); }
    hide Valid, AllWait;
  }

  /** A report about anything else leaves the call as it is. */
  lemma OtherOwes(s: System, c: Call, ask: Ask, head: Head, found: bool)
    requires Valid(s.g) && Allowed(s, Deliver) && Owes(s, c, ask, head, found)
    requires !HearsOwn(s, s.vm.log[s.g.connected[US]][Count(s.heard, s.g.connected[US])], c)
    ensures Owes(HearNext(s), c, ask, head, found)
  {
    var report := s.vm.log[s.g.connected[US]][Count(s.heard, s.g.connected[US])];
    HandleLeaves(s.g, report, c);
    MissesLeaves(s, report, c);
    hide Valid, Handle, Misses, Attached, MissedOf, HeadAt;
  }

  lemma HearingOwes(s: System, c: Call, ask: Ask, head: Head, found: bool)
    requires Valid(s.g) && Allowed(s, Deliver) && Owes(s, c, ask, head, found)
    ensures Owes(HearNext(s), c, ask, head, found || FoundAt(s, Deliver, c))
  {
    if HearsOwn(s, s.vm.log[s.g.connected[US]][Count(s.heard, s.g.connected[US])], c) {
      OwnOwes(s, c, ask, head);
    } else {
      OtherOwes(s, c, ask, head, found);
    }
    hide Valid, HearNext;
  }

  /** No other step tells a call of our VM a result, or changes what one in flight is due to miss. */
  lemma OnlyHearingTells(s: System, step: Step, d: Decoder, c: Call)
    requires Valid(s.g) && Allowed(s, step) && !step.Deliver? && c in s.g.asks && c in s.g.outcomes && s.g.asks[c].vmId == US
    requires GotResult(Next(s, step, d).g, c)
    ensures GotResult(s.g, c) && Next(s, step, d).missed == s.missed
  {
    match step
    case DeliverOther(_, report) =>
      if report.execId in s.g.pending {
        assert AllWait(s.g.asks, s.g.outcomes, report.execId, s.g.pending[report.execId]);
      }
      hide Valid, AllWait, Join;
    case _ => hide Valid, TakeRequest, Pump, PipeEnds, Exits, Forget, HeadOf, Heard;
  }

  lemma HeadStays(s: System, step: Step, d: Decoder, c: Call)
    requires Valid(s.g) && Allowed(s, step) && !step.Deliver? && c in s.g.asks && s.g.asks[c].vmId == US && Attached(s.g, c)
    ensures HeadAt(Next(s, step, d).heads, s.g.asks[c].execId) == HeadAt(s.heads, s.g.asks[c].execId)
  {
    assert AllWait(s.g.asks, s.g.outcomes, s.g.asks[c].execId, s.g.pending[s.g.asks[c].execId]);
    hide Valid, AllWait, CloseSocket, TakeRequest, Pump, PipeEnds, Exits, Forget, Settle, Handle, Track, HeadOf, Heard;
  }

  lemma OthersOwe(s: System, step: Step, d: Decoder, c: Call, ask: Ask, head: Head, found: bool)
    requires Inv(s) && Allowed(s, step) && !step.Deliver? && Owes(s, c, ask, head, found)
    ensures Owes(Next(s, step, d), c, ask, head, found)
  {
    ValidOf(s);
    StepFate(s, step, d, c);
    AsksStay(s, step, d);
    var s' := Next(s, step, d);
    assert Attached(s'.g, c) ==> Attached(s.g, c) by {
      if Attached(s'.g, c) && Told(s.g, c) {
        StepKeeps(s, step, d);
        ValidOf(s');
        TellsWaiting(s'.g, c);
      }
      hide Inv, Next, Attached;
    }
    if Attached(s.g, c) { HeadStays(s, step, d, c); }
    if GotResult(s'.g, c) { OnlyHearingTells(s, step, d, c); }
    hide Inv, Next, Attached, Valid, HeadAt, MissedOf;
  }

  lemma {:induction false} RunOwes(s: System, steps: seq<Step>, d: Decoder, c: Call, ask: Ask, head: Head, found: bool)
    requires Inv(s) && Legal(s, steps, d) && Owes(s, c, ask, head, found)
    ensures Owes(After(s, steps, d), c, ask, head, found || FoundIn(s, steps, d, c))
    decreases |steps|
  {
    if steps == [] {
    } else {
      var s1, found' := Next(s, steps[0], d), found || FoundAt(s, steps[0], c);
      StepKeeps(s, steps[0], d);
      if steps[0].Deliver? {
        ValidOf(s);
        HearingOwes(s, c, ask, head, found);
      } else {
        OthersOwe(s, steps[0], d, c, ask, head, found);
      }
      hide Inv, Allowed, Owes, FoundAt, HearNext;
      RunOwes(s1, steps[1..], d, c, ask, head, found');
    }
  }

  lemma {:induction false} SplitRun(s: System, steps: seq<Step>, k: nat, d: Decoder)
    requires Legal(s, steps, d) && k <= |steps|
    ensures Legal(s, steps[..k], d) && Legal(After(s, steps[..k], d), steps[k..], d)
    ensures After(s, steps, d) == After(After(s, steps[..k], d), steps[k..], d)
    decreases k
  {
    hide Allowed, Next;
    if k == 0 {
      assert steps[0..] == steps;
    } else {
      assert steps[..k][1..] == steps[1..][..k - 1] && steps[1..][k - 1..] == steps[k..];
      SplitRun(Next(s, steps[0], d), steps[1..], k - 1, d);
    }
  }

  /**
   * Exactly when a call's result is the recorded one. Of what its command put out it
   * misses just what had been heard, on the socket it asks over and since the command's
   * last exit, before the request it waits on was sent, be it its own or one it
   * joined; and nothing if it is told a found result. So until the id is forgotten it
   * gets what is recorded if and only if that is nothing or the result was found.
   */
  lemma WholeIff(steps: seq<Step>, d: Decoder, k: nat, c: Call, request: Request)
    requires Legal(Start(), steps, d) && k < |steps| && steps[k] == Asks(c, US, request)
    requires GotResult(After(Start(), steps, d).g, c)
    ensures Legal(Start(), steps[..k], d) && Legal(After(Start(), steps[..k], d), steps[k..], d)
    ensures var asked, s := After(Start(), steps[..k], d), After(Start(), steps, d);
            var id, told, head, found := request.execId, s.g.outcomes[c].result.value, HeadBefore(asked, request.execId),
                                         FoundIn(asked, steps[k..], d, c);
            && (id, WithHead(if found then NOTHING else head, told)) in s.vm.recorded
            && (id !in s.vm.forgotten ==> ((id, told) in s.vm.recorded <==> head == NOTHING || found))
  {
    SplitRun(Start(), steps, k, d);
    ReachedInv(steps[..k], d);
    var asked, rest := After(Start(), steps[..k], d), steps[k..];
    var ask, head := Ask(US, request.execId, request.Fetch?), HeadBefore(asked, request.execId);
    AskOwes(asked, c, request, d);
    StepKeeps(asked, rest[0], d);
    assert !FoundAt(asked, rest[0], c);
    hide Inv, Allowed, Owes, HeadBefore, Next, FoundAt;
    RunOwes(Next(asked, rest[0], d), rest[1..], d, c, ask, head, false);
    hide After, Legal;
    ToldLess(steps, d, c, ask, head, FoundIn(asked, rest, d, c));
  }

  lemma ToldLess(steps: seq<Step>, d: Decoder, c: Call, ask: Ask, head: Head, found: bool)
    requires Legal(Start(), steps, d) && Owes(After(Start(), steps, d), c, ask, head, found)
    requires GotResult(After(Start(), steps, d).g, c)
    ensures var s := After(Start(), steps, d);
            var told := s.g.outcomes[c].result.value;
            && (ask.execId, WithHead(if found then NOTHING else head, told)) in s.vm.recorded
            && (ask.execId !in s.vm.forgotten ==> ((ask.execId, told) in s.vm.recorded <==> head == NOTHING || found))
  {
    hide After, Legal, MissedOf, WithHead, Attached;
    ResultIsRecorded(steps, d, c);
    WholeUnlessMissed(steps, d, c);
  }
}
