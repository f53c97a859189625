/**
 * A gateway and one of its VMs, over sockets that come and go.
 *
 * A socket is first in, first out. The gateway hears a VM only over its current
 * socket: a replaced or closed one delivers nothing more to it, while the VM may
 * still take requests from an old one. Ids may be asked about again and again, on
 * one socket or several. Other VMs may report anything at all.
 */
module ExecSystem {
  import opened Wrappers
  import opened Bytes
  import opened Execs
  import opened Executor
  import opened ExecutorTruth
  import opened Reports
  import Texts

  /** The VM this is about. */
  const US: VmId := 0

  /**
   * `ours` are the sockets our VM ever had; `taken` is how many requests it has
   * taken from each (`known` are their ids), `heard` how many of its reports the
   * gateway has. `heads` is what had been heard of a command already when the
   * request in flight for it was sent, and `missed` is what that left out of what a
   * call was told.
   */
  datatype System = System(
    g: Gateway, vm: Vm, ours: set<Socket>, used: set<Socket>,
    taken: map<Socket, nat>, known: Known, heard: map<Socket, nat>,
    heads: map<ExecId, Head>, missed: map<Call, Head>)

  /** The beginning of a command's output, up to the request that now waits for its end. */
  datatype Head = Head(stdout: string, stderr: string)

  const NOTHING := Head("", "")

  function WithHead(head: Head, r: ExecResult): ExecResult {
    r.(stdout := head.stdout + r.stdout, stderr := head.stderr + r.stderr)
  }

  datatype Step =
    | Connect(vmId: VmId, socket: Socket)
    | SocketCloses(vmId: VmId, socket: Socket)
    | Asks(call: Call, vmId: VmId, request: Request)
    | Deliver
    | DeliverOther(vmId: VmId, report: Report)
    | Timeout(id: ExecId)
    | VmTakes(socket: Socket)
    | VmPumps(id: ExecId, pipe: Pipe, chunk: Bytes)
    | VmPipeEnds(id: ExecId, pipe: Pipe)
    | VmExits(id: ExecId, exitCode: int, elapsedMs: nat)
    | VmForgets(id: ExecId)

  function Count(n: map<Socket, nat>, socket: Socket): nat {
    if socket in n then n[socket] else 0
  }

  predicate Asked(requests: seq<Request>, id: ExecId) {
    exists k :: 0 <= k < |requests| && requests[k].execId == id
  }

  /** A call on our VM that would be sent rather than join one in flight. */
  predicate WouldSend(g: Gateway, id: ExecId) {
    US in g.connected && !(id in g.pending && g.pending[id].vmId == US)
  }

  predicate Allowed(s: System, step: Step) {
    match step
    case Connect(_, socket) => socket !in s.used
    case Asks(call, _, _) => call !in s.g.asks
    case Deliver => US in s.g.connected && Count(s.heard, s.g.connected[US]) < |SentOn(s.vm.log, s.g.connected[US])|
    case DeliverOther(vmId, _) => vmId != US
    case VmTakes(socket) => socket in s.ours && Count(s.taken, socket) < |SentOn(s.g.wire, socket)|
    case _ => true
  }

  function Upto<T>(s: seq<T>, n: nat): seq<T> {
    if n <= |s| then s[..n] else s
  }

  /** What the gateway has heard on our VM's live socket. */
  function Heard(s: System): seq<Report>
    requires US in s.g.connected
  {
    Upto(SentOn(s.vm.log, s.g.connected[US]), Count(s.heard, s.g.connected[US]))
  }

  /** What has been heard there of a command since its last exit. */
  function HeadOf(reports: seq<Report>, id: ExecId): Head {
    Head(Since(reports, id, Stdout), Since(reports, id, Stderr))
  }

  function MissedOf(missed: map<Call, Head>, c: Call): Head {
    if c in missed then missed[c] else NOTHING
  }

  /** Told by the stream, the waiters of a command miss its head; told by a result, nothing. */
  function Misses(s: System, report: Report): map<Call, Head> {
    var id := report.execId;
    if report.Output? || id !in s.g.pending || s.g.pending[id].vmId != US then s.missed
    else
      map c | c in s.missed.Keys + (set w | w in s.g.pending[id].waiters) ::
        if c !in s.g.pending[id].waiters then MissedOf(s.missed, c)
        else if report.Exit? && id in s.heads then s.heads[id]
        else NOTHING
  }

  function HearNext(s: System): System
    requires Allowed(s, Deliver)
  {
    var socket := s.g.connected[US];
    var n := Count(s.heard, socket);
    var report := s.vm.log[socket][n];
    s.(g := Handle(s.g, US, report), heard := s.heard[socket := n + 1], missed := Misses(s, report))
  }

  function AskNext(s: System, call: Call, vmId: VmId, request: Request): System {
    s.(g := Track(s.g, call, vmId, request),
       heads := if vmId == US && WouldSend(s.g, request.execId) then s.heads[request.execId := HeadOf(Heard(s), request.execId)]
                 else s.heads)
  }

  function TakeNext(s: System, socket: Socket): System
    requires Allowed(s, VmTakes(socket))
  {
    var n := Count(s.taken, socket);
    var request := s.g.wire[socket][n];
    s.(vm := TakeRequest(s.vm, socket, request), taken := s.taken[socket := n + 1], known := s.known + {(socket, request.execId)})
  }

  function CloseSocket(g: Gateway, vmId: VmId, socket: Socket): Gateway {
    var g' := if vmId in g.connected && g.connected[vmId] == socket then g.(connected := g.connected - {vmId}) else g;
    CloseVm(g', vmId)
  }

  function Next(s: System, step: Step, d: Decoder): System
    requires Allowed(s, step)
  {
    match step
    case Connect(vmId, socket) =>
      s.(g := s.g.(connected := s.g.connected[vmId := socket]), used := s.used + {socket},
         ours := if vmId == US then s.ours + {socket} else s.ours)
    case SocketCloses(vmId, socket) => s.(g := CloseSocket(s.g, vmId, socket))
    case Asks(call, vmId, request) => AskNext(s, call, vmId, request)
    case Deliver => HearNext(s)
    case DeliverOther(vmId, report) => s.(g := Handle(s.g, vmId, report))
    case Timeout(id) => s.(g := Settle(s.g, id, Rejected(Unreachable)))
    case VmTakes(socket) => TakeNext(s, socket)
    case VmPumps(id, pipe, chunk) => s.(vm := Pump(s.vm, id, pipe, chunk, d))
    case VmPipeEnds(id, pipe) => s.(vm := PipeEnds(s.vm, id, pipe, d))
    case VmExits(id, exitCode, elapsedMs) => s.(vm := Exits(s.vm, id, exitCode, elapsedMs))
    case VmForgets(id) => s.(vm := Forget(s.vm, id))
  }

  function Start(): System {
    System(Gateway(map[], map[], map[], map[], map[]), Vm(map[], map[], [], [], []), {}, {}, map[], {}, map[], map[], map[])
  }

  predicate Legal(s: System, steps: seq<Step>, d: Decoder)
    decreases |steps|
  {
    steps == [] || (Allowed(s, steps[0]) && Legal(Next(s, steps[0], d), steps[1..], d))
  }

  function After(s: System, steps: seq<Step>, d: Decoder): System
    requires Legal(s, steps, d)
    decreases |steps|
  {
    if steps == [] then s else After(Next(s, steps[0], d), steps[1..], d)
  }

  lemma Prepend(s: System, step: Step, rest: seq<Step>, d: Decoder)
    requires Allowed(s, step) && Legal(Next(s, step, d), rest, d)
    ensures Legal(s, [step] + rest, d) && After(s, [step] + rest, d) == After(Next(s, step, d), rest, d)
  {
    assert ([step] + rest)[1..] == rest;
  }

  // ---------------------------------------------------------------- The invariant

  ghost predicate SocketsOk(g: Gateway, ours: set<Socket>, used: set<Socket>) {
    && ours <= used && g.wire.Keys <= used
    && forall vmId :: vmId in g.connected ==> g.connected[vmId] in used && (vmId == US <==> g.connected[vmId] in ours)
  }

  /** What the VM has taken from a socket was asked there. */
  ghost predicate AllTaken(wire: map<Socket, seq<Request>>, ours: set<Socket>, taken: map<Socket, nat>, known: Known) {
    && (forall socket :: socket in ours ==> Count(taken, socket) <= |SentOn(wire, socket)|)
    && (forall k: Socket, id: ExecId :: (k, id) in known ==> k in ours && Asked(SentOn(wire, k), id))
    && taken.Keys <= ours
  }

  /** What was heard before the request, and the buffers since, are what was heard of the command. */
  ghost predicate Buffered(id: ExecId, head: Head, p: Pending, reports: seq<Report>) {
    HeadOf(reports, id) == Head(head.stdout + Join(p.stdout), head.stderr + Join(p.stderr))
  }

  ghost predicate Hearing(heads: map<ExecId, Head>, pending: map<ExecId, Pending>, requests: seq<Request>, reports: seq<Report>) {
    forall id :: id in pending && pending[id].vmId == US && Asked(requests, id) ==>
      id in heads && Buffered(id, heads[id], pending[id], reports)
  }

  ghost predicate HearingOk(g: Gateway, heads: map<ExecId, Head>, log: Log, heard: map<Socket, nat>) {
    US in g.connected ==>
      var k := g.connected[US];
      && Count(heard, k) <= |SentOn(log, k)|
      && Hearing(heads, g.pending, SentOn(g.wire, k), Upto(SentOn(log, k), Count(heard, k)))
  }

  /** Whatever a caller got of our VM is, but for the head it missed, a result recorded for the id asked about. */
  ghost predicate ToldOk(asks: map<Call, Ask>, outcomes: map<Call, Outcome>, missed: map<Call, Head>, recorded: Recorded) {
    forall c :: c in outcomes && c in asks && asks[c].vmId == US ==>
      OutcomeOk(asks[c].execId, outcomes[c], MissedOf(missed, c), recorded)
  }

  ghost predicate OutcomeOk(id: ExecId, outcome: Outcome, head: Head, recorded: Recorded) {
    outcome.Resolved? && outcome.result.Some? ==> (id, WithHead(head, outcome.result.value)) in recorded
  }

  ghost predicate Inv(s: System) {
    && Valid(s.g)
    && SocketsOk(s.g, s.ours, s.used)
    && AllTaken(s.g.wire, s.ours, s.taken, s.known)
    && VmInv(s.vm, s.known)
    && Ledger(s.vm)
    && HeardInBounds(s.vm.log, s.heard, s.ours)
    && HearingOk(s.g, s.heads, s.vm.log, s.heard)
    && ToldOk(s.g.asks, s.g.outcomes, s.missed, s.vm.recorded)
  }

  ghost predicate HeardInBounds(log: Log, heard: map<Socket, nat>, ours: set<Socket>) {
    heard.Keys <= ours && forall k :: k in heard ==> heard[k] <= |SentOn(log, k)|
  }

  lemma StartInv()
    ensures Inv(Start())
  {
  }

  // ---------------------------------------------------------------- Steps of the VM

  lemma VmStepKeeps(s: System, vm': Vm)
    requires Inv(s) && VmInv(vm', s.known) && Ledger(vm') && Grows(s.vm, vm')
    ensures Inv(s.(vm := vm'))
  {
    hide VmInv, Ledger, Valid, Hearing, AllTaken, SocketsOk;
    GrowingKeeps(s, vm');
    hide HearingOk, ToldOk, HeardInBounds;
  }

  /** What the gateway heard and told stands when the VM says and records more. */
  lemma GrowingKeeps(s: System, vm': Vm)
    requires HearingOk(s.g, s.heads, s.vm.log, s.heard) && ToldOk(s.g.asks, s.g.outcomes, s.missed, s.vm.recorded)
    requires HeardInBounds(s.vm.log, s.heard, s.ours) && Grows(s.vm, vm')
    ensures HearingOk(s.g, s.heads, vm'.log, s.heard) && ToldOk(s.g.asks, s.g.outcomes, s.missed, vm'.recorded)
    ensures HeardInBounds(vm'.log, s.heard, s.ours)
  {
    assert forall x :: x in s.vm.recorded ==> x in vm'.recorded;
    hide Hearing, WithHead, MissedOf;
    if US in s.g.connected {
      var k := s.g.connected[US];
      var n := Count(s.heard, k);
      assert SentOn(s.vm.log, k) <= SentOn(vm'.log, k);
      assert Upto(SentOn(vm'.log, k), n) == Upto(SentOn(s.vm.log, k), n);
    }
    forall k | k in s.heard ensures s.heard[k] <= |SentOn(vm'.log, k)| {
      assert SentOn(s.vm.log, k) <= SentOn(vm'.log, k);
    }
  }

  lemma TakingKeepsTaken(s: System, socket: Socket)
    requires AllTaken(s.g.wire, s.ours, s.taken, s.known) && Allowed(s, VmTakes(socket))
    ensures var s' := TakeNext(s, socket); AllTaken(s'.g.wire, s'.ours, s'.taken, s'.known)
  {
    var n := Count(s.taken, socket);
    assert Asked(SentOn(s.g.wire, socket), SentOn(s.g.wire, socket)[n].execId);
    hide Asked;
  }

  lemma VmTakesKeeps(s: System, socket: Socket)
    requires Inv(s) && Allowed(s, VmTakes(socket))
    ensures Inv(TakeNext(s, socket))
  {
    var s', request := TakeNext(s, socket), s.g.wire[socket][Count(s.taken, socket)];
    TakingKeepsTaken(s, socket);
    hide HearingOk, HeardInBounds, ToldOk, AllTaken, SocketsOk, Valid, VmInv, Ledger, TakeRequest;
    TakeKeeps(s.vm, socket, request, s.known);
    TakeLedger(s.vm, socket, request);
    GrowingKeeps(s, s'.vm);
  }

  // ---------------------------------------------------------------- Steps of the gateway

  /** What stays in flight is heard as before. */
  lemma HearingStays(g: Gateway, g': Gateway, heads: map<ExecId, Head>, log: Log, heard: map<Socket, nat>)
    requires HearingOk(g, heads, log, heard) && g'.connected == g.connected && g'.wire == g.wire
    requires forall id :: id in g'.pending && g'.pending[id].vmId == US ==> id in g.pending && g'.pending[id] == g.pending[id]
    ensures HearingOk(g', heads, log, heard)
  {
    hide Buffered, Asked;
  }

  /** A command settled, with something that is so. */
  lemma SettleKeepsInv(s: System, id: ExecId, outcome: Outcome, missed': map<Call, Head>)
    requires Inv(s) && !outcome.Waiting?
    requires id in s.g.pending && s.g.pending[id].vmId == US ==>
               forall c :: c in s.g.pending[id].waiters ==> OutcomeOk(id, outcome, MissedOf(missed', c), s.vm.recorded)
    requires forall c :: (id in s.g.pending && c in s.g.pending[id].waiters) || MissedOf(missed', c) == MissedOf(s.missed, c)
    ensures Inv(s.(g := Settle(s.g, id, outcome), missed := missed'))
  {
    var g' := Settle(s.g, id, outcome);
    SettleKeeps(s.g, id, outcome);
    SettleTells(s, id, outcome, missed');
    SettleSendsNothing(s.g, id, outcome);
    hide Valid, AllTaken, VmInv, Ledger, HeardInBounds, HearingOk, ToldOk, Settle;
    HearingStays(s.g, g', s.heads, s.vm.log, s.heard);
  }

  lemma SettleTells(s: System, id: ExecId, outcome: Outcome, missed': map<Call, Head>)
    requires Inv(s) && !outcome.Waiting?
    requires id in s.g.pending && s.g.pending[id].vmId == US ==>
               forall c :: c in s.g.pending[id].waiters ==> OutcomeOk(id, outcome, MissedOf(missed', c), s.vm.recorded)
    requires forall c :: (id in s.g.pending && c in s.g.pending[id].waiters) || MissedOf(missed', c) == MissedOf(s.missed, c)
    ensures var g' := Settle(s.g, id, outcome); ToldOk(g'.asks, g'.outcomes, missed', s.vm.recorded)
  {
    var g' := Settle(s.g, id, outcome);
    hide SocketsOk, AllTaken, VmInv, Ledger, HeardInBounds, HearingOk, OutcomeOk, MissedOf;
    forall c | c in g'.outcomes && c in g'.asks && g'.asks[c].vmId == US
      ensures OutcomeOk(g'.asks[c].execId, g'.outcomes[c], MissedOf(missed', c), s.vm.recorded)
    {
      if id in s.g.pending { assert AllWait(s.g.asks, s.g.outcomes, id, s.g.pending[id]); }
      assert OutcomeOk(s.g.asks[c].execId, s.g.outcomes[c], MissedOf(s.missed, c), s.vm.recorded);
    }
  }

  lemma TimeoutKeeps(s: System, id: ExecId)
    requires Inv(s)
    ensures Inv(s.(g := Settle(s.g, id, Rejected(Unreachable))))
  {
    hide Inv, MissedOf;
    SettleKeepsInv(s, id, Rejected(Unreachable), s.missed);
  }

  lemma ConnectKeeps(s: System, step: Step, d: Decoder)
    requires Inv(s) && step.Connect? && Allowed(s, step)
    ensures Inv(Next(s, step, d))
  {
    var s', k := Next(s, step, d), step.socket;
    SocketIsNew(s, k);
    assert AllTaken(s'.g.wire, s'.ours, s'.taken, s'.known) by { hide SocketsOk, VmInv, Ledger, HearingOk, ToldOk, Valid, Asked; }
    assert HearingOk(s'.g, s'.heads, s'.vm.log, s'.heard) by { hide AllTaken, VmInv, Ledger, ToldOk, Valid, Buffered; }
    assert Valid(s'.g) by { hide SocketsOk, AllTaken, VmInv, Ledger, HearingOk, ToldOk, AllWait; }
    hide AllTaken, VmInv, Ledger, HearingOk, ToldOk, Valid;
  }

  /** Nothing was sent or heard on a socket that was never used. */
  lemma SocketIsNew(s: System, k: Socket)
    requires Inv(s) && k !in s.used
    ensures SentOn(s.g.wire, k) == [] && Count(s.heard, k) == 0 && Count(s.taken, k) == 0
  {
    hide VmInv, Ledger, HearingOk, ToldOk, Valid, Asked;
  }

  lemma DisconnectKeeps(s: System, vmId: VmId)
    requires Inv(s)
    ensures Inv(s.(g := s.g.(connected := s.g.connected - {vmId})))
  {
    var g' := s.g.(connected := s.g.connected - {vmId});
    assert Valid(g') by { hide AllWait, SocketsOk, AllTaken, VmInv, Ledger, HeardInBounds, HearingOk, ToldOk; }
    hide AllTaken, VmInv, Ledger, ToldOk, Valid, Hearing, HeardInBounds;
  }

  lemma CloseVmKeepsInv(s: System, vmId: VmId)
    requires Inv(s)
    ensures Inv(s.(g := CloseVm(s.g, vmId)))
  {
    var g' := CloseVm(s.g, vmId);
    CloseVmKeeps(s.g, vmId);
    assert HearingOk(g', s.heads, s.vm.log, s.heard) by {
      hide AllTaken, VmInv, Ledger, ToldOk, Valid, HearingOk;
      HearingStays(s.g, g', s.heads, s.vm.log, s.heard);
    }
    assert ToldOk(g'.asks, g'.outcomes, s.missed, s.vm.recorded) by {
      hide SocketsOk, AllTaken, VmInv, Ledger, HeardInBounds, HearingOk, Valid, WithHead, MissedOf;
    }
    hide AllTaken, VmInv, Ledger, HearingOk, ToldOk, Valid, HeardInBounds;
  }

  lemma CloseKeeps(s: System, vmId: VmId, socket: Socket)
    requires Inv(s)
    ensures Inv(s.(g := CloseSocket(s.g, vmId, socket)))
  {
    hide Inv, CloseVm;
    if vmId in s.g.connected && s.g.connected[vmId] == socket {
      DisconnectKeeps(s, vmId);
      CloseVmKeepsInv(s.(g := s.g.(connected := s.g.connected - {vmId})), vmId);
    } else {
      CloseVmKeepsInv(s, vmId);
    }
  }

  // ---------------------------------------------------------------- A new call

  lemma AskTold(g: Gateway, call: Call, vmId: VmId, request: Request, missed: map<Call, Head>, recorded: Recorded)
    requires Valid(g) && call !in g.asks && ToldOk(g.asks, g.outcomes, missed, recorded)
    ensures var g' := Track(g, call, vmId, request); ToldOk(g'.asks, g'.outcomes, missed, recorded)
  {
    hide AllWait, WithHead, MissedOf;
  }

  lemma AskTaken(s: System, call: Call, vmId: VmId, request: Request)
    requires SocketsOk(s.g, s.ours, s.used) && AllTaken(s.g.wire, s.ours, s.taken, s.known)
    ensures var g' := Track(s.g, call, vmId, request);
            SocketsOk(g', s.ours, s.used) && AllTaken(g'.wire, s.ours, s.taken, s.known)
  {
    var g' := Track(s.g, call, vmId, request);
    if g'.wire != s.g.wire {
      AskedMore(SentOn(s.g.wire, s.g.connected[vmId]), request);
    }
    hide Asked;
  }

  lemma AskHears(s: System, call: Call, vmId: VmId, request: Request)
    requires Inv(s)
    ensures var s' := AskNext(s, call, vmId, request); HearingOk(s'.g, s'.heads, s.vm.log, s.heard)
  {
    if US in s.g.connected {
      var k := s.g.connected[US];
      assert vmId != US && vmId in s.g.connected ==> s.g.connected[vmId] != k by {
        hide Valid, AllTaken, VmInv, Ledger, HearingOk, ToldOk, HeardInBounds;
      }
      hide Inv, Asked, Hearing, HeadOf;
      HearingOf(s);
      AskHearing(s.g, s.heads, call, vmId, request, Heard(s));
      hide Track;
    }
  }

  /** What a call makes of our VM's commands in flight: it joins one, or starts one with nothing in its buffers, or neither. */
  lemma TrackOurs(g: Gateway, call: Call, vmId: VmId, request: Request)
    requires US in g.connected && (vmId != US && vmId in g.connected ==> g.connected[vmId] != g.connected[US])
    ensures var g', k, id := Track(g, call, vmId, request), g.connected[US], request.execId;
            && g'.connected == g.connected
            && (forall i :: i in g'.pending && i != id ==> i in g.pending && g'.pending[i] == g.pending[i])
            && (if vmId == US && WouldSend(g, id) then
                  && id in g'.pending && g'.pending[id].stdout == [] && g'.pending[id].stderr == []
                  && SentOn(g'.wire, k) == SentOn(g.wire, k) + [request]
                else
                  && SentOn(g'.wire, k) == SentOn(g.wire, k)
                  && (id in g'.pending && g'.pending[id].vmId == US ==>
                        && id in g.pending && g.pending[id].vmId == US
                        && g'.pending[id].stdout == g.pending[id].stdout && g'.pending[id].stderr == g.pending[id].stderr))
  {
  }

  /** The request is sent with nothing in its buffers: what was heard of the command is the head. */
  lemma AskHearing(g: Gateway, heads: map<ExecId, Head>, call: Call, vmId: VmId, request: Request, reports: seq<Report>)
    requires US in g.connected && Hearing(heads, g.pending, SentOn(g.wire, g.connected[US]), reports)
    requires vmId != US && vmId in g.connected ==> g.connected[vmId] != g.connected[US]
    ensures var g' := Track(g, call, vmId, request);
            && g'.connected == g.connected
            && Hearing(if vmId == US && WouldSend(g, request.execId) then heads[request.execId := HeadOf(reports, request.execId)]
                       else heads,
                       g'.pending, SentOn(g'.wire, g'.connected[US]), reports)
  {
    var g', k, id := Track(g, call, vmId, request), g.connected[US], request.execId;
    var heads' := if vmId == US && WouldSend(g, id) then heads[id := HeadOf(reports, id)] else heads;
    hide Asked, HeadOf, Track, Join, SentOn, WouldSend;
    AskedMore(SentOn(g.wire, k), request);
    TrackOurs(g, call, vmId, request);
    forall i | i in g'.pending && g'.pending[i].vmId == US && Asked(SentOn(g'.wire, k), i)
      ensures i in heads' && Buffered(i, heads'[i], g'.pending[i], reports)
    {
      if i == id && vmId == US && WouldSend(g, id) {
        NothingBuffered(id, HeadOf(reports, id), g'.pending[id], reports);
      } else {
        assert Buffered(i, heads[i], g.pending[i], reports);
      }
    }
  }

  lemma NothingBuffered(id: ExecId, head: Head, p: Pending, reports: seq<Report>)
    requires p.stdout == [] && p.stderr == [] && head == HeadOf(reports, id)
    ensures Buffered(id, head, p, reports)
  {
    hide HeadOf;
    assert head.stdout + "" == head.stdout && head.stderr + "" == head.stderr;
  }

  lemma AskedMore(requests: seq<Request>, request: Request)
    ensures forall id :: Asked(requests + [request], id) <==> Asked(requests, id) || id == request.execId
  {
    assert (requests + [request])[|requests|] == request;
    assert forall i :: 0 <= i < |requests| ==> (requests + [request])[i] == requests[i];
  }

  lemma HearingOf(s: System)
    requires Inv(s) && US in s.g.connected
    ensures var k := s.g.connected[US];
            && Hearing(s.heads, s.g.pending, SentOn(s.g.wire, k), Heard(s))
            && Count(s.heard, k) <= |SentOn(s.vm.log, k)|
  {
    hide Valid, AllTaken, VmInv, Ledger, ToldOk, Hearing;
  }

  /** What the VM says on our socket, it says of an id asked about there. */
  lemma SaidIsAsked(s: System, k: Socket, id: ExecId)
    requires Inv(s) && k in s.ours && Said(SentOn(s.vm.log, k), id)
    ensures Asked(SentOn(s.g.wire, k), id)
  {
    hide Valid, SocketsOk, Ledger, HearingOk, ToldOk, AllTrue, RecordsOk, HeardInBounds;
    assert k in s.vm.log;
    hide Said;
    assert (k, id) in s.known;
  }

  lemma OursIsLive(s: System)
    requires Inv(s) && US in s.g.connected
    ensures s.g.connected[US] in s.ours
  {
    hide Valid, AllTaken, VmInv, Ledger, HearingOk, ToldOk, HeardInBounds;
  }

  lemma AskKeeps(s: System, call: Call, vmId: VmId, request: Request)
    requires Inv(s) && Allowed(s, Asks(call, vmId, request))
    ensures Inv(AskNext(s, call, vmId, request))
  {
    AskHears(s, call, vmId, request);
    hide VmInv, Ledger, HeardInBounds, HearingOk, ToldOk, Valid, AllTaken, SocketsOk, Track, HeadOf, Heard;
    TrackKeeps(s.g, call, vmId, request);
    AskTold(s.g, call, vmId, request, s.missed, s.vm.recorded);
    AskTaken(s, call, vmId, request);
  }

  // ---------------------------------------------------------------- A report is heard

  /** The next report, unless it is an exit, extends the text of its own stream and no other. */
  lemma HeardOneMore(reports: seq<Report>, n: nat, id: ExecId, pipe: Pipe)
    requires n < |reports| && (reports[n].Exit? ==> reports[n].execId != id)
    ensures Since(Upto(reports, n + 1), id, pipe) == Since(Upto(reports, n), id, pipe) + Part(reports[n], id, pipe)
  {
    assert reports[..n + 1] == reports[..n] + [reports[n]];
    SinceOne(reports[..n], reports[n], id, pipe);
  }

  /** Only what is in flight, and how far the gateway has heard, changes. */
  lemma HearingKeeps(s: System, pending': map<ExecId, Pending>, heard': map<Socket, nat>)
    requires Inv(s) && Valid(s.g.(pending := pending')) && HeardInBounds(s.vm.log, heard', s.ours)
    requires HearingOk(s.g.(pending := pending'), s.heads, s.vm.log, heard')
    ensures Inv(s.(g := s.g.(pending := pending'), heard := heard'))
  {
    hide VmInv, Ledger, HeardInBounds, HearingOk, ToldOk, Valid, AllTaken;
  }

  lemma ValidOf(s: System)
    requires Inv(s)
    ensures Valid(s.g)
  {
    hide VmInv, Ledger, HeardInBounds, HearingOk, ToldOk, Valid, AllTaken, SocketsOk;
  }

  lemma HearOutput(s: System)
    requires Inv(s) && Allowed(s, Deliver)
    requires var k := s.g.connected[US]; s.vm.log[k][Count(s.heard, k)].Output?
    ensures Inv(HearNext(s))
  {
    hide Inv, Valid, HeardInBounds, Hearing;
    var s', k := HearNext(s), s.g.connected[US];
    var reports, n := SentOn(s.vm.log, k), Count(s.heard, k);
    ValidOf(s);
    HandleKeeps(s.g, US, reports[n]);
    HearingOf(s);
    HeardBounds(s);
    HearsOutput(s.g, s.heads, reports, n, SentOn(s.g.wire, k));
    HearingKeeps(s, s'.g.pending, s'.heard);
  }

  lemma HearsOutput(g: Gateway, heads: map<ExecId, Head>, reports: seq<Report>, n: nat, requests: seq<Request>)
    requires n < |reports| && reports[n].Output? && Hearing(heads, g.pending, requests, Upto(reports, n))
    ensures Hearing(heads, Handle(g, US, reports[n]).pending, requests, Upto(reports, n + 1))
  {
    var pending' := Handle(g, US, reports[n]).pending;
    hide Asked, Buffered, Join;
    forall i | i in pending' && pending'[i].vmId == US && Asked(requests, i)
      ensures i in heads && Buffered(i, heads[i], pending'[i], Upto(reports, n + 1))
    {
      assert Buffered(i, heads[i], g.pending[i], Upto(reports, n));
      StaysBuffered(i, heads[i], g.pending[i], reports, n);
    }
  }

  /** A caller's buffers with one more report of its command. */
  function Fed(p: Pending, id: ExecId, report: Report): Pending {
    if !report.Output? || report.execId != id then p
    else if report.pipe.Stdout? then p.(stdout := p.stdout + [report.data])
    else p.(stderr := p.stderr + [report.data])
  }

  lemma FedJoins(p: Pending, id: ExecId, report: Report)
    ensures Join(Fed(p, id, report).stdout) == Join(p.stdout) + Part(report, id, Stdout)
    ensures Join(Fed(p, id, report).stderr) == Join(p.stderr) + Part(report, id, Stderr)
  {
    if report.Output? {
      JoinOne(p.stdout, report.data);
      JoinOne(p.stderr, report.data);
    }
    hide Join;
  }

  lemma StaysBuffered(id: ExecId, head: Head, p: Pending, reports: seq<Report>, n: nat)
    requires n < |reports| && Buffered(id, head, p, Upto(reports, n)) && (reports[n].Exit? ==> reports[n].execId != id)
    ensures Buffered(id, head, Fed(p, id, reports[n]), Upto(reports, n + 1))
  {
    HeardOneMore(reports, n, id, Stdout);
    HeardOneMore(reports, n, id, Stderr);
    FedJoins(p, id, reports[n]);
    hide Since, Part, Join, Fed, Upto;
    Texts.Regroup(head.stdout, Join(p.stdout), Part(reports[n], id, Stdout));
    Texts.Regroup(head.stderr, Join(p.stderr), Part(reports[n], id, Stderr));
  }

  lemma HeardBounds(s: System)
    requires Inv(s) && Allowed(s, Deliver)
    ensures HeardInBounds(s.vm.log, s.heard[s.g.connected[US] := Count(s.heard, s.g.connected[US]) + 1], s.ours)
  {
    OursIsLive(s);
    hide VmInv, Ledger, HearingOk, ToldOk, Valid, AllTaken, SocketsOk, Handle;
  }

  /** A report that ends a command: what the gateway makes of it was recorded, but for the head. */
  lemma EndIsRecorded(s: System)
    requires Inv(s) && Allowed(s, Deliver)
    requires var k := s.g.connected[US];
             var report := s.vm.log[k][Count(s.heard, k)];
             !report.Output? && report.execId in s.g.pending && s.g.pending[report.execId].vmId == US
    ensures var k := s.g.connected[US];
            var report := s.vm.log[k][Count(s.heard, k)];
            var p := s.g.pending[report.execId];
            && report.execId in s.heads
            && (report.Exit? ==>
                  (report.execId, WithHead(s.heads[report.execId],
                     ExecResult(Join(p.stdout), Join(p.stderr), report.exitCode, report.timedOut, report.truncated)))
                  in s.vm.recorded)
            && (report.Found? ==> (report.execId, report.result) in s.vm.recorded)
  {
    var k := s.g.connected[US];
    var reports, n := s.vm.log[k], Count(s.heard, k);
    var id := reports[n].execId;
    assert TrueAt(reports, n, s.vm.recorded) by { hide Valid, SocketsOk, AllTaken, Ledger, HearingOk, ToldOk, RecordsOk, Backed, Streams; }
    OursIsLive(s);
    HearingOf(s);
    hide Inv, Since;
    assert Said(reports, id);
    SaidIsAsked(s, k, id);
    assert Buffered(id, s.heads[id], s.g.pending[id], Upto(reports, n));
  }

  /** The report is past; what it leaves of the callers is to be heard from after it. */
  lemma HearPast(s: System, g': Gateway, missed': map<Call, Head>)
    requires Inv(s) && Allowed(s, Deliver) && Inv(s.(g := g', missed := missed'))
    requires var k := s.g.connected[US];
             var report := s.vm.log[k][Count(s.heard, k)];
             && g'.connected == s.g.connected && g'.wire == s.g.wire
             && (report.execId !in g'.pending || g'.pending[report.execId].vmId != US)
    ensures Inv(s.(g := g', missed := missed', heard := s.heard[s.g.connected[US] := Count(s.heard, s.g.connected[US]) + 1]))
  {
    hide Inv, Hearing, HearingOk, HeardInBounds;
    HeardBounds(s);
    HearsPast(s.(g := g', missed := missed'));
    HeardMore(s.(g := g', missed := missed'), s.heard[s.g.connected[US] := Count(s.heard, s.g.connected[US]) + 1]);
  }

  lemma HearsPast(s: System)
    requires Inv(s) && Allowed(s, Deliver)
    requires var report := s.vm.log[s.g.connected[US]][Count(s.heard, s.g.connected[US])];
             report.execId !in s.g.pending || s.g.pending[report.execId].vmId != US
    ensures HearingOk(s.g, s.heads, s.vm.log, s.heard[s.g.connected[US] := Count(s.heard, s.g.connected[US]) + 1])
  {
    var k := s.g.connected[US];
    var n := Count(s.heard, k);
    hide Inv, Hearing, HearingOk;
    HearingOf(s);
    HearsEnd(s.g.pending, s.heads, SentOn(s.vm.log, k), n, SentOn(s.g.wire, k));
    StillHearing(s.g, s.heads, s.vm.log, s.heard[k := n + 1], n + 1);
  }

  lemma HeardMore(s: System, heard': map<Socket, nat>)
    requires Inv(s) && HeardInBounds(s.vm.log, heard', s.ours) && HearingOk(s.g, s.heads, s.vm.log, heard')
    ensures Inv(s.(heard := heard'))
  {
    hide VmInv, Ledger, HeardInBounds, HearingOk, ToldOk, Valid, AllTaken, SocketsOk;
  }

  lemma StillHearing(g: Gateway, heads: map<ExecId, Head>, log: Log, heard: map<Socket, nat>, n: nat)
    requires US in g.connected && Count(heard, g.connected[US]) == n <= |SentOn(log, g.connected[US])|
    requires Hearing(heads, g.pending, SentOn(g.wire, g.connected[US]), Upto(SentOn(log, g.connected[US]), n))
    ensures HearingOk(g, heads, log, heard)
  {
    hide Hearing;
  }

  lemma HearsEnd(pending: map<ExecId, Pending>, heads: map<ExecId, Head>, reports: seq<Report>, n: nat, requests: seq<Request>)
    requires n < |reports| && Hearing(heads, pending, requests, Upto(reports, n))
    requires reports[n].execId !in pending || pending[reports[n].execId].vmId != US
    ensures Hearing(heads, pending, requests, Upto(reports, n + 1))
  {
    hide Asked, Buffered, Join;
    forall i | i in pending && pending[i].vmId == US && Asked(requests, i)
      ensures i in heads && Buffered(i, heads[i], pending[i], Upto(reports, n + 1))
    {
      assert Buffered(i, heads[i], pending[i], Upto(reports, n));
      StaysBuffered(i, heads[i], pending[i], reports, n);
    }
  }

  lemma SettleSendsNothing(g: Gateway, id: ExecId, outcome: Outcome)
    ensures var g' := Settle(g, id, outcome);
            && g'.connected == g.connected && g'.wire == g.wire
            && forall i :: i in g'.pending ==> i in g.pending && g'.pending[i] == g.pending[i]
  {
  }

  lemma DeliverKeeps(s: System)
    requires Inv(s) && Allowed(s, Deliver)
    ensures Inv(HearNext(s))
  {
    hide Inv, Join, Settle, MissedOf, WithHead;
    var k := s.g.connected[US];
    var report := s.vm.log[k][Count(s.heard, k)];
    var id, g', missed' := report.execId, Handle(s.g, US, report), Misses(s, report);
    if id !in s.g.pending || s.g.pending[id].vmId != US {
      assert s.(g := g', missed := missed') == s;
      HearPast(s, g', missed');
    } else if report.Output? {
      HearOutput(s);
    } else {
      EndIsRecorded(s);
      var p := s.g.pending[id];
      var outcome := match report
                     case Exit(_, exitCode, timedOut, truncated) =>
                       Resolved(Some(ExecResult(Join(p.stdout), Join(p.stderr), exitCode, timedOut, truncated)))
                     case Found(_, result) => Resolved(Some(result))
                     case _ => if p.fetchOnly then Resolved(None) else Rejected(Unreachable);
      SettleSendsNothing(s.g, id, outcome);
      MissesHead(s, report);
      if report.Found? { HeadlessIsWhole(report.result); }
      SettleKeepsInv(s, id, outcome, missed');
      assert g' == Settle(s.g, id, outcome);
      assert id !in g'.pending by { SettledIsGone(s.g, id, outcome); }
      HearPast(s, g', missed');
    }
  }

  lemma SettledIsGone(g: Gateway, id: ExecId, outcome: Outcome)
    ensures id !in Settle(g, id, outcome).pending
  {
  }

  lemma HeadlessIsWhole(r: ExecResult)
    ensures WithHead(NOTHING, r) == r
  {
  }

  /** What each call misses after a report that ends a command. */
  lemma MissesHead(s: System, report: Report)
    requires !report.Output? && report.execId in s.g.pending && s.g.pending[report.execId].vmId == US && report.execId in s.heads
    ensures var missed', waiters := Misses(s, report), s.g.pending[report.execId].waiters;
            && (forall c :: c in waiters ==> MissedOf(missed', c) == if report.Exit? then s.heads[report.execId] else NOTHING)
            && (forall c :: c in waiters || MissedOf(missed', c) == MissedOf(s.missed, c))
  {
  }

  lemma DeliverOtherKeeps(s: System, vmId: VmId, report: Report)
    requires Inv(s) && vmId != US
    ensures Inv(s.(g := Handle(s.g, vmId, report)))
  {
    var id, g' := report.execId, Handle(s.g, vmId, report);
    if id in s.g.pending && s.g.pending[id].vmId == vmId {
      if report.Output? {
        HandleKeeps(s.g, vmId, report);
        assert HearingOk(g', s.heads, s.vm.log, s.heard) by {
          hide AllTaken, VmInv, Ledger, ToldOk, Valid, HearingOk;
          HearingStays(s.g, g', s.heads, s.vm.log, s.heard);
        }
        hide VmInv, Ledger, HeardInBounds, HearingOk, ToldOk, Valid, AllTaken;
      } else {
        hide Inv, Join, MissedOf;
        var p := s.g.pending[id];
        SettleKeepsInv(s, id, match report
                              case Exit(_, exitCode, timedOut, truncated) =>
                                Resolved(Some(ExecResult(Join(p.stdout), Join(p.stderr), exitCode, timedOut, truncated)))
                              case Found(_, result) => Resolved(Some(result))
                              case _ => if p.fetchOnly then Resolved(None) else Rejected(Unreachable), s.missed);
      }
    }
  }

  // ---------------------------------------------------------------- Every step and every run

  lemma StepKeeps(s: System, step: Step, d: Decoder)
    requires Inv(s) && Allowed(s, step)
    ensures Inv(Next(s, step, d))
  {
    VmOf(s);
    hide Inv, VmInv, Ledger, Grows, Track, Settle, Handle, CloseSocket, Pump, PipeEnds, Exits, Forget, TakeNext, HearNext, AskNext;
    match step
    case Connect(_, _) => ConnectKeeps(s, step, d);
    case SocketCloses(vmId, socket) => CloseKeeps(s, vmId, socket);
    case Asks(call, vmId, request) => AskKeeps(s, call, vmId, request);
    case Deliver => DeliverKeeps(s);
    case DeliverOther(vmId, report) => DeliverOtherKeeps(s, vmId, report);
    case Timeout(id) => TimeoutKeeps(s, id);
    case VmTakes(socket) => VmTakesKeeps(s, socket);
    case VmPumps(id, pipe, chunk) =>
      PumpKeeps(s.vm, id, pipe, chunk, d, s.known);
      PumpLedger(s.vm, id, pipe, chunk, d);
      VmStepKeeps(s, Next(s, step, d).vm);
    case VmPipeEnds(id, pipe) =>
      PipeEndsKeeps(s.vm, id, pipe, d, s.known);
      PumpLedger(s.vm, id, pipe, [], d);
      VmStepKeeps(s, Next(s, step, d).vm);
    case VmExits(id, exitCode, elapsedMs) =>
      ExitsKeeps(s.vm, id, exitCode, elapsedMs, s.known);
      ExitsLedger(s.vm, id, exitCode, elapsedMs);
      VmStepKeeps(s, Next(s, step, d).vm);
    case VmForgets(id) =>
      ForgetKeeps(s.vm, id, s.known);
      ForgetLedger(s.vm, id);
      VmStepKeeps(s, Next(s, step, d).vm);
  }

  lemma VmOf(s: System)
    requires Inv(s)
    ensures VmInv(s.vm, s.known) && Ledger(s.vm)
  {
    hide VmInv, Ledger, HeardInBounds, HearingOk, ToldOk, Valid, AllTaken, SocketsOk;
  }

  lemma {:induction false} RunKeeps(s: System, steps: seq<Step>, d: Decoder)
    requires Inv(s) && Legal(s, steps, d)
    ensures Inv(After(s, steps, d))
    decreases |steps|
  {
    if steps == [] {
    } else {
      StepKeeps(s, steps[0], d);
      hide Inv, Next, Allowed;
      RunKeeps(Next(s, steps[0], d), steps[1..], d);
    }
  }
}
