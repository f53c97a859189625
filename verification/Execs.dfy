/**
 * Commands on VMs, the gateway's half: what is in flight by id, who waits on it,
 * and what each caller is told.
 */
module Execs {
  import opened Wrappers

  type ExecId = nat
  type VmId = nat
  type Socket = nat
  /** One call of `run` or `fetch`. */
  type Call = nat

  datatype ExecResult = ExecResult(stdout: string, stderr: string, exitCode: int, timedOut: bool, truncated: bool)

  datatype Pipe = Stdout | Stderr

  datatype Request = Exec(execId: ExecId, cmd: string, timeoutMs: nat) | Fetch(execId: ExecId)

  datatype Report =
    | Output(execId: ExecId, pipe: Pipe, data: string)
    | Exit(execId: ExecId, exitCode: int, timedOut: bool, truncated: bool)
    | Found(execId: ExecId, result: ExecResult)
    | NotFound(execId: ExecId)

  datatype Why = Unavailable | Unreachable

  datatype Outcome = Waiting | Resolved(result: Option<ExecResult>) | Rejected(why: Why)

  /** A command in flight. `waiters` are the calls that hold its promise. */
  datatype Pending = Pending(vmId: VmId, stdout: seq<string>, stderr: seq<string>, fetchOnly: bool, waiters: seq<Call>)

  datatype Ask = Ask(vmId: VmId, execId: ExecId, fetchOnly: bool)

  datatype Gateway = Gateway(
    pending: map<ExecId, Pending>,
    asks: map<Call, Ask>,
    outcomes: map<Call, Outcome>,
    connected: map<VmId, Socket>,
    wire: map<Socket, seq<Request>>)

  function Join(parts: seq<string>): string {
    if parts == [] then "" else Join(parts[..|parts| - 1]) + parts[|parts| - 1]
  }

  // ---------------------------------------------------------------- Operations on the whole state

  function Settle(g: Gateway, id: ExecId, outcome: Outcome): Gateway {
    if id !in g.pending then g
    else
      g.(pending := g.pending - {id},
         outcomes := map c | c in g.outcomes :: if c in g.pending[id].waiters then outcome else g.outcomes[c])
  }

  function SentOn<T>(log: map<Socket, seq<T>>, socket: Socket): seq<T> {
    if socket in log then log[socket] else []
  }

  /** Sends `request` and waits on its id, joining anyone already waiting on it. */
  function Track(g: Gateway, call: Call, vmId: VmId, request: Request): Gateway {
    var id := request.execId;
    var g' := g.(asks := g.asks[call := Ask(vmId, id, request.Fetch?)]);
    if id in g.pending && g.pending[id].vmId == vmId then
      g'.(pending := g.pending[id := g.pending[id].(waiters := g.pending[id].waiters + [call])],
          outcomes := g.outcomes[call := Waiting])
    else if vmId !in g.connected then g'.(outcomes := g.outcomes[call := Rejected(Unavailable)])
    else
      var socket := g.connected[vmId];
      g'.(wire := g.wire[socket := SentOn(g.wire, socket) + [request]],
          pending := g.pending[id := Pending(vmId, [], [], request.Fetch?, [call])],
          outcomes := g.outcomes[call := Waiting])
  }

  function Handle(g: Gateway, vmId: VmId, report: Report): Gateway {
    var id := report.execId;
    if id !in g.pending || g.pending[id].vmId != vmId then g
    else
      var p := g.pending[id];
      match report
      case Output(_, pipe, data) =>
        g.(pending := g.pending[id := if pipe.Stdout? then p.(stdout := p.stdout + [data]) else p.(stderr := p.stderr + [data])])
      case Exit(_, exitCode, timedOut, truncated) =>
        Settle(g, id, Resolved(Some(ExecResult(Join(p.stdout), Join(p.stderr), exitCode, timedOut, truncated))))
      case Found(_, result) => Settle(g, id, Resolved(Some(result)))
      case NotFound(_) => Settle(g, id, if p.fetchOnly then Resolved(None) else Rejected(Unreachable))
  }

  /** A VM's socket closed: its commands fail now. */
  function CloseVm(g: Gateway, vmId: VmId): Gateway {
    g.(pending := map id | id in g.pending && g.pending[id].vmId != vmId :: g.pending[id],
       outcomes := map c | c in g.outcomes ::
         if c in g.asks && OnVm(g, vmId, g.asks[c].execId, c) then Rejected(Unavailable) else g.outcomes[c])
  }

  predicate OnVm(g: Gateway, vmId: VmId, id: ExecId, c: Call) {
    id in g.pending && g.pending[id].vmId == vmId && c in g.pending[id].waiters
  }

  /** What the caller sees: to `run`, a missing result is an error. */
  function Seen(ask: Ask, outcome: Outcome): Outcome {
    if !ask.fetchOnly && outcome == Resolved(None) then Rejected(Unreachable) else outcome
  }

  /** A result the VM does not have is an answer to a fetch, and an error to a run. */
  lemma MissingIsAnError(ask: Ask, outcome: Outcome)
    ensures Seen(ask, outcome) == Resolved(None) <==> ask.fetchOnly && outcome == Resolved(None)
    ensures Seen(ask, outcome) != outcome <==> !ask.fetchOnly && outcome == Resolved(None)
    ensures Seen(ask, outcome) != outcome ==> Seen(ask, outcome) == Rejected(Unreachable)
  {
  }

  // ---------------------------------------------------------------- Every waiter is settled once

  predicate Attached(g: Gateway, c: Call) {
    c in g.asks && g.asks[c].execId in g.pending && c in g.pending[g.asks[c].execId].waiters
  }

  predicate Told(g: Gateway, c: Call) {
    c in g.outcomes && !g.outcomes[c].Waiting?
  }

  ghost predicate Valid(g: Gateway) {
    && g.asks.Keys == g.outcomes.Keys
    && (forall id :: id in g.pending ==> AllWait(g.asks, g.outcomes, id, g.pending[id]))
  }

  /** Those who hold the promise of a command asked for it, and wait. */
  ghost predicate AllWait(asks: map<Call, Ask>, outcomes: map<Call, Outcome>, id: ExecId, p: Pending) {
    forall c :: c in p.waiters ==>
      c in asks && c in outcomes && asks[c].execId == id && asks[c].vmId == p.vmId && outcomes[c].Waiting?
  }

  /** A call that takes over an id in flight on another VM: whoever waited there is never told. */
  predicate Displaces(g: Gateway, vmId: VmId, request: Request, c: Call) {
    vmId in g.connected && c in g.asks && g.asks[c].execId == request.execId && Attached(g, c) && g.asks[c].vmId != vmId
  }

  /** What is told stays, who waits goes on waiting or is told, and who was displaced is never told. */
  ghost predicate Keeps(g: Gateway, g': Gateway) {
    forall c :: c in g.outcomes ==>
      && c in g'.outcomes && c in g.asks && c in g'.asks && g'.asks[c] == g.asks[c]
      && (Told(g, c) ==> g'.outcomes[c] == g.outcomes[c])
      && (Attached(g, c) ==> Attached(g', c) || Told(g', c))
      && (!Attached(g, c) && !Told(g, c) ==> !Attached(g', c) && !Told(g', c))
  }

  lemma SettleKeeps(g: Gateway, id: ExecId, outcome: Outcome)
    requires Valid(g) && !outcome.Waiting?
    ensures Valid(Settle(g, id, outcome)) && Keeps(g, Settle(g, id, outcome))
    ensures forall c :: id in g.pending && c in g.pending[id].waiters ==> Settle(g, id, outcome).outcomes[c] == outcome
  {
  }

  lemma AllGoOnWaiting(g: Gateway, id: ExecId, call: Call, ask: Ask, outcome: Outcome)
    requires Valid(g) && call !in g.asks && id in g.pending
    ensures AllWait(g.asks[call := ask], g.outcomes[call := outcome], id, g.pending[id])
  {
    assert AllWait(g.asks, g.outcomes, id, g.pending[id]);
  }

  /** One more call, told at once or waiting on the command at its id, which others may wait on too. */
  lemma OneMoreCall(g: Gateway, call: Call, ask: Ask, outcome: Outcome, p: Pending)
    requires Valid(g) && call !in g.asks && p.vmId == ask.vmId
    requires call in p.waiters ==> outcome.Waiting?
    requires forall c :: c in p.waiters && c != call ==>
               ask.execId in g.pending && c in g.pending[ask.execId].waiters && g.pending[ask.execId].vmId == p.vmId
    ensures var g1 := g.(asks := g.asks[call := ask], outcomes := g.outcomes[call := outcome]);
            Valid(g1) && Valid(g1.(pending := g.pending[ask.execId := p]))
  {
    var id, asks, outcomes := ask.execId, g.asks[call := ask], g.outcomes[call := outcome];
    assert AllWait(asks, outcomes, id, p) by {
      assert id in g.pending ==> AllWait(g.asks, g.outcomes, id, g.pending[id]);
    }
    forall i | i in g.pending ensures AllWait(asks, outcomes, i, g.pending[i]) {
      AllGoOnWaiting(g, i, call, ask, outcome);
    }
    hide AllWait;
  }

  lemma TrackValid(g: Gateway, call: Call, vmId: VmId, request: Request)
    requires Valid(g) && call !in g.asks
    ensures Valid(Track(g, call, vmId, request))
  {
    var id, ask := request.execId, Ask(vmId, request.execId, request.Fetch?);
    if id in g.pending && g.pending[id].vmId == vmId {
      OneMoreCall(g, call, ask, Waiting, g.pending[id].(waiters := g.pending[id].waiters + [call]));
    } else {
      OneMoreCall(g, call, ask, if vmId in g.connected then Waiting else Rejected(Unavailable),
                  Pending(vmId, [], [], request.Fetch?, if vmId in g.connected then [call] else []));
    }
    hide AllWait;
  }

  lemma TrackAttaches(g: Gateway, call: Call, vmId: VmId, request: Request, c: Call)
    requires Valid(g) && call !in g.asks && c in g.outcomes
    ensures Attached(Track(g, call, vmId, request), c) <==> Attached(g, c) && !Displaces(g, vmId, request, c)
  {
    var g', id := Track(g, call, vmId, request), request.execId;
    if g.asks[c].execId == id && id in g.pending && g.pending[id].vmId == vmId {
      assert g'.pending[id].waiters == g.pending[id].waiters + [call];
    }
  }

  /** A new call leaves everyone else as they were, but for those it displaces, who are left waiting for good. */
  lemma TrackKeeps(g: Gateway, call: Call, vmId: VmId, request: Request)
    requires Valid(g) && call !in g.asks
    ensures var g' := Track(g, call, vmId, request);
            && Valid(g')
            && (Attached(g', call) || Told(g', call))
            && (forall c :: c in g.outcomes ==> c in g'.outcomes && g'.outcomes[c] == g.outcomes[c] && g'.asks[c] == g.asks[c])
            && (forall c :: c in g.outcomes ==> (Attached(g', c) <==> Attached(g, c) && !Displaces(g, vmId, request, c)))
            && ((forall c :: !Displaces(g, vmId, request, c)) ==> Keeps(g, g'))
  {
    hide Valid, Track, Attached, Told, Displaces;
    TrackValid(g, call, vmId, request);
    TrackLeaves(g, call, vmId, request);
    AsksAreOutcomes(g);
    AsksAreOutcomes(Track(g, call, vmId, request));
    forall c | c in g.outcomes
      ensures Attached(Track(g, call, vmId, request), c) <==> Attached(g, c) && !Displaces(g, vmId, request, c)
    {
      TrackAttaches(g, call, vmId, request, c);
    }
    ToldStays(g, Track(g, call, vmId, request));
  }

  /** The new call waits or is told; the others were asked for, and told, what they were. */
  lemma TrackLeaves(g: Gateway, call: Call, vmId: VmId, request: Request)
    requires Valid(g) && call !in g.asks
    ensures var g' := Track(g, call, vmId, request);
            && (Attached(g', call) || Told(g', call))
            && (forall c :: c in g.outcomes ==> c in g'.outcomes && g'.outcomes[c] == g.outcomes[c] && g'.asks[c] == g.asks[c])
  {
    hide AllWait;
  }

  lemma ToldStays(g: Gateway, g': Gateway)
    requires forall c :: c in g.outcomes ==> c in g'.outcomes && g'.outcomes[c] == g.outcomes[c]
    ensures forall c :: c in g.outcomes ==> (Told(g', c) <==> Told(g, c))
  {
  }

  lemma AsksAreOutcomes(g: Gateway)
    requires Valid(g)
    ensures g.asks.Keys == g.outcomes.Keys
  {
  }

  lemma HandleKeeps(g: Gateway, vmId: VmId, report: Report)
    requires Valid(g)
    ensures Valid(Handle(g, vmId, report)) && Keeps(g, Handle(g, vmId, report))
  {
    var id := report.execId;
    if id in g.pending && g.pending[id].vmId == vmId && !report.Output? {
      var p := g.pending[id];
      SettleKeeps(g, id, match report
                         case Exit(_, exitCode, timedOut, truncated) =>
                           Resolved(Some(ExecResult(Join(p.stdout), Join(p.stderr), exitCode, timedOut, truncated)))
                         case Found(_, result) => Resolved(Some(result))
                         case _ => if p.fetchOnly then Resolved(None) else Rejected(Unreachable));
    }
  }

  lemma CloseVmKeeps(g: Gateway, vmId: VmId)
    requires Valid(g)
    ensures Valid(CloseVm(g, vmId)) && Keeps(g, CloseVm(g, vmId))
    ensures forall c :: Attached(g, c) && g.asks[c].vmId == vmId ==> CloseVm(g, vmId).outcomes[c] == Rejected(Unavailable)
  {
  }

  // ---------------------------------------------------------------- The gateway

  class ExecTracker {
    var pending: map<ExecId, Pending>
    ghost var asks: map<Call, Ask>
    var outcomes: map<Call, Outcome>
    var connected: map<VmId, Socket>
    var wire: map<Socket, seq<Request>>

    ghost function Contents(): Gateway
      reads this
    {
      Gateway(pending, asks, outcomes, connected, wire)
    }

    constructor ()
      ensures Contents() == Gateway(map[], map[], map[], map[], map[])
    {
      pending, asks, outcomes, connected, wire := map[], map[], map[], map[], map[];
    }

    method SettleExec(id: ExecId, outcome: Outcome)
      requires Valid(Contents()) && !outcome.Waiting?
      modifies this`pending, this`outcomes
      ensures Contents() == Settle(old(Contents()), id, outcome) && Valid(Contents())
      ensures pending == old(pending) - {id} && outcomes.Keys == old(outcomes).Keys
      ensures forall c :: c in outcomes ==>
                outcomes[c] == if id in old(pending) && c in old(pending)[id].waiters then outcome else old(outcomes)[c]
    {
      SettleKeeps(Contents(), id, outcome);
      if id !in pending {
        return;
      }
      var exec := pending[id];
      pending := pending - {id};
      outcomes := map c | c in outcomes :: if c in exec.waiters then outcome else outcomes[c];
    }

    method TrackCall(call: Call, vmId: VmId, request: Request)
      requires Valid(Contents()) && call !in asks
      modifies this
      ensures Contents() == Track(old(Contents()), call, vmId, request) && Valid(Contents())
      ensures var id, flight := request.execId, old(pending);
              && asks == old(asks)[call := Ask(vmId, id, request.Fetch?)] && connected == old(connected)
              && if id in flight && flight[id].vmId == vmId then
                   && pending == flight[id := flight[id].(waiters := flight[id].waiters + [call])]
                   && outcomes == old(outcomes)[call := Waiting] && wire == old(wire)
                 else if vmId in old(connected) then
                   && pending == flight[id := Pending(vmId, [], [], request.Fetch?, [call])]
                   && outcomes == old(outcomes)[call := Waiting]
                   && wire == old(wire)[old(connected)[vmId] := SentOn(old(wire), old(connected)[vmId]) + [request]]
                 else pending == flight && outcomes == old(outcomes)[call := Rejected(Unavailable)] && wire == old(wire)
    {
      TrackKeeps(Contents(), call, vmId, request);
      hide Valid;
      var id := request.execId;
      asks := asks[call := Ask(vmId, id, request.Fetch?)];
      if id in pending && pending[id].vmId == vmId {
        pending := pending[id := pending[id].(waiters := pending[id].waiters + [call])];
        outcomes := outcomes[call := Waiting];
        return;
      }
      if vmId !in connected {
        outcomes := outcomes[call := Rejected(Unavailable)];
        return;
      }
      var socket := connected[vmId];
      wire := wire[socket := SentOn(wire, socket) + [request]];
      pending := pending[id := Pending(vmId, [], [], request.Fetch?, [call])];
      outcomes := outcomes[call := Waiting];
    }

    method HandleReport(vmId: VmId, report: Report)
      requires Valid(Contents())
      modifies this`pending, this`outcomes
      ensures Contents() == Handle(old(Contents()), vmId, report) && Valid(Contents())
      ensures var id, flight := report.execId, old(pending);
              if id !in flight || flight[id].vmId != vmId then pending == flight && outcomes == old(outcomes)
              else
                match report
                case Output(_, pipe, data) =>
                  && outcomes == old(outcomes)
                  && pending == flight[id := if pipe.Stdout? then flight[id].(stdout := flight[id].stdout + [data])
                                             else flight[id].(stderr := flight[id].stderr + [data])]
                case Exit(_, exitCode, timedOut, truncated) =>
                  && pending == flight - {id}
                  && forall c :: c in flight[id].waiters && c in outcomes ==>
                       outcomes[c] == Resolved(Some(ExecResult(Join(flight[id].stdout), Join(flight[id].stderr), exitCode, timedOut, truncated)))
                case Found(_, result) =>
                  pending == flight - {id} && forall c :: c in flight[id].waiters && c in outcomes ==> outcomes[c] == Resolved(Some(result))
                case NotFound(_) =>
                  && pending == flight - {id}
                  && forall c :: c in flight[id].waiters && c in outcomes ==>
                       outcomes[c] == if flight[id].fetchOnly then Resolved(None) else Rejected(Unreachable)
      ensures forall c :: c in old(outcomes) && c in outcomes ==>
                (report.execId in old(pending) && c in old(pending)[report.execId].waiters) || outcomes[c] == old(outcomes)[c]
    {
      HandleKeeps(Contents(), vmId, report);
      var id := report.execId;
      if id !in pending || pending[id].vmId != vmId {
        return;
      }
      var exec := pending[id];
      match report
      case Output(_, pipe, data) =>
        if pipe.Stdout? {
          pending := pending[id := exec.(stdout := exec.stdout + [data])];
        } else {
          pending := pending[id := exec.(stderr := exec.stderr + [data])];
        }
      case Exit(_, exitCode, timedOut, truncated) =>
        SettleExec(id, Resolved(Some(ExecResult(Join(exec.stdout), Join(exec.stderr), exitCode, timedOut, truncated))));
      case Found(_, result) => SettleExec(id, Resolved(Some(result)));
      case NotFound(_) => SettleExec(id, if exec.fetchOnly then Resolved(None) else Rejected(Unreachable));
    }

    /** A VM's socket closed. */
    method Closed(vmId: VmId)
      requires Valid(Contents())
      modifies this`pending, this`outcomes
      ensures Contents() == CloseVm(old(Contents()), vmId) && Valid(Contents())
      ensures forall id :: id in pending <==> id in old(pending) && old(pending)[id].vmId != vmId
      ensures forall id :: id in pending ==> pending[id] == old(pending)[id]
      ensures forall c, id :: c in outcomes && id in old(pending) && c in old(pending)[id].waiters && old(pending)[id].vmId == vmId ==>
                outcomes[c] == Rejected(Unavailable)
    {
      ghost var g := Contents();
      CloseVmKeeps(g, vmId);
      ClosingEnds(g, vmId);
      hide CloseVm, Closing;
      var rest := pending.Keys;
      while rest != {}
        invariant Valid(Contents())
        invariant Closing(g, Contents(), vmId, rest)
      {
        var id :| id in rest;
        ClosingStep(g, Contents(), vmId, rest, id);
        if pending[id].vmId == vmId {
          SettleExec(id, Rejected(Unavailable));
        }
        rest := rest - {id};
      }
    }
  }

  /** A closing VM, with the commands in `rest` still to be looked at. */
  ghost predicate Closing(g: Gateway, g': Gateway, vmId: VmId, rest: set<ExecId>) {
    && rest <= g.pending.Keys && g' == g.(pending := g'.pending, outcomes := g'.outcomes)
    && g'.outcomes.Keys == g.outcomes.Keys
    && (forall id :: id in g'.pending <==> id in g.pending && (id in rest || g.pending[id].vmId != vmId))
    && (forall id :: id in g'.pending ==> g'.pending[id] == g.pending[id])
    && (forall c :: c in g'.outcomes && c in g.asks ==>
          g'.outcomes[c] == if g.asks[c].execId in rest then g.outcomes[c] else CloseVm(g, vmId).outcomes[c])
  }

  lemma ClosingEnds(g: Gateway, vmId: VmId)
    requires Valid(g)
    ensures Closing(g, g, vmId, g.pending.Keys)
    ensures forall g' :: Closing(g, g', vmId, {}) ==> g' == CloseVm(g, vmId)
  {
    assert forall c :: c in g.outcomes && g.asks[c].execId !in g.pending ==> CloseVm(g, vmId).outcomes[c] == g.outcomes[c];
    forall g' | Closing(g, g', vmId, {}) ensures g' == CloseVm(g, vmId) {
      assert g'.pending == CloseVm(g, vmId).pending;
      assert g'.outcomes == CloseVm(g, vmId).outcomes;
    }
  }

  lemma ClosingStep(g: Gateway, g': Gateway, vmId: VmId, rest: set<ExecId>, id: ExecId)
    requires Valid(g) && Closing(g, g', vmId, rest) && id in rest
    ensures id in g'.pending
    ensures Closing(g, if g'.pending[id].vmId == vmId then Settle(g', id, Rejected(Unavailable)) else g', vmId, rest - {id})
  {
    var p := g.pending[id];
    forall c | c in g.outcomes && g.asks[c].execId == id
      ensures CloseVm(g, vmId).outcomes[c] == if p.vmId == vmId && c in p.waiters then Rejected(Unavailable) else g.outcomes[c]
    {
    }
    hide CloseVm;
  }
}
