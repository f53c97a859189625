/**
 * Whatever a VM is asked and however its commands go: an id is spawned once until
 * it is forgotten, and what is said on a socket up to an exit, from the exit before
 * it on, adds up to a recorded result.
 */
module ExecutorTruth {
  import opened Bytes
  import opened Execs
  import opened Executor
  import opened Reports
  import Texts

  type Log = map<Socket, seq<Report>>
  type Recorded = seq<(ExecId, ExecResult)>
  /** The ids asked about on each socket, as far as the VM has taken the requests. */
  type Known = set<(Socket, ExecId)>

  // ---------------------------------------------------------------- The invariant

  /** The j-th report on a socket, if it ends a command, comes after exactly the recorded output. */
  ghost predicate TrueAt(reports: seq<Report>, j: nat, recorded: Recorded)
    requires j < |reports|
  {
    match reports[j]
    case Exit(id, exitCode, timedOut, truncated) =>
      (id, ExecResult(Since(reports[..j], id, Stdout), Since(reports[..j], id, Stderr), exitCode, timedOut, truncated)) in recorded
    case Found(id, r) => (id, r) in recorded
    case _ => true
  }

  ghost predicate True(reports: seq<Report>, recorded: Recorded) {
    forall j :: 0 <= j < |reports| ==> TrueAt(reports, j, recorded)
  }

  ghost predicate AllTrue(log: Log, recorded: Recorded) {
    forall k :: k in log ==> True(log[k], recorded)
  }

  ghost predicate Backed(log: Log, known: Known) {
    forall k: Socket, id: ExecId :: k in log && Said(log[k], id) ==> (k, id) in known
  }

  ghost predicate RecordOk(id: ExecId, r: Record, recorded: Recorded, known: Known) {
    if r.done then r.waiters == [] && (id, Snapshot(r)) in recorded
    else (r.socket, id) in known && forall i :: 0 <= i < |r.waiters| ==> (r.waiters[i].socket, id) in known
  }

  ghost predicate RecordsOk(results: map<ExecId, Record>, recorded: Recorded, known: Known) {
    forall id :: id in results ==> RecordOk(id, results[id], recorded, known)
  }

  /** What a running command has put out so far, on its own socket. */
  function Streaming(results: map<ExecId, Record>, socket: Socket, id: ExecId, pipe: Pipe): string {
    if id in results && !results[id].done && results[id].socket == socket then PipeOf(results[id], pipe).text else ""
  }

  /** The text on a socket with no exit after it is that of a command still running there. */
  ghost predicate Streams(results: map<ExecId, Record>, log: Log) {
    forall k: Socket, id: ExecId, pipe: Pipe :: Since(SentOn(log, k), id, pipe) == Streaming(results, k, id, pipe)
  }

  ghost predicate VmInv(vm: Vm, known: Known) {
    AllTrue(vm.log, vm.recorded) && Backed(vm.log, known) && RecordsOk(vm.results, vm.recorded, known) && Streams(vm.results, vm.log)
  }

  /** Logs only grow, and results stay recorded. */
  ghost predicate Grows(vm: Vm, vm': Vm) {
    && (forall k :: SentOn(vm.log, k) <= SentOn(vm'.log, k))
    && vm.recorded <= vm'.recorded
  }

  // ---------------------------------------------------------------- More is said on a socket

  lemma SaidMore(a: seq<Report>, b: seq<Report>, id: ExecId)
    ensures Said(a + b, id) <==> Said(a, id) || Said(b, id)
  {
    forall k | 0 <= k < |a| ensures (a + b)[k] == a[k] {}
    forall k | 0 <= k < |b| ensures (a + b)[|a| + k] == b[k] {}
  }

  lemma TrueStays(reports: seq<Report>, more: seq<Report>, recorded: Recorded, recorded': Recorded, j: nat)
    requires j < |reports| && TrueAt(reports, j, recorded) && recorded <= recorded'
    ensures TrueAt(reports + more, j, recorded')
  {
    assert (reports + more)[..j] == reports[..j];
    assert forall x :: x in recorded ==> x in recorded';
  }

  lemma TrueOfNone(recorded: Recorded)
    ensures True([], recorded)
  {
  }

  /** Output may be added anywhere, an answer if it is so. */
  lemma TrueOne(reports: seq<Report>, report: Report, recorded: Recorded)
    requires True(reports, recorded)
    requires report.Found? ==> (report.execId, report.result) in recorded
    requires report.Exit? ==>
               var id := report.execId;
               (id, ExecResult(Since(reports, id, Stdout), Since(reports, id, Stderr), report.exitCode, report.timedOut, report.truncated))
               in recorded
    ensures True(reports + [report], recorded)
  {
    var all := reports + [report];
    forall j | 0 <= j < |all| ensures TrueAt(all, j, recorded) {
      if j < |reports| {
        TrueStays(reports, [report], recorded, recorded, j);
      } else {
        assert all[..j] == reports;
      }
    }
  }

  lemma {:induction false} TrueOutputs(reports: seq<Report>, more: seq<Report>, recorded: Recorded)
    requires True(reports, recorded) && forall k :: 0 <= k < |more| ==> more[k].Output?
    ensures True(reports + more, recorded)
    decreases |more|
  {
    if more == [] {
      assert reports + more == reports;
    } else {
      var n := |more| - 1;
      TrueOutputs(reports, more[..n], recorded);
      TrueOne(reports + more[..n], more[n], recorded);
      assert reports + more[..n] + [more[n]] == reports + more;
    }
  }

  /** Nothing of the command is under way on this socket. */
  ghost predicate Quiet(reports: seq<Report>, id: ExecId) {
    Since(reports, id, Stdout) == "" && Since(reports, id, Stderr) == ""
  }

  lemma QuietPipes(reports: seq<Report>, id: ExecId)
    requires Quiet(reports, id)
    ensures forall pipe: Pipe :: Since(reports, id, pipe) == ""
  {
    forall pipe: Pipe ensures Since(reports, id, pipe) == "" {
      assert pipe == Stdout || pipe == Stderr;
    }
  }

  /** With nothing of the command under way, its reply tells the whole result, and leaves nothing under way. */
  lemma TrueReply(reports: seq<Report>, id: ExecId, waiter: Waiter, r: ExecResult, recorded: Recorded)
    requires True(reports, recorded) && Quiet(reports, id) && (id, r) in recorded
    ensures True(reports + Reply(id, waiter, r), recorded) && Quiet(reports + Reply(id, waiter, r), id)
  {
    if waiter.Answer? {
      TrueOne(reports, Found(id, r), recorded);
      SinceOne(reports, Found(id, r), id, Stdout);
      SinceOne(reports, Found(id, r), id, Stderr);
    } else {
      TrueReplay(reports, id, r, recorded);
    }
  }

  lemma TrueReplay(reports: seq<Report>, id: ExecId, r: ExecResult, recorded: Recorded)
    requires True(reports, recorded) && Quiet(reports, id) && (id, r) in recorded
    ensures var exit := Exit(id, r.exitCode, r.timedOut, r.truncated);
            var all := reports + (Whole(id, Stdout, r.stdout) + Whole(id, Stderr, r.stderr) + [exit]);
            True(all, recorded) && Quiet(all, id)
  {
    hide True, Since, Whole, Quiet;
    WholeText(reports, id, r, Stdout);
    WholeText(reports, id, r, Stderr);
    WholeIsOutput(id, r);
    TrueThenExit(reports, Whole(id, Stdout, r.stdout) + Whole(id, Stderr, r.stderr), id, r, recorded);
  }

  lemma WholeIsOutput(id: ExecId, r: ExecResult)
    ensures forall k :: 0 <= k < |Whole(id, Stdout, r.stdout) + Whole(id, Stderr, r.stderr)| ==>
              (Whole(id, Stdout, r.stdout) + Whole(id, Stderr, r.stderr))[k].Output?
  {
  }

  lemma TrueThenExit(reports: seq<Report>, told: seq<Report>, id: ExecId, r: ExecResult, recorded: Recorded)
    requires True(reports, recorded) && (id, r) in recorded && forall k :: 0 <= k < |told| ==> told[k].Output?
    requires Since(reports + told, id, Stdout) == r.stdout && Since(reports + told, id, Stderr) == r.stderr
    ensures var all := reports + (told + [Exit(id, r.exitCode, r.timedOut, r.truncated)]); True(all, recorded) && Quiet(all, id)
  {
    hide True, Since, Quiet;
    TrueOutputs(reports, told, recorded);
    ExitIsTrue(reports + told, id, r, recorded);
    Texts.Regroup(reports, told, [Exit(id, r.exitCode, r.timedOut, r.truncated)]);
  }

  /** The exit of a result whose output was told. */
  lemma ExitIsTrue(reports: seq<Report>, id: ExecId, r: ExecResult, recorded: Recorded)
    requires True(reports, recorded) && (id, r) in recorded
    requires Since(reports, id, Stdout) == r.stdout && Since(reports, id, Stderr) == r.stderr
    ensures var all := reports + [Exit(id, r.exitCode, r.timedOut, r.truncated)]; True(all, recorded) && Quiet(all, id)
  {
    hide True, Since;
    TrueOne(reports, Exit(id, r.exitCode, r.timedOut, r.truncated), recorded);
    QuietAfterExit(reports, Exit(id, r.exitCode, r.timedOut, r.truncated));
  }

  lemma QuietAfterExit(reports: seq<Report>, exit: Report)
    requires exit.Exit?
    ensures Quiet(reports + [exit], exit.execId)
  {
    SinceOne(reports, exit, exit.execId, Stdout);
    SinceOne(reports, exit, exit.execId, Stderr);
  }

  lemma WholeText(reports: seq<Report>, id: ExecId, r: ExecResult, pipe: Pipe)
    requires Quiet(reports, id)
    ensures Since(reports + (Whole(id, Stdout, r.stdout) + Whole(id, Stderr, r.stderr)), id, pipe)
            == if pipe.Stdout? then r.stdout else r.stderr
  {
    var a, b := Whole(id, Stdout, r.stdout), Whole(id, Stderr, r.stderr);
    QuietPipes(reports, id);
    SinceMore(reports, a + b, id, pipe);
    TextAppend(a, b, id, pipe);
    TextOfWhole(id, Stdout, r.stdout, pipe);
    TextOfWhole(id, Stderr, r.stderr, pipe);
  }

  lemma ReplyAbout(id: ExecId, waiter: Waiter, r: ExecResult)
    ensures AllAbout(Reply(id, waiter, r), id)
  {
  }

  /** A step changes one command and says something of it on one socket, or nothing. */
  ghost predicate About(vm: Vm, vm': Vm, id: ExecId) {
    vm'.results - {id} == vm.results - {id} && vm.recorded <= vm'.recorded
  }

  lemma OthersSame(vm: Vm, vm': Vm, id: ExecId, other: ExecId)
    requires About(vm, vm', id) && other != id
    ensures other in vm'.results <==> other in vm.results
    ensures other in vm.results ==> vm'.results[other] == vm.results[other]
  {
    assert other in vm'.results <==> other in vm'.results - {id};
    assert other in vm.results <==> other in vm.results - {id};
    assert other in vm.results ==> (vm'.results - {id})[other] == (vm.results - {id})[other];
  }

  lemma RecordsStay(vm: Vm, vm': Vm, id: ExecId, known: Known)
    requires RecordsOk(vm.results, vm.recorded, known) && About(vm, vm', id)
    requires id in vm'.results ==> RecordOk(id, vm'.results[id], vm'.recorded, known)
    ensures RecordsOk(vm'.results, vm'.recorded, known)
  {
    assert forall x :: x in vm.recorded ==> x in vm'.recorded;
    forall i | i in vm'.results && i != id ensures RecordOk(i, vm'.results[i], vm'.recorded, known) {
      OthersSame(vm, vm', id, i);
      assert RecordOk(i, vm.results[i], vm.recorded, known);
    }
  }

  lemma StreamsStay(vm: Vm, vm': Vm, socket: Socket, more: seq<Report>, id: ExecId)
    requires Streams(vm.results, vm.log) && About(vm, vm', id) && AllAbout(more, id)
    requires vm'.log == vm.log[socket := SentOn(vm.log, socket) + more]
    requires forall pipe :: Since(SentOn(vm.log, socket) + more, id, pipe) == Streaming(vm'.results, socket, id, pipe)
    requires forall k, pipe :: k != socket ==> Streaming(vm'.results, k, id, pipe) == Streaming(vm.results, k, id, pipe)
    ensures Streams(vm'.results, vm'.log)
  {
    hide Since, AllAbout;
    forall k: Socket, i: ExecId, pipe: Pipe ensures Since(SentOn(vm'.log, k), i, pipe) == Streaming(vm'.results, k, i, pipe) {
      assert Since(SentOn(vm.log, k), i, pipe) == Streaming(vm.results, k, i, pipe);
      if i != id {
        OthersSame(vm, vm', id, i);
        if k == socket { SinceOthers(SentOn(vm.log, k), more, id, i, pipe); }
      }
    }
  }

  /** A step that says something of one command on one socket, and is right about it. */
  lemma SayKeeps(vm: Vm, vm': Vm, socket: Socket, more: seq<Report>, id: ExecId, known: Known)
    requires VmInv(vm, known) && AllAbout(more, id) && (socket, id) in known && About(vm, vm', id)
    requires vm'.log == vm.log[socket := SentOn(vm.log, socket) + more]
    requires True(SentOn(vm.log, socket) + more, vm'.recorded)
    requires id in vm'.results ==> RecordOk(id, vm'.results[id], vm'.recorded, known)
    requires forall pipe :: Since(SentOn(vm.log, socket) + more, id, pipe) == Streaming(vm'.results, socket, id, pipe)
    requires forall k, pipe :: k != socket ==> Streaming(vm'.results, k, id, pipe) == Streaming(vm.results, k, id, pipe)
    ensures VmInv(vm', known) && Grows(vm, vm')
  {
    StreamsStay(vm, vm', socket, more, id);
    RecordsStay(vm, vm', id, known);
    hide Streams, RecordsOk, RecordOk, Since, Streaming;
    forall k | k in vm'.log ensures True(vm'.log[k], vm'.recorded) {
      if k != socket {
        forall j | 0 <= j < |vm.log[k]| ensures TrueAt(vm.log[k], j, vm'.recorded) {
          TrueStays(vm.log[k], [], vm.recorded, vm'.recorded, j);
          assert vm.log[k] + [] == vm.log[k];
        }
      }
    }
    forall k: Socket, i: ExecId | k in vm'.log && Said(vm'.log[k], i) ensures (k, i) in known {
      if k == socket {
        SaidMore(SentOn(vm.log, k), more, i);
      }
    }
    hide True, TrueAt, Said;
  }

  /** A step that says nothing. */
  lemma SilentKeeps(vm: Vm, vm': Vm, id: ExecId, known: Known)
    requires VmInv(vm, known) && About(vm, vm', id)
    requires vm'.log == vm.log && vm'.recorded == vm.recorded
    requires id in vm'.results ==> RecordOk(id, vm'.results[id], vm.recorded, known)
    requires forall k, pipe :: Streaming(vm'.results, k, id, pipe) == Streaming(vm.results, k, id, pipe)
    ensures VmInv(vm', known) && Grows(vm, vm')
  {
    RecordsStay(vm, vm', id, known);
    hide RecordOk, RecordsOk, AllTrue, Backed, Since;
    forall k: Socket, i: ExecId, pipe: Pipe ensures Since(SentOn(vm'.log, k), i, pipe) == Streaming(vm'.results, k, i, pipe) {
      assert Since(SentOn(vm.log, k), i, pipe) == Streaming(vm.results, k, i, pipe);
      if i != id { OthersSame(vm, vm', id, i); }
    }
  }

  // ---------------------------------------------------------------- A request is taken

  lemma KnownGrows(vm: Vm, known: Known, more: (Socket, ExecId))
    requires VmInv(vm, known)
    ensures VmInv(vm, known + {more})
  {
    hide Said, AllTrue, Streams;
    forall id | id in vm.results ensures RecordOk(id, vm.results[id], vm.recorded, known + {more}) {
      assert RecordOk(id, vm.results[id], vm.recorded, known);
    }
  }

  /** Nothing of a command is under way on a socket that is not its own, nor once it is done. */
  lemma QuietHere(vm: Vm, socket: Socket, id: ExecId, known: Known)
    requires VmInv(vm, known) && (id in vm.results && vm.results[id].socket == socket ==> vm.results[id].done)
    ensures Quiet(SentOn(vm.log, socket), id) && True(SentOn(vm.log, socket), vm.recorded)
  {
    hide True, Backed, RecordsOk, Since;
    assert Since(SentOn(vm.log, socket), id, Stdout) == Streaming(vm.results, socket, id, Stdout);
    assert Since(SentOn(vm.log, socket), id, Stderr) == Streaming(vm.results, socket, id, Stderr);
    TrueOfNone(vm.recorded);
  }

  lemma RecordOf(vm: Vm, id: ExecId, known: Known)
    requires VmInv(vm, known) && id in vm.results
    ensures RecordOk(id, vm.results[id], vm.recorded, known)
  {
    hide AllTrue, Backed, Streams;
  }

  /** One who asks about an id that was run gets the result, or waits for it. */
  lemma WaitKeeps(vm: Vm, id: ExecId, waiter: Waiter, known: Known)
    requires VmInv(vm, known) && id in vm.results && (waiter.socket, id) in known
    ensures VmInv(Wait(vm, id, waiter), known) && Grows(vm, Wait(vm, id, waiter))
  {
    var r, vm' := vm.results[id], Wait(vm, id, waiter);
    RecordOf(vm, id, known);
    if r.done {
      var k, more := waiter.socket, Reply(id, waiter, Snapshot(r));
      var said := SentOn(vm.log, k);
      QuietHere(vm, k, id, known);
      ReplyAbout(id, waiter, Snapshot(r));
      TrueReply(said, id, waiter, Snapshot(r), vm.recorded);
      QuietPipes(said + more, id);
      hide VmInv, True, AllAbout, Since, Reply, Quiet;
      SayKeeps(vm, vm', k, more, id, known);
    } else {
      hide VmInv;
      var r' := r.(waiters := r.waiters + [waiter]);
      assert RecordOk(id, r', vm.recorded, known);
      hide RecordOk;
      SilentKeeps(vm, vm', id, known);
    }
  }

  lemma SpawnKeeps(vm: Vm, socket: Socket, id: ExecId, timeoutMs: nat, known: Known)
    requires VmInv(vm, known) && id !in vm.results && (socket, id) in known
    ensures VmInv(RunExec(vm, socket, id, timeoutMs), known) && Grows(vm, RunExec(vm, socket, id, timeoutMs))
  {
    hide VmInv;
    SilentKeeps(vm, RunExec(vm, socket, id, timeoutMs), id, known);
  }

  lemma NotFoundKeeps(vm: Vm, socket: Socket, id: ExecId, known: Known)
    requires VmInv(vm, known) && id !in vm.results && (socket, id) in known
    ensures VmInv(FetchExec(vm, socket, id), known) && Grows(vm, FetchExec(vm, socket, id))
  {
    var vm', reports := FetchExec(vm, socket, id), SentOn(vm.log, socket);
    QuietHere(vm, socket, id, known);
    TrueOne(reports, NotFound(id), vm.recorded);
    SinceOne(reports, NotFound(id), id, Stdout);
    SinceOne(reports, NotFound(id), id, Stderr);
    QuietPipes(reports + [NotFound(id)], id);
    hide VmInv, True, Since;
    SayKeeps(vm, vm', socket, [NotFound(id)], id, known);
  }

  /** Any request, from any socket, about any id, asked about there before or not. */
  lemma TakeKeeps(vm: Vm, socket: Socket, request: Request, known: Known)
    requires VmInv(vm, known)
    ensures var vm' := TakeRequest(vm, socket, request);
            VmInv(vm', known + {(socket, request.execId)}) && Grows(vm, vm')
  {
    var id, known' := request.execId, known + {(socket, request.execId)};
    KnownGrows(vm, known, (socket, id));
    hide VmInv, Grows, Wait;
    if id in vm.results {
      WaitKeeps(vm, id, if request.Exec? then Replay(socket) else Answer(socket), known');
    } else if request.Exec? {
      SpawnKeeps(vm, socket, id, request.timeoutMs, known');
    } else {
      NotFoundKeeps(vm, socket, id, known');
    }
  }

  // ---------------------------------------------------------------- A command goes on

  /** More output of a running command, said on its own socket. */
  lemma OutputKeeps(vm: Vm, vm': Vm, id: ExecId, r': Record, more: seq<Report>, known: Known)
    requires VmInv(vm, known) && id in vm.results && !vm.results[id].done
    requires AllAbout(more, id) && forall k :: 0 <= k < |more| ==> more[k].Output?
    requires var r := vm.results[id];
             && r' == r.(stdout := r'.stdout, stderr := r'.stderr, truncated := r'.truncated)
             && r'.stdout.text == r.stdout.text + Text(more, id, Stdout)
             && r'.stderr.text == r.stderr.text + Text(more, id, Stderr)
             && vm' == vm.(results := vm.results[id := r'], log := vm.log[r.socket := SentOn(vm.log, r.socket) + more])
    ensures VmInv(vm', known) && Grows(vm, vm')
  {
    var r := vm.results[id];
    var said := SentOn(vm.log, r.socket);
    RecordOf(vm, id, known);
    StreamOf(vm, id, known);
    TrueOutputs(said, more, vm.recorded);
    hide VmInv, True;
    forall pipe: Pipe ensures Since(said + more, id, pipe) == Streaming(vm'.results, r.socket, id, pipe) {
      SinceMore(said, more, id, pipe);
      assert pipe == Stdout || pipe == Stderr;
    }
    hide AllAbout, Since, Text;
    SayKeeps(vm, vm', r.socket, more, id, known);
  }

  lemma StreamOf(vm: Vm, id: ExecId, known: Known)
    requires VmInv(vm, known) && id in vm.results && !vm.results[id].done
    ensures var r := vm.results[id];
            && (forall pipe :: Since(SentOn(vm.log, r.socket), id, pipe) == PipeOf(r, pipe).text)
            && True(SentOn(vm.log, r.socket), vm.recorded)
  {
    hide True, Backed, RecordsOk, Since;
    var r := vm.results[id];
    forall pipe ensures Since(SentOn(vm.log, r.socket), id, pipe) == PipeOf(r, pipe).text {
      assert Since(SentOn(vm.log, r.socket), id, pipe) == Streaming(vm.results, r.socket, id, pipe);
    }
    TrueOfNone(vm.recorded);
  }

  lemma PumpKeeps(vm: Vm, id: ExecId, pipe: Pipe, chunk: Bytes, d: Decoder, known: Known)
    requires VmInv(vm, known)
    ensures VmInv(Pump(vm, id, pipe, chunk, d), known) && Grows(vm, Pump(vm, id, pipe, chunk, d))
  {
    hide VmInv;
    if Running(vm, id, pipe) {
      var vm', r, p := Pump(vm, id, pipe, chunk, d), vm.results[id], PipeOf(vm.results[id], pipe);
      if |p.kept| >= MAX_OUTPUT_BYTES {
        RecordOf(vm, id, known);
        SilentKeeps(vm, vm', id, known);
      } else {
        var text := d.decode(p.kept, Fitting(p, chunk));
        SlicesJoin(text);
        TextOfOutputs(id, pipe, Slices(text), Stdout);
        TextOfOutputs(id, pipe, Slices(text), Stderr);
        hide Slices, Join, Text, Grows, SentOn;
        OutputKeeps(vm, vm', id, vm'.results[id], Outputs(id, pipe, Slices(text)), known);
      }
    }
  }

  lemma PipeEndsKeeps(vm: Vm, id: ExecId, pipe: Pipe, d: Decoder, known: Known)
    requires VmInv(vm, known)
    ensures VmInv(PipeEnds(vm, id, pipe, d), known) && Grows(vm, PipeEnds(vm, id, pipe, d))
  {
    hide VmInv;
    if Running(vm, id, pipe) {
      var vm', p := PipeEnds(vm, id, pipe, d), PipeOf(vm.results[id], pipe);
      var more := Whole(id, pipe, d.flush(p.kept));
      TextOfWhole(id, pipe, d.flush(p.kept), Stdout);
      TextOfWhole(id, pipe, d.flush(p.kept), Stderr);
      assert AllAbout(more, id) && forall k :: 0 <= k < |more| ==> more[k].Output?;
      hide Grows, Text, Whole, SentOn, AllAbout;
      OutputKeeps(vm, vm', id, vm'.results[id], more, known);
    }
  }

  // ---------------------------------------------------------------- A command ends

  lemma {:induction false} ReplyAllKeeps(vm: Vm, id: ExecId, waiters: seq<Waiter>, r: ExecResult, known: Known)
    requires VmInv(vm, known) && id in vm.results && vm.results[id].done && (id, r) in vm.recorded
    requires forall i :: 0 <= i < |waiters| ==> (waiters[i].socket, id) in known
    ensures var vm' := ReplyAll(vm, id, waiters, r);
            && VmInv(vm', known) && Grows(vm, vm') && vm' == vm.(log := vm'.log)
    decreases |waiters|
  {
    if waiters == [] {
    } else {
      var w, rest := waiters[0], waiters[1..];
      var said, more := SentOn(vm.log, w.socket), Reply(id, w, r);
      var vm1 := Say(vm, w.socket, more);
      RecordOf(vm, id, known);
      QuietHere(vm, w.socket, id, known);
      ReplyAbout(id, w, r);
      TrueReply(said, id, w, r, vm.recorded);
      QuietPipes(said + more, id);
      hide VmInv, True, AllAbout, Since, Reply, Quiet;
      SayKeeps(vm, vm1, w.socket, more, id, known);
      hide RecordOk;
      ReplyAllKeeps(vm1, id, rest, r, known);
    }
  }

  lemma ExitsKeeps(vm: Vm, id: ExecId, exitCode: int, elapsedMs: nat, known: Known)
    requires VmInv(vm, known)
    ensures var vm' := Exits(vm, id, exitCode, elapsedMs); VmInv(vm', known) && Grows(vm, vm')
  {
    hide VmInv;
    if id in vm.results && !vm.results[id].done && vm.results[id].stdout.ended && vm.results[id].stderr.ended {
      var r, r' := vm.results[id], Finished(vm.results[id], exitCode, elapsedMs);
      var said, exit := SentOn(vm.log, r.socket), Exit(id, r'.exitCode, r'.timedOut, r'.truncated);
      var recorded' := vm.recorded + [(id, Snapshot(r'))];
      var vm1 := Say(vm.(results := vm.results[id := r'], recorded := recorded'), r.socket, [exit]);
      RecordOf(vm, id, known);
      StreamOf(vm, id, known);
      assert recorded'[|vm.recorded|] == (id, Snapshot(r'));
      assert True(said, recorded') by {
        forall j | 0 <= j < |said| ensures TrueAt(said, j, recorded') {
          TrueStays(said, [], vm.recorded, recorded', j);
          assert said + [] == said;
        }
      }
      TrueOne(said, exit, recorded');
      forall pipe: Pipe ensures Since(said + [exit], id, pipe) == "" { SinceOne(said, exit, id, pipe); }
      hide True, Since;
      SayKeeps(vm, vm1, r.socket, [exit], id, known);
      ReplyAllKeeps(vm1, id, r.waiters, Snapshot(r'), known);
    }
  }

  lemma ForgetKeeps(vm: Vm, id: ExecId, known: Known)
    requires VmInv(vm, known)
    ensures VmInv(Forget(vm, id), known) && Grows(vm, Forget(vm, id))
  {
    if id in vm.results && vm.results[id].done {
      hide VmInv;
      SilentKeeps(vm, Forget(vm, id), id, known);
    }
  }

  // ---------------------------------------------------------------- Once each

  predicate DoneWith(results: map<ExecId, Record>, forgotten: seq<ExecId>, id: ExecId) {
    id in forgotten || (id in results && results[id].done)
  }

  /**
   * An id was spawned once for every time it was forgotten, and once more if the VM
   * still knows it; until it is forgotten it has at most one result.
   */
  ghost predicate Ledger(vm: Vm) {
    && (forall id: ExecId ::
          multiset(vm.spawned)[id] == multiset(vm.forgotten)[id] + (if id in vm.results then 1 else 0))
    && (forall i :: 0 <= i < |vm.recorded| ==> DoneWith(vm.results, vm.forgotten, vm.recorded[i].0))
    && (forall i, j :: 0 <= i < j < |vm.recorded| && vm.recorded[i].0 == vm.recorded[j].0 ==>
          vm.recorded[i].0 in vm.forgotten)
  }

  lemma {:induction false} ReplyAllOnlySays(vm: Vm, id: ExecId, waiters: seq<Waiter>, r: ExecResult)
    ensures var vm' := ReplyAll(vm, id, waiters, r); vm' == vm.(log := vm'.log)
    decreases |waiters|
  {
    if waiters == [] {
    } else {
      ReplyAllOnlySays(Say(vm, waiters[0].socket, Reply(id, waiters[0], r)), id, waiters[1..], r);
    }
  }

  /** A step that spawns nothing, records nothing and forgets nothing. */
  lemma LedgerSame(vm: Vm, vm': Vm)
    requires Ledger(vm)
    requires vm'.spawned == vm.spawned && vm'.forgotten == vm.forgotten && vm'.recorded == vm.recorded
    requires forall id :: id in vm'.results <==> id in vm.results
    requires forall id :: id in vm.results ==> vm'.results[id].done == vm.results[id].done
    ensures Ledger(vm')
  {
  }

  lemma TakeLedger(vm: Vm, socket: Socket, request: Request)
    requires Ledger(vm)
    ensures Ledger(TakeRequest(vm, socket, request))
  {
    var vm', id := TakeRequest(vm, socket, request), request.execId;
    if id in vm.results || request.Fetch? {
      hide Ledger, DoneWith;
      LedgerSame(vm, vm');
    } else {
      hide Say, SentOn;
      assert multiset(vm'.spawned) == multiset(vm.spawned) + multiset{id};
    }
  }

  lemma PumpLedger(vm: Vm, id: ExecId, pipe: Pipe, chunk: Bytes, d: Decoder)
    requires Ledger(vm)
    ensures Ledger(Pump(vm, id, pipe, chunk, d)) && Ledger(PipeEnds(vm, id, pipe, d))
  {
    hide Ledger, Slices, Outputs, Whole, Fitting, Drops;
    LedgerSame(vm, Pump(vm, id, pipe, chunk, d));
    LedgerSame(vm, PipeEnds(vm, id, pipe, d));
  }

  lemma ExitsLedger(vm: Vm, id: ExecId, exitCode: int, elapsedMs: nat)
    requires Ledger(vm)
    ensures Ledger(Exits(vm, id, exitCode, elapsedMs))
  {
    if id in vm.results && !vm.results[id].done && vm.results[id].stdout.ended && vm.results[id].stderr.ended {
      var r, r' := vm.results[id], Finished(vm.results[id], exitCode, elapsedMs);
      var vm1 := Say(vm.(results := vm.results[id := r'], recorded := vm.recorded + [(id, Snapshot(r'))]),
                     r.socket, [Exit(id, r'.exitCode, r'.timedOut, r'.truncated)]);
      ReplyAllOnlySays(vm1, id, r.waiters, Snapshot(r'));
      RecordedLedger(vm, vm1, id, Snapshot(r'));
      hide ReplyAll, Say, Ledger;
      LedgerSame(vm1, Exits(vm, id, exitCode, elapsedMs));
    }
  }

  lemma RecordedLedger(vm: Vm, vm': Vm, id: ExecId, r: ExecResult)
    requires Ledger(vm) && id in vm.results && !vm.results[id].done
    requires vm'.spawned == vm.spawned && vm'.forgotten == vm.forgotten && vm'.recorded == vm.recorded + [(id, r)]
    requires vm'.results.Keys == vm.results.Keys && vm'.results[id].done
    requires forall i :: i in vm.results && i != id ==> vm'.results[i] == vm.results[i]
    ensures Ledger(vm')
  {
    forall i | 0 <= i < |vm.recorded| ensures DoneWith(vm'.results, vm'.forgotten, vm.recorded[i].0) {
      assert DoneWith(vm.results, vm.forgotten, vm.recorded[i].0);
    }
    assert forall i :: 0 <= i < |vm.recorded| ==> vm'.recorded[i] == vm.recorded[i];
  }

  lemma ForgetLedger(vm: Vm, id: ExecId)
    requires Ledger(vm)
    ensures Ledger(Forget(vm, id))
  {
    var vm' := Forget(vm, id);
    if id in vm.results && vm.results[id].done {
      assert multiset(vm'.forgotten) == multiset(vm.forgotten) + multiset{id};
      assert vm'.forgotten[|vm.forgotten|] == id;
      assert forall i :: i in vm.forgotten ==> i in vm'.forgotten;
    }
  }
}
