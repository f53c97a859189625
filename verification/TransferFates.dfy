/**
 * What may still become of a write whose caller was given an answer other than the
 * VM's, or none yet: exactly when it can still be renamed into place, and when its
 * temp file stays behind.
 */
module TransferFates {
  import opened Wrappers
  import opened Bytes
  import opened FileOps
  import opened Transfers
  import opened Daemon
  import opened TransferSystem
  import opened TransferTheorems
  import Q = PushQueue

  // ---------------------------------------------------------------- Runs put together

  lemma {:induction false} RunThen(w: World, s: System, a: seq<Step>, b: seq<Step>)
    requires Legal(w, s, a) && Legal(w, After(w, s, a), b)
    ensures Legal(w, s, a + b) && After(w, s, a + b) == After(w, After(w, s, a), b)
    decreases |a|
  {
    hide Next, Allowed;
    if a == [] {
      assert a + b == b;
    } else {
      assert (a + b)[1..] == a[1..] + b;
      RunThen(w, Next(w, s, a[0]), a[1..], b);
    }
  }

  lemma OneStep(w: World, s: System, step: Step)
    requires Allowed(w, s, step)
    ensures Legal(w, s, [step]) && After(w, s, [step]) == Next(w, s, step)
  {
    hide Next, Allowed;
    assert [step][1..] == [];
  }

  /** Every frame a write sends stays on the wire, where the channel may repeat it. */
  ghost predicate AllSent(w: World, asked: Writes, wire: seq<(VmId, GatewayFrame)>) {
    forall id, frame :: id in asked && frame in WriteFrames(id, asked[id].path, asked[id].bytes, w.hash) ==> (US, frame) in wire
  }

  lemma WireGrows(w: World, s: System, step: Step)
    ensures s.g.wire <= Next(w, s, step).g.wire
  {
    hide To, WriteFrames, Failed, StartUpload, FeedUpload, WriterTurn, ReaderTurn, StartDownload;
  }

  lemma SentToUs(frames: seq<GatewayFrame>)
    ensures forall frame :: frame in frames ==> (US, frame) in To(US, frames)
  {
    forall frame | frame in frames ensures (US, frame) in To(US, frames) {
      var k :| 0 <= k < |frames| && frames[k] == frame;
      assert To(US, frames)[k] == (US, frame);
    }
  }

  lemma StepSends(w: World, s: System, step: Step)
    requires AllSent(w, s.asked, s.g.wire)
    ensures AllSent(w, Next(w, s, step).asked, Next(w, s, step).g.wire)
  {
    WireGrows(w, s, step);
    var s' := Next(w, s, step);
    assert forall x :: x in s.g.wire ==> x in s'.g.wire;
    if step.AskWrite? && step.vmId == US && US in s.g.sockets {
      SentToUs(WriteFrames(step.id, step.path, step.bytes, w.hash));
      hide To, WriteFrames;
    } else {
      hide WriteFrames, StartWrite;
      assert s'.asked == s.asked;
    }
  }

  lemma {:induction false} RunSends(w: World, s: System, steps: seq<Step>)
    requires AllSent(w, s.asked, s.g.wire) && Legal(w, s, steps)
    ensures AllSent(w, After(w, s, steps).asked, After(w, s, steps).g.wire)
    decreases |steps|
  {
    if steps == [] {
    } else {
      StepSends(w, s, steps[0]);
      hide AllSent, Next, Allowed;
      RunSends(w, Next(w, s, steps[0]), steps[1..]);
    }
  }

  /** Frames of the wire, taken one after the other. */
  function Takes(frames: seq<GatewayFrame>): seq<Step> {
    if frames == [] then [] else [VmTakes(frames[0])] + Takes(frames[1..])
  }

  lemma {:induction false} TakesRun(w: World, s: System, frames: seq<GatewayFrame>)
    requires forall f :: f in frames ==> (US, f) in s.g.wire && (f.FileChunk? || f.FileEnd?)
    ensures Legal(w, s, Takes(frames)) && After(w, s, Takes(frames)) == s.(vm := TakeFrames(s.vm, frames))
    decreases |frames|
  {
    if frames == [] {
    } else {
      var s' := Next(w, s, VmTakes(frames[0]));
      assert s' == s.(vm := TakeFrame(s.vm, frames[0]));
      assert Takes(frames)[1..] == Takes(frames[1..]);
      TakesRun(w, s', frames[1..]);
    }
  }

  function Writes(id: Id, n: nat): seq<Step> {
    if n == 0 then [] else [VmWrites(id)] + Writes(id, n - 1)
  }

  lemma {:induction false} WritesRun(w: World, s: System, id: Id, n: nat)
    ensures Legal(w, s, Writes(id, n)) && After(w, s, Writes(id, n)) == s.(vm := Turns(s.vm, id, w.hash, w.locate, n))
    decreases n
  {
    if n > 0 {
      var s' := Next(w, s, VmWrites(id));
      hide WriterTurn;
      assert Writes(id, n)[1..] == Writes(id, n - 1);
      WritesRun(w, s', id, n - 1);
    }
  }

  // ---------------------------------------------------------------- When a write may still land

  /** Its path leads to a file, and it is not too large. */
  predicate Fits(w: World, a: Asked) {
    w.locate(a.path).Target? && |a.bytes| <= MAX_FILE_BYTES
  }

  /** The VM has not begun the write, or its upload is open and has seen no chunk out of its turn. */
  ghost predicate MayLand(w: World, s: System, id: Id) {
    && id in s.asked && Fits(w, s.asked[id])
    && (id !in s.begun || (id in s.vm.uploads && s.vm.uploads[id].queue.failure.None?))
  }

  ghost predicate Lands(w: World, s: System, more: seq<Step>, id: Id) {
    Legal(w, s, more) && Committed(After(w, s, more).vm.commits, id)
  }

  /** The pieces still to come complete what was taken and queued. */
  lemma RestJoins(taken: Bytes, items: seq<Bytes>, pieces: seq<Bytes>, k: nat)
    requires k <= |pieces| && taken + Flatten(items) == Flatten(pieces[..k])
    ensures taken + Flatten(items + pieces[k..]) == Flatten(pieces)
  {
    FlattenAppend(items, pieces[k..]);
    FlattenAppend(pieces[..k], pieces[k..]);
    assert pieces[..k] + pieces[k..] == pieces;
    hide Flatten;
    assert taken + (Flatten(items) + Flatten(pieces[k..])) == (taken + Flatten(items)) + Flatten(pieces[k..]);
  }

  /** What an open upload's writer has taken. */
  function Taken(u: Upload, temp: Option<Bytes>): Bytes {
    if u.phase.Writing? && temp.Some? then temp.value else []
  }

  /** An upload once the frames it still needs have come. */
  function Filled(u: Upload, pieces: seq<Bytes>): Upload
    requires u.seqNo <= |pieces|
  {
    u.(seqNo := |pieces|, queue := Q.Queue(u.queue.items + pieces[u.seqNo..], true, u.queue.failure, false))
  }

  lemma FilledIsWhole(w: World, u: Upload, temp: Option<Bytes>, asked: Writes, id: Id)
    requires UploadInv(w, u, temp, asked, id)
    ensures var pieces := Cut(asked[id].bytes);
            u.seqNo <= |pieces| && Taken(u, temp) + Flatten(Filled(u, pieces).queue.items) == asked[id].bytes
  {
    CutKeepsAll(asked[id].bytes);
    hide Cut, Flatten;
    RestJoins(Taken(u, temp), u.queue.items, Cut(asked[id].bytes), u.seqNo);
  }

  function FramesLeft(id: Id, pieces: seq<Bytes>, k: nat): seq<GatewayFrame>
    requires k <= |pieces|
  {
    ChunkFrames(id, pieces)[k..] + [FileEnd(id)]
  }

  lemma FramesLeftFill(vm: Vm, id: Id, pieces: seq<Bytes>)
    requires id in vm.uploads && vm.uploads[id].seqNo <= |pieces|
    ensures TakeFrames(vm, FramesLeft(id, pieces, vm.uploads[id].seqNo))
            == vm.(uploads := vm.uploads[id := Filled(vm.uploads[id], pieces)])
  {
    ChunksArrive(vm, id, pieces, vm.uploads[id].seqNo);
    hide TakeFrames;
  }

  /** The VM has said that the write is done. */
  ghost predicate Reported(w: World, vm: Vm, id: Id, bytes: Bytes) {
    FileDone(id, |bytes|, w.hash(bytes)) in vm.sent
  }

  lemma FilledFinishes(w: World, vm: Vm, id: Id, asked: Writes)
    requires id in vm.uploads && UploadInv(w, vm.uploads[id], TempOf(vm.temps, id), asked, id)
    requires Fits(w, asked[id]) && vm.uploads[id].queue.failure.None? && vm.uploads[id].seqNo <= |Cut(asked[id].bytes)|
    ensures var u' := Filled(vm.uploads[id], Cut(asked[id].bytes));
            var after := Turns(vm.(uploads := vm.uploads[id := u']), id, w.hash, w.locate, TurnsLeft(u'));
            Committed(after.commits, id) && Reported(w, after, id, asked[id].bytes)
  {
    var u, bytes := vm.uploads[id], asked[id].bytes;
    FilledIsWhole(w, u, TempOf(vm.temps, id), asked, id);
    hide Cut, Flatten, Turns, TurnsLeft, TakenInv;
    var u' := Filled(u, Cut(bytes));
    var vm' := vm.(uploads := vm.uploads[id := u']);
    WriterFinishes(vm', id, w.hash, w.locate, bytes);
    var after := Turns(vm', id, w.hash, w.locate, TurnsLeft(u'));
    assert after.commits[|after.commits| - 1].id == id;
    assert after.sent[|after.sent| - 1] == FileDone(id, |bytes|, w.hash(bytes));
  }

  /** With the upload open, the frames it still needs and its writer's turns commit it. */
  lemma OpenUploadLands(w: World, s: System, id: Id) returns (more: seq<Step>)
    requires Inv(w, s) && AllSent(w, s.asked, s.g.wire)
    requires id in s.asked && Fits(w, s.asked[id]) && id in s.vm.uploads && s.vm.uploads[id].queue.failure.None?
    ensures Lands(w, s, more, id) && After(w, s, more).g == s.g && Reported(w, After(w, s, more).vm, id, s.asked[id].bytes)
  {
    hide Inv, AllSent, Legal, After, Takes, Writes, TakeFrames, Turns, Cut, Flatten, FramesLeft, Fits, UploadInv, Committed, Reported, TurnsLeft;
    UploadOf(w, s, id);
    var u, pieces := s.vm.uploads[id], Cut(s.asked[id].bytes);
    FilledIsWhole(w, u, TempOf(s.vm.temps, id), s.asked, id);
    var frames := FramesLeft(id, pieces, u.seqNo);
    FramesSent(w, s, id, u.seqNo);
    TakesRun(w, s, frames);
    FramesLeftFill(s.vm, id, pieces);
    FilledFinishes(w, s.vm, id, s.asked);
    var s1, n := s.(vm := TakeFrames(s.vm, frames)), TurnsLeft(Filled(u, pieces));
    WritesRun(w, s1, id, n);
    RunThen(w, s, Takes(frames), Writes(id, n));
    more := Takes(frames) + Writes(id, n);
  }

  lemma FramesSent(w: World, s: System, id: Id, k: nat)
    requires AllSent(w, s.asked, s.g.wire) && id in s.asked && k <= |Cut(s.asked[id].bytes)|
    ensures forall f :: f in FramesLeft(id, Cut(s.asked[id].bytes), k) ==> (US, f) in s.g.wire && (f.FileChunk? || f.FileEnd?)
  {
    var a, pieces := s.asked[id], Cut(s.asked[id].bytes);
    var all := WriteFrames(id, a.path, a.bytes, w.hash);
    hide Cut;
    forall f | f in FramesLeft(id, pieces, k) ensures f in all && (f.FileChunk? || f.FileEnd?) {
      if f != FileEnd(id) {
        var i :| 0 <= i < |pieces| && ChunkFrames(id, pieces)[i] == f;
        assert all[i + 1] == f;
      } else {
        assert all[|all| - 1] == f;
      }
    }
  }

  lemma MayLandLands(w: World, s: System, id: Id) returns (more: seq<Step>)
    requires Inv(w, s) && AllSent(w, s.asked, s.g.wire) && MayLand(w, s, id)
    ensures Lands(w, s, more, id) && After(w, s, more).g == s.g && Reported(w, After(w, s, more).vm, id, s.asked[id].bytes)
  {
    if id in s.begun {
      more := OpenUploadLands(w, s, id);
    } else {
      var a := s.asked[id];
      var open := VmOpensWrite(id, a.path, |a.bytes|, w.hash(a.bytes));
      HeaderSent(w, s, id);
      hide Inv, AllSent, Fits, Reported;
      StepKeeps(w, s, open);
      StepSends(w, s, open);
      OneStep(w, s, open);
      var rest := OpenUploadLands(w, Next(w, s, open), id);
      hide Next, Allowed;
      RunThen(w, s, [open], rest);
      more := [open] + rest;
    }
  }

  lemma HeaderSent(w: World, s: System, id: Id)
    requires AllSent(w, s.asked, s.g.wire) && id in s.asked
    ensures var a := s.asked[id]; (US, FileWrite(id, a.path, |a.bytes|, w.hash(a.bytes))) in s.g.wire
  {
    var a := s.asked[id];
    var all := WriteFrames(id, a.path, a.bytes, w.hash);
    assert all[0] in all;
  }

  /** Never committed, and beyond it: refused or over, failed, or never to be let through. */
  ghost predicate Doomed(w: World, s: System, id: Id) {
    id in s.asked && !Committed(s.vm.commits, id) && !MayLand(w, s, id)
  }

  lemma {:induction false} DoomedStays(w: World, s: System, more: seq<Step>, id: Id)
    requires Inv(w, s) && Doomed(w, s, id) && Legal(w, s, more)
    ensures Doomed(w, After(w, s, more), id)
    decreases |more|
  {
    if more == [] {
    } else {
      StepKeeps(w, s, more[0]);
      DoomedStep(w, s, more[0], id);
      hide Inv, Next, Allowed, Doomed;
      DoomedStays(w, Next(w, s, more[0]), more[1..], id);
    }
  }

  /** Between two states the write comes no nearer to being committed. */
  ghost predicate NoNearer(s: System, s': System, id: Id) {
    && id in s.asked && id in s'.asked && s'.asked[id] == s.asked[id] && s.begun <= s'.begun
    && (Committed(s'.vm.commits, id) <==> Committed(s.vm.commits, id))
    && (id in s'.vm.uploads && id in s.begun ==> id in s.vm.uploads && FailureStays(s.vm.uploads[id], s'.vm.uploads[id]))
  }

  ghost predicate FailureStays(u: Upload, u': Upload) {
    u.queue.failure.Some? ==> u'.queue.failure.Some?
  }

  /** What a step does to one upload that is doomed. */
  lemma DoomedStep(w: World, s: System, step: Step, id: Id)
    requires Inv(w, s) && Doomed(w, s, id) && Allowed(w, s, step)
    ensures Doomed(w, Next(w, s, step), id)
  {
    var s' := Next(w, s, step);
    hide Inv;
    StepStays(w, s, step);
    UploadOf(w, s, id);
    if step.VmWrites? {
      DoomedTurn(w, s, step.id, id);
    } else {
      hide Stays, UploadInv;
      OtherSteps(w, s, step, id);
      StillDoomed(w, s, s', id);
    }
  }

  lemma OtherSteps(w: World, s: System, step: Step, id: Id)
    requires Allowed(w, s, step) && !step.VmWrites? && id in s.asked
    requires Stays(s, Next(w, s, step))
    ensures NoNearer(s, Next(w, s, step), id)
  {
    var s' := Next(w, s, step);
    assert id in s'.asked && s'.asked[id] == s.asked[id] by { hide Keeps, Next; }
    assert s.begun <= s'.begun && (id in s.begun && step.VmOpensWrite? ==> step.id != id) by {
      hide StartWrite, StartRead, Receive, Fail, CloseSocket, FeedUpload, EndUpload, WriterBreaks, StartUpload, StartDownload, ReaderTurn;
    }
    hide Stays, Keeps;
    if step.VmTakes? || step.VmOpensWrite? || step.DiskFails? {
      hide Committed;
    } else {
      GatewayOnly(w, s, step);
      hide Next, Committed;
    }
  }

  /** The other steps leave the uploads alone. */
  lemma GatewayOnly(w: World, s: System, step: Step)
    requires !step.VmWrites? && !step.VmTakes? && !step.VmOpensWrite? && !step.DiskFails?
    ensures var s' := Next(w, s, step);
            s'.vm.uploads == s.vm.uploads && s'.vm.temps == s.vm.temps && s'.vm.commits == s.vm.commits
  {
    hide StartWrite, StartRead, Receive, Fail, CloseSocket, PieceFrames, Cut, Flatten;
  }

  lemma UploadOf(w: World, s: System, id: Id)
    requires Inv(w, s)
    ensures id in s.vm.uploads ==> id in s.begun && id in s.asked && UploadInv(w, s.vm.uploads[id], TempOf(s.vm.temps, id), s.asked, id)
  {
    hide WireInv, DownloadsInv, CommitsInv, Reports, WritersTold, TakenInv;
  }

  lemma StillDoomed(w: World, s: System, s': System, id: Id)
    requires Doomed(w, s, id) && NoNearer(s, s', id) && (id in s.vm.uploads ==> id in s.begun)
    ensures Doomed(w, s', id)
  {
    hide Committed, Fits;
  }

  lemma DoomedTurn(w: World, s: System, turn: Id, id: Id)
    requires Doomed(w, s, id)
    requires id in s.vm.uploads ==> id in s.begun && UploadInv(w, s.vm.uploads[id], TempOf(s.vm.temps, id), s.asked, id)
    ensures Doomed(w, s.(vm := WriterTurn(s.vm, turn, w.hash, w.locate)), id)
  {
    var vm' := WriterTurn(s.vm, turn, w.hash, w.locate);
    if turn == id {
      hide Committed, TakenInv;
      assert vm'.commits == s.vm.commits;
      assert id in vm'.uploads ==> id in s.vm.uploads && vm'.uploads[id].queue.failure == s.vm.uploads[id].queue.failure;
    } else {
      CommitsOwn(s.vm, turn, w.hash, w.locate, id);
      hide Committed, TakenInv, Fits, UploadInv;
      assert id in vm'.uploads <==> id in s.vm.uploads;
      assert id in vm'.uploads ==> vm'.uploads[id] == s.vm.uploads[id];
      assert Doomed(w, s.(vm := vm'), id);
    }
  }

  lemma CommitsOwn(vm: Vm, turn: Id, hash: Hash, locate: Locate, id: Id)
    requires turn != id
    ensures Committed(WriterTurn(vm, turn, hash, locate).commits, id) <==> Committed(vm.commits, id)
  {
    if turn in vm.uploads && vm.uploads[turn].phase.Writing? && turn in vm.temps {
      OneCommitMore(vm.commits, Commit(turn, vm.uploads[turn].phase.target, vm.temps[turn]));
    }
    hide Committed;
  }

  /**
   * What may become of a write that is not in place yet, whatever its caller was told:
   * some continuation puts it there if and only if it fits and the VM has not begun it
   * or holds it open without having seen a chunk out of turn.
   */
  lemma LandsIffMayLand(w: World, steps: seq<Step>, id: Id)
    requires Legal(w, Start(w), steps)
    requires var s := Reached(w, steps); id in s.asked && !Committed(s.vm.commits, id)
    ensures (exists more :: Lands(w, Reached(w, steps), more, id)) <==> MayLand(w, Reached(w, steps), id)
  {
    var s := Reached(w, steps);
    ReachedInv(w, steps);
    RunSends(w, Start(w), steps);
    hide Inv, Legal, After, MayLand, AllSent, Committed, Reached;
    if MayLand(w, s, id) {
      var more := MayLandLands(w, s, id);
    } else {
      forall more ensures !Lands(w, s, more, id) {
        if Legal(w, s, more) { DoomedStays(w, s, more, id); }
      }
    }
  }

  lemma Extend(w: World, s: System, steps: seq<Step>, step: Step)
    requires Legal(w, s, steps) && Allowed(w, After(w, s, steps), step)
    ensures Legal(w, s, steps + [step]) && After(w, s, steps + [step]) == Next(w, After(w, s, steps), step)
  {
    hide Next, Allowed;
    OneStep(w, After(w, s, steps), step);
    RunThen(w, s, steps, [step]);
  }

  /** A write is asked for on the only socket. */
  lemma Asking(w: World, path: string, bytes: Bytes) returns (steps: seq<Step>)
    ensures Legal(w, Start(w), steps)
    ensures Reached(w, steps) == Start(w).(
              g := Gateway(map[0 := Write(US, 0)], map[0 := WritePending], map[US := 0], To(US, WriteFrames(0, path, bytes, w.hash))),
              asked := map[0 := Asked(path, bytes)])
  {
    OneStep(w, Start(w), Connect(US, 0));
    steps := [Connect(US, 0)];
    var s := Next(w, Start(w), steps[0]);
    hide Legal, After, WriteFrames, To;
    Extend(w, Start(w), steps, AskWrite(0, US, path, bytes));
    steps := steps + [AskWrite(0, US, path, bytes)];
    assert s.g.wire + To(US, WriteFrames(0, path, bytes, w.hash)) == To(US, WriteFrames(0, path, bytes, w.hash));
  }

  /**
   * Any write that fits may be given up on, for a timeout or a closed socket, and be
   * put in place all the same.
   */
  lemma GivenUpMayLand(w: World, path: string, bytes: Bytes, closes: bool) returns (steps: seq<Step>, more: seq<Step>)
    requires Fits(w, Asked(path, bytes))
    ensures Legal(w, Start(w), steps)
    ensures var s := Reached(w, steps);
            && 0 in s.asked && s.asked[0] == Asked(path, bytes)
            && 0 in s.g.promises && s.g.promises[0] == WriteRejected(if closes then Unavailable else TimedOut)
            && Lands(w, s, more, 0)
  {
    steps := Asking(w, path, bytes);
    var givesUp := if closes then SocketCloses(0) else Timeout(0);
    hide Legal, After, WriteFrames, To, Fits, Inv, AllSent, Committed;
    Extend(w, Start(w), steps, givesUp);
    steps := steps + [givesUp];
    ReachedInv(w, steps);
    RunSends(w, Start(w), steps);
    more := MayLandLands(w, Reached(w, steps), 0);
  }

  // ---------------------------------------------------------------- Temp files

  /** There is a temp file exactly while its upload is being written. */
  lemma TempWhileWriting(w: World, steps: seq<Step>, id: Id)
    requires Legal(w, Start(w), steps)
    ensures var vm := Reached(w, steps).vm; id in vm.temps <==> id in vm.uploads && vm.uploads[id].phase.Writing?
  {
    ReachedInv(w, steps);
    UploadOf(w, Reached(w, steps), id);
    hide WireInv, DownloadsInv, CommitsInv, Reports, WritersTold, Legal, After, TakenInv;
  }

  lemma StepVmValid(w: World, s: System, step: Step)
    requires VmValid(s.vm) && Allowed(w, s, step)
    ensures VmValid(Next(w, s, step).vm)
  {
    match step
    case VmOpensWrite(id, path, size, sha256) =>
      FrameKeeps(s.vm, FileWrite(id, path, size, sha256));
      hide VmValid;
    case VmTakes(frame) =>
      FrameKeeps(s.vm, frame);
      hide VmValid;
    case VmWrites(id) =>
      TurnKeeps(s.vm, id, w.hash, w.locate);
      hide VmValid, WriterTurn;
    case DiskFails(id) =>
    case _ =>
      GatewayOnly(w, s, step);
      hide Next, WriterOk;
  }

  lemma {:induction false} RunVmValid(w: World, s: System, steps: seq<Step>)
    requires VmValid(s.vm) && Legal(w, s, steps)
    ensures VmValid(After(w, s, steps).vm)
    decreases |steps|
  {
    if steps == [] {
    } else {
      StepVmValid(w, s, steps[0]);
      hide VmValid, Next, Allowed;
      RunVmValid(w, Next(w, s, steps[0]), steps[1..]);
    }
  }

  /**
   * No writer misses a wake-up: in every reachable state one that sleeps has written
   * all that was queued, the pieces whose turn has come, and its queue is empty and
   * neither closed nor failed.
   */
  lemma SleeperHasAll(w: World, steps: seq<Step>, id: Id)
    requires Legal(w, Start(w), steps)
    requires var vm := Reached(w, steps).vm; id in vm.uploads && vm.uploads[id].queue.sleeping
    ensures var s := Reached(w, steps);
            var u := s.vm.uploads[id];
            && id in s.asked && u.seqNo <= |Cut(s.asked[id].bytes)|
            && id in s.vm.temps && s.vm.temps[id] == Flatten(Cut(s.asked[id].bytes)[..u.seqNo])
            && u.phase.Writing? && u.queue.items == [] && !u.queue.closed && u.queue.failure.None?
  {
    var s := Reached(w, steps);
    ReachedInv(w, steps);
    RunVmValid(w, Start(w), steps);
    UploadOf(w, s, id);
    hide Inv, Legal, After, Cut;
    assert WriterOk(s.vm.uploads[id]);
    assert s.vm.temps[id] + [] == s.vm.temps[id];
  }

  /** A writer asleep over its temp file. */
  ghost predicate SleepsOn(vm: Vm, id: Id) {
    id in vm.temps && id in vm.uploads && vm.uploads[id].phase.Writing? && vm.uploads[id].queue.sleeping
  }

  predicate Rouses(step: Step, id: Id) {
    match step
    case VmTakes(frame) => (frame.FileChunk? || frame.FileEnd?) && frame.transferId == id
    case DiskFails(i) => i == id
    case _ => false
  }

  lemma SleepsThroughStep(w: World, s: System, step: Step, id: Id)
    requires id in s.begun && Allowed(w, s, step) && SleepsOn(s.vm, id) && !Rouses(step, id)
    ensures SleepsOn(Next(w, s, step).vm, id) && Next(w, s, step).vm.temps[id] == s.vm.temps[id]
  {
    if step.VmWrites? {
      SleepsThroughTurn(s.vm, step.id, w.hash, w.locate, id);
      hide SleepsOn, WriterTurn;
    } else if step.VmTakes? || step.VmOpensWrite? || step.DiskFails? {
    } else {
      GatewayOnly(w, s, step);
      hide Next;
    }
  }

  lemma SleepsThroughTurn(vm: Vm, turn: Id, hash: Hash, locate: Locate, id: Id)
    requires SleepsOn(vm, id)
    ensures SleepsOn(WriterTurn(vm, turn, hash, locate), id) && WriterTurn(vm, turn, hash, locate).temps[id] == vm.temps[id]
  {
  }

  /** Nothing but a frame of its own, or its disk, ends a temp file whose writer sleeps: no socket's close, no time. */
  lemma {:induction false} SleepingTempStays(w: World, s: System, more: seq<Step>, id: Id)
    requires Inv(w, s) && Legal(w, s, more) && SleepsOn(s.vm, id)
    requires forall step :: step in more ==> !Rouses(step, id)
    ensures var s' := After(w, s, more); SleepsOn(s'.vm, id) && s'.vm.temps[id] == s.vm.temps[id]
    decreases |more|
  {
    if more == [] {
    } else {
      StepKeeps(w, s, more[0]);
      UploadOf(w, s, id);
      SleepsThroughStep(w, s, more[0], id);
      hide Inv, Next, Allowed, SleepsOn, Rouses;
      SleepingTempStays(w, Next(w, s, more[0]), more[1..], id);
    }
  }

  /** The VM opens the only write and writes what it has, which is nothing; then the socket closes. */
  lemma LeftAsleep(w: World, path: string, bytes: Bytes) returns (steps: seq<Step>)
    requires Fits(w, Asked(path, bytes))
    ensures Legal(w, Start(w), steps)
    ensures var s := Reached(w, steps);
            0 in s.g.promises && s.g.promises[0] == WriteRejected(Unavailable) && SleepsOn(s.vm, 0)
  {
    var before := Asking(w, path, bytes);
    var opens := VmOpensWrite(0, path, |bytes|, w.hash(bytes));
    var frames := WriteFrames(0, path, bytes, w.hash);
    assert (US, frames[0]) in To(US, frames) by { assert To(US, frames)[0] == (US, frames[0]); }
    hide Legal, After, WriteFrames, To;
    Extend(w, Start(w), before, opens);
    steps := before + [opens];
    var s := Reached(w, steps);
    WritesRun(w, s, 0, 2);
    RunThen(w, Start(w), steps, Writes(0, 2));
    steps := steps + Writes(0, 2);
    assert SleepsOn(Turns(s.vm, 0, w.hash, w.locate, 2), 0);
    var s' := Reached(w, steps);
    assert s'.g == s.g && SleepsOn(s'.vm, 0);
    hide Turns, SleepsOn, Writes;
    Extend(w, Start(w), steps, SocketCloses(0));
    steps := steps + [SocketCloses(0)];
  }

  /** A write whose caller was told the VM is gone, and whose temp file is left for good unless its frames still come. */
  lemma GivenUpTempStays(w: World, path: string, bytes: Bytes) returns (steps: seq<Step>)
    requires Fits(w, Asked(path, bytes))
    ensures Legal(w, Start(w), steps)
    ensures var s := Reached(w, steps); 0 in s.g.promises && s.g.promises[0] == WriteRejected(Unavailable)
    ensures forall more :: Legal(w, Reached(w, steps), more) && (forall step :: step in more ==> !Rouses(step, 0)) ==>
              0 in After(w, Reached(w, steps), more).vm.temps
  {
    steps := LeftAsleep(w, path, bytes);
    hide Legal, After, Inv, Rouses;
    ReachedInv(w, steps);
    var s := Reached(w, steps);
    forall more | Legal(w, s, more) && (forall step :: step in more ==> !Rouses(step, 0))
      ensures 0 in After(w, s, more).vm.temps
    {
      SleepingTempStays(w, s, more, 0);
    }
  }
}
