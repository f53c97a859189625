/** What holds in every run of the gateway, the VM and the channel between them. */
module TransferTheorems {
  import opened Wrappers
  import opened Bytes
  import opened FileOps
  import opened Transfers
  import opened Daemon
  import opened TransferSystem
  import Q = PushQueue

  ghost function Reached(w: World, steps: seq<Step>): System {
    After(w, Start(w), steps)
  }

  lemma ReachedInv(w: World, steps: seq<Step>)
    requires Legal(w, Start(w), steps)
    ensures Inv(w, Reached(w, steps))
  {
    StartInv(w);
    RunKeeps(w, Start(w), steps);
  }

  // ---------------------------------------------------------------- What stays through a run

  /** What was asked stays, what is settled stays, and a stream keeps what it carries. */
  ghost predicate Stays(s: System, s': System) {
    && Keeps(s.g, s'.g)
    && (forall id :: id in s.asked ==> id in s'.asked && s'.asked[id] == s.asked[id])
    && (forall id :: id in s.wanted ==> id in s'.wanted && s'.wanted[id] == s.wanted[id])
    && (forall id :: id in s.streams ==> id in s'.streams && s'.streams[id].content == s.streams[id].content)
    && s.vm.commits <= s'.vm.commits
  }

  lemma StepStays(w: World, s: System, step: Step)
    requires Inv(w, s) && Allowed(w, s, step)
    ensures Stays(s, Next(w, s, step))
  {
    hide Inv, Keeps, Next, Allowed;
    CallersStay(w, s, step);
    CommitsStay(w, s, step);
    ReadIsNew(w, s, step);
    AskedIsNew(w, s, step);
    RequestsStay(w, s, step);
  }

  lemma ReadIsNew(w: World, s: System, step: Step)
    requires Inv(w, s) && Allowed(w, s, step)
    ensures step.VmOpensRead? ==> step.id !in s.streams
  {
    hide UploadsInv, WireInv;
    if step.VmOpensRead? { NotYetStreamed(w, s, step.id); }
  }

  lemma RequestsStay(w: World, s: System, step: Step)
    requires step.AskWrite? || step.AskRead? ==> step.id !in s.asked && step.id !in s.wanted
    requires step.VmOpensRead? ==> step.id !in s.streams
    ensures var s' := Next(w, s, step);
            && (forall id :: id in s.asked ==> id in s'.asked && s'.asked[id] == s.asked[id])
            && (forall id :: id in s.wanted ==> id in s'.wanted && s'.wanted[id] == s.wanted[id])
            && (forall id :: id in s.streams ==> id in s'.streams && s'.streams[id].content == s.streams[id].content)
  {
    hide Receive, CloseSocket, StartWrite, StartRead, Fail, WriterTurn, WriterBreaks, FeedUpload, ReaderTurn, StartDownload;
  }

  lemma AskedIsNew(w: World, s: System, step: Step)
    requires Inv(w, s) && Allowed(w, s, step)
    ensures step.AskWrite? || step.AskRead? ==> step.id !in s.asked && step.id !in s.wanted
  {
    hide UploadsInv, DownloadsInv;
  }

  lemma CommitsStay(w: World, s: System, step: Step)
    ensures s.vm.commits <= Next(w, s, step).vm.commits
  {
    hide Receive, CloseSocket, StartWrite, StartRead, Fail;
  }

  lemma CallersStay(w: World, s: System, step: Step)
    requires Inv(w, s) && Allowed(w, s, step)
    ensures Keeps(s.g, Next(w, s, step).g)
  {
    hide UploadsInv, DownloadsInv, FrameInv;
    match step
    case AskWrite(id, vmId, path, bytes) => StartWriteKeeps(s.g, id, vmId, path, bytes, w.hash);
    case AskRead(id, vmId, path) => StartReadKeeps(s.g, id, vmId, path);
    case Deliver(vmId, frame) => ReceiveKeeps(s.g, vmId, frame, w.hash);
    case Timeout(id) => FailKeeps(s.g, id, TimedOut);
    case SocketCloses(socket) => CloseSocketKeeps(s.g, socket);
    case _ =>
  }

  lemma {:induction false} RunStays(w: World, s: System, steps: seq<Step>)
    requires Inv(w, s) && Legal(w, s, steps)
    ensures Stays(s, After(w, s, steps))
    decreases |steps|
  {
    if steps == [] {
    } else {
      StepStays(w, s, steps[0]);
      StepKeeps(w, s, steps[0]);
      hide Inv, Next, Allowed;
      RunStays(w, Next(w, s, steps[0]), steps[1..]);
    }
  }

  // ---------------------------------------------------------------- Uploads

  /** The write at id was committed: exactly these bytes went to the file its path leads to. */
  ghost predicate Landed(w: World, s: System, id: Id, path: string, bytes: Bytes) {
    exists k :: 0 <= k < |s.vm.commits| && LandedAt(w, s, id, path, bytes, k)
  }

  ghost predicate LandedAt(w: World, s: System, id: Id, path: string, bytes: Bytes, k: nat)
    requires k < |s.vm.commits|
  {
    && w.locate(path).Target?
    && s.vm.commits[k] == Commit(id, w.locate(path).target, bytes)
    && HeldBy(ApplyCommits(w.files, s.vm.commits[..k + 1]), w.locate(path).target, bytes)
  }

  ghost predicate HeldBy(files: map<string, Bytes>, target: string, bytes: Bytes) {
    target in files && files[target] == bytes
  }

  /**
   * Upload, end to end: whatever the channel drops, repeats or reorders, a write
   * resolves only with its own size and hash, and only once exactly its bytes have
   * been renamed over its target.
   */
  lemma ResolvedMeansWritten(w: World, steps: seq<Step>, id: Id)
    requires Legal(w, Start(w), steps)
    requires var s := Reached(w, steps);
             id in s.asked && id in s.g.promises && s.g.promises[id].WriteResolved?
    ensures var s := Reached(w, steps);
            var a := s.asked[id];
            && s.g.promises[id] == WriteResolved(|a.bytes|, w.hash(a.bytes))
            && Landed(w, s, id, a.path, a.bytes)
  {
    ReachedInv(w, steps);
    var s := Reached(w, steps);
    hide DownloadsInv, Running, Reports;
    assert PromiseInv(w, s.vm, s.begun, s.asked[id], id, s.g.promises[id]);
    CommittedLanded(w, s, id);
  }

  lemma CommittedLanded(w: World, s: System, id: Id)
    requires Inv(w, s) && Committed(s.vm.commits, id)
    ensures id in s.asked && Landed(w, s, id, s.asked[id].path, s.asked[id].bytes)
  {
    hide DownloadsInv, Running, Reports, WritersTold;
    var k :| 0 <= k < |s.vm.commits| && s.vm.commits[k].id == id;
    assert CommitInv(w, s.asked, s.vm.commits[k]);
    assert s.vm.commits[..k + 1][..k] == s.vm.commits[..k];
    assert LandedAt(w, s, id, s.asked[id].path, s.asked[id].bytes, k);
  }

  /** The files of the VM are those at the start with the commits made since: nothing else was written. */
  lemma FilesAreCommits(w: World, steps: seq<Step>, target: string)
    requires Legal(w, Start(w), steps)
    ensures var s := Reached(w, steps);
            && s.vm.files == ApplyCommits(w.files, s.vm.commits)
            && (forall j, k :: 0 <= j < k < |s.vm.commits| ==> s.vm.commits[j].id != s.vm.commits[k].id)
            && (forall k :: 0 <= k < |s.vm.commits| && LastFor(s.vm.commits, target, k) ==>
                  HeldBy(s.vm.files, target, s.vm.commits[k].content))
            && ((forall k :: 0 <= k < |s.vm.commits| ==> s.vm.commits[k].target != target) ==>
                  (target in s.vm.files <==> target in w.files)
                  && (target in w.files ==> s.vm.files[target] == w.files[target]))
  {
    ReachedInv(w, steps);
    var s := Reached(w, steps);
    hide DownloadsInv, Running, Reports, WritersTold, CommitInv, Over;
    hide Reached;
    LastCommitWins(w.files, s.vm.commits, target);
  }

  /** The k-th commit is the last one made to its target. */
  ghost predicate LastFor(commits: seq<Commit>, target: string, k: nat)
    requires k < |commits|
  {
    commits[k].target == target && forall j :: k < j < |commits| ==> commits[j].target != target
  }

  lemma {:induction false} LastCommitWins(files: map<string, Bytes>, commits: seq<Commit>, target: string)
    ensures forall k :: 0 <= k < |commits| && LastFor(commits, target, k) ==>
              HeldBy(ApplyCommits(files, commits), target, commits[k].content)
    ensures (forall k :: 0 <= k < |commits| ==> commits[k].target != target) ==>
              var after := ApplyCommits(files, commits);
              (target in after <==> target in files) && (target in files ==> after[target] == files[target])
    decreases |commits|
  {
    if commits == [] {
    } else {
      var before := commits[..|commits| - 1];
      LastCommitWins(files, before, target);
      forall k | 0 <= k < |commits| && LastFor(commits, target, k)
        ensures HeldBy(ApplyCommits(files, commits), target, commits[k].content)
      {
        if k < |before| {
          assert LastFor(before, target, k) && before[k] == commits[k];
          assert commits[|before|].target != target;
        }
      }
    }
  }

  /**
   * A write its VM refused was never committed, leaves no temp file, and is never
   * committed in any continuation of the run.
   */
  lemma RefusedMeansUntouched(w: World, steps: seq<Step>, more: seq<Step>, id: Id)
    requires Legal(w, Start(w), steps) && Legal(w, Reached(w, steps), more)
    requires var s := Reached(w, steps);
             id in s.asked && id in s.g.promises && s.g.promises[id].WriteRejected? && s.g.promises[id].why.Remote?
    ensures var s' := After(w, Reached(w, steps), more);
            && id in s'.g.promises && s'.g.promises[id] == Reached(w, steps).g.promises[id]
            && !Committed(s'.vm.commits, id) && id !in s'.vm.uploads && id !in s'.vm.temps
  {
    var s := Reached(w, steps);
    ReachedInv(w, steps);
    RunStays(w, s, more);
    RunKeeps(w, s, more);
    hide DownloadsInv, Legal, After, Reached, CommitsInv, Reports, UploadInv;
    var s' := After(w, s, more);
    assert PromiseInv(w, s'.vm, s'.begun, s'.asked[id], id, s'.g.promises[id]);
  }

  /** A caller that is told something is told it once. */
  lemma SettledOnce(w: World, steps: seq<Step>, more: seq<Step>, id: Id)
    requires Legal(w, Start(w), steps) && Legal(w, Reached(w, steps), more)
    requires id in Reached(w, steps).g.promises
    ensures var s, s' := Reached(w, steps), After(w, Reached(w, steps), more);
            && id in s'.g.promises
            && (Settled(s.g.promises[id]) <==> id !in s.g.transfers)
            && (Settled(s.g.promises[id]) ==> s'.g.promises[id] == s.g.promises[id])
  {
    var s := Reached(w, steps);
    ReachedInv(w, steps);
    RunStays(w, s, more);
    hide UploadsInv, DownloadsInv, Legal, After, Reached;
  }

  lemma AsksOne(w: World, s: System, step: Step, id: Id)
    requires id !in s.asked && id in Next(w, s, step).asked
    ensures step == AskWrite(id, US, Next(w, s, step).asked[id].path, Next(w, s, step).asked[id].bytes)
  {
    hide StartWrite, WriterTurn, StartDownload, ReaderTurn;
  }

  /** A write was asked with just these bytes, by a caller who was not turned away. */
  lemma {:induction false} AskedWasAsked(w: World, s: System, steps: seq<Step>, id: Id)
    requires Inv(w, s) && Legal(w, s, steps) && id in After(w, s, steps).asked && id !in s.asked
    ensures exists k :: 0 <= k < |steps| && steps[k] == AskWrite(id, US, After(w, s, steps).asked[id].path, After(w, s, steps).asked[id].bytes)
    decreases |steps|
  {
    var s1 := Next(w, s, steps[0]);
    StepKeeps(w, s, steps[0]);
    RunStays(w, s1, steps[1..]);
    if id in s1.asked { AsksOne(w, s, steps[0], id); }
    hide Inv, Next, Allowed;
    if id !in s1.asked {
      AskedWasAsked(w, s1, steps[1..], id);
      var k :| 0 <= k < |steps[1..]|
            && steps[1..][k] == AskWrite(id, US, After(w, s, steps).asked[id].path, After(w, s, steps).asked[id].bytes);
      assert steps[k + 1] == steps[1..][k];
    }
  }

  // ---------------------------------------------------------------- Downloads

  /**
   * Download, end to end: a stream that closed cleanly carried a beginning of the
   * content its read was opened on, with the hash of the whole; so it carried
   * exactly that content, unless a shorter beginning has the very same hash.
   */
  lemma ClosedMeansWhole(w: World, steps: seq<Step>, id: Id)
    requires Legal(w, Start(w), steps)
    requires var s := Reached(w, steps);
             && id in s.wanted && id in s.g.promises
             && s.g.promises[id].ReadStarted? && s.g.promises[id].stream.Closed?
    ensures var s := Reached(w, steps);
            && id in s.streams
            && var bytes, content := s.g.promises[id].stream.bytes, s.streams[id].content;
            && bytes <= content && w.hash(bytes) == w.hash(content)
            && ((forall k :: 0 <= k < |content| ==> w.hash(content[..k]) != w.hash(content)) ==> bytes == content)
  {
    ReachedInv(w, steps);
    var s := Reached(w, steps);
    hide WireInv, UploadsInv, Reached;
    var p := s.g.promises[id];
    assert ReaderInv(w, s.streams, id, p) && StreamInv(s.streams[id]);
    var bytes, t := p.stream.bytes, s.streams[id];
    var n: nat :| IsPrefix(s.streams, id, bytes, n);
    FlattenPrefix(t.pieces, n);
    assert bytes == t.content[..|bytes|];
    if |bytes| == |t.content| { assert bytes == t.content; }
  }

  /** Every stream, open, broken or closed, carried a beginning of that content. */
  lemma StreamsArePrefixes(w: World, steps: seq<Step>, id: Id)
    requires Legal(w, Start(w), steps)
    requires var s := Reached(w, steps); id in s.wanted && id in s.g.promises && s.g.promises[id].ReadStarted?
    ensures var s := Reached(w, steps);
            if id in s.streams then s.g.promises[id].stream.bytes <= s.streams[id].content
            else s.g.promises[id].stream.bytes == []
  {
    ReachedInv(w, steps);
    var s := Reached(w, steps);
    hide WireInv, UploadsInv, Reached;
    var bytes := s.g.promises[id].stream.bytes;
    assert ReaderInv(w, s.streams, id, s.g.promises[id]);
    var n: nat :| IsPrefix(s.streams, id, bytes, n);
    if id in s.streams {
      assert StreamInv(s.streams[id]);
      FlattenPrefix(s.streams[id].pieces, n);
    }
  }

  /** The file at the path asked for had this content when the VM opened the read. */
  ghost predicate OpenedOn(w: World, before: System, step: Step, id: Id, path: string, content: Bytes) {
    && step.VmOpensRead? && step.id == id && step.path == path
    && w.locate(path).Target? && HeldBy(before.vm.files, w.locate(path).target, content)
  }

  lemma {:induction false} StreamsAreFiles(w: World, s: System, steps: seq<Step>, id: Id)
    requires Inv(w, s) && Legal(w, s, steps) && id in After(w, s, steps).streams && id !in s.streams
    ensures id in After(w, s, steps).wanted
    ensures exists k :: 0 <= k < |steps|
              && OpenedOn(w, After(w, s, steps[..k]), steps[k], id, After(w, s, steps).wanted[id], After(w, s, steps).streams[id].content)
    decreases |steps|
  {
    var s1, s' := Next(w, s, steps[0]), After(w, s, steps);
    StepKeeps(w, s, steps[0]);
    RunStays(w, s1, steps[1..]);
    if id in s1.streams {
      OpensOn(w, s, steps[0], id);
      assert After(w, s, steps[..0]) == s;
      assert OpenedOn(w, After(w, s, steps[..0]), steps[0], id, s'.wanted[id], s'.streams[id].content);
    } else {
      hide Inv, Next, Allowed;
      StreamsAreFiles(w, s1, steps[1..], id);
      var k :| 0 <= k < |steps[1..]|
            && OpenedOn(w, After(w, s1, steps[1..][..k]), steps[1..][k], id, s'.wanted[id], s'.streams[id].content);
      OneStepOn(w, s, steps, k);
    }
  }

  /** The state before a later step, counted from one step on. */
  lemma OneStepOn(w: World, s: System, steps: seq<Step>, k: nat)
    requires k < |steps| - 1
    ensures After(w, s, steps[..k + 1]) == After(w, Next(w, s, steps[0]), steps[1..][..k]) && steps[k + 1] == steps[1..][k]
  {
    hide Next;
    assert steps[..k + 1][1..] == steps[1..][..k] && steps[..k + 1][0] == steps[0];
  }

  lemma OpensOn(w: World, s: System, step: Step, id: Id)
    requires Inv(w, s) && Allowed(w, s, step) && id !in s.streams && id in Next(w, s, step).streams
    ensures var s' := Next(w, s, step);
            id in s'.wanted && OpenedOn(w, s, step, id, s'.wanted[id], s'.streams[id].content)
  {
    assert step.VmOpensRead? && step.id == id by { hide Inv; }
    assert FrameInv(w, s.asked, s.wanted, FileRead(id, step.path)) by { hide UploadsInv, DownloadsInv; }
    assert id !in s.vm.downloads by { hide WireInv, UploadsInv; }
    hide Inv;
    OpensItsFile(w, s, step);
  }

  lemma OpensItsFile(w: World, s: System, step: Step)
    requires step.VmOpensRead? && Allowed(w, s, step) && step.id !in s.streams && step.id !in s.vm.downloads
    requires step.id in s.wanted && s.wanted[step.id] == step.path && step.id in Next(w, s, step).streams
    ensures var s' := Next(w, s, step);
            step.id in s'.wanted && OpenedOn(w, s, step, step.id, s'.wanted[step.id], s'.streams[step.id].content)
  {
  }

  // ---------------------------------------------------------------- A channel that behaves

  lemma {:induction false} ChunksArrive(vm: Vm, id: Id, pieces: seq<Bytes>, k: nat)
    requires k <= |pieces| && id in vm.uploads && vm.uploads[id].seqNo == k
    ensures var u := vm.uploads[id];
            TakeFrames(vm, ChunkFrames(id, pieces)[k..] + [FileEnd(id)])
            == vm.(uploads := vm.uploads[id := u.(seqNo := |pieces|,
                 queue := Q.Queue(u.queue.items + pieces[k..], true, u.queue.failure, false))])
    decreases |pieces| - k
  {
    var u, frames := vm.uploads[id], ChunkFrames(id, pieces)[k..] + [FileEnd(id)];
    if k == |pieces| {
      assert frames == [FileEnd(id)] && pieces[k..] == [];
      assert frames[1..] == [] && u.queue.items + [] == u.queue.items;
      assert TakeFrames(vm, frames) == TakeFrames(EndUpload(vm, id), frames[1..]);
    } else {
      assert frames[0] == FileChunk(id, k, pieces[k]);
      assert frames[1..] == ChunkFrames(id, pieces)[k + 1..] + [FileEnd(id)];
      assert u.queue.items + pieces[k..] == u.queue.items + [pieces[k]] + pieces[k + 1..];
      var vm' := TakeFrame(vm, frames[0]);
      ChunksArrive(vm', id, pieces, k + 1);
    }
  }

  /** What all the frames of a write leave of it, taken once and in order. */
  function WholeUpload(path: string, bytes: Bytes, hash: Hash): Upload {
    Upload(Q.Queue(Cut(bytes), true, None, false), |Cut(bytes)|, path, |bytes|, hash(bytes), Opening)
  }

  lemma FramesTaken(vm: Vm, id: Id, path: string, bytes: Bytes, hash: Hash)
    ensures TakeFrames(vm, WriteFrames(id, path, bytes, hash)) == vm.(uploads := vm.uploads[id := WholeUpload(path, bytes, hash)])
  {
    hide Cut;
    var pieces, frames := Cut(bytes), WriteFrames(id, path, bytes, hash);
    var vm1 := TakeFrame(vm, frames[0]);
    var rest := ChunkFrames(id, pieces)[0..] + [FileEnd(id)];
    assert frames[1..] == rest && TakeFrames(vm, frames) == TakeFrames(vm1, rest);
    hide TakeFrames, WriteFrames;
    ChunksArrive(vm1, id, pieces, 0);
    assert [] + pieces[0..] == pieces;
  }

  /**
   * When every frame of a write arrives once and in order, its writer puts exactly
   * the bytes in place and says so.
   */
  lemma InOrderArrives(vm: Vm, id: Id, path: string, bytes: Bytes, hash: Hash, locate: Locate)
    requires id !in vm.uploads && id !in vm.temps
    requires locate(path).Target? && |bytes| <= MAX_FILE_BYTES
    ensures var after := Turns(TakeFrames(vm, WriteFrames(id, path, bytes, hash)), id, hash, locate, |Cut(bytes)| + 2);
            && after.files == vm.files[locate(path).target := bytes]
            && after.sent == vm.sent + [FileDone(id, |bytes|, hash(bytes))]
            && id !in after.uploads && id !in after.temps
  {
    hide Cut, WriteFrames, TakeFrames, Turns, Flatten;
    FramesTaken(vm, id, path, bytes, hash);
    CutKeepsAll(bytes);
    assert [] + Flatten(Cut(bytes)) == bytes;
    WriterFinishes(vm.(uploads := vm.uploads[id := WholeUpload(path, bytes, hash)]), id, hash, locate, bytes);
  }

  /** A writer with the rest of its bytes queued, and the queue closed, needs this many turns. */
  function TurnsLeft(u: Upload): nat {
    |u.queue.items| + if u.phase.Opening? then 2 else 1
  }

  lemma WriterFinishes(vm: Vm, id: Id, hash: Hash, locate: Locate, bytes: Bytes)
    requires id in vm.uploads && |bytes| <= MAX_FILE_BYTES
    requires var u := vm.uploads[id];
             && u.queue.closed && u.queue.failure.None? && !u.queue.sleeping
             && u.size == |bytes| && u.sha256 == hash(bytes) && locate(u.path).Target?
             && (u.phase.Writing? ==> id in vm.temps && u.phase.target == locate(u.path).target)
             && (if u.phase.Writing? then vm.temps[id] else []) + Flatten(u.queue.items) == bytes
    ensures var u := vm.uploads[id];
            var after := Turns(vm, id, hash, locate, TurnsLeft(u));
            && after.files == vm.files[locate(u.path).target := bytes]
            && after.commits == vm.commits + [Commit(id, locate(u.path).target, bytes)]
            && after.sent == vm.sent + [FileDone(id, |bytes|, hash(bytes))]
            && id !in after.uploads && id !in after.temps
  {
    var u := vm.uploads[id];
    if u.phase.Opening? {
      var vm' := WriterTurn(vm, id, hash, locate);
      assert vm' == vm.(uploads := vm'.uploads, temps := vm.temps[id := []]);
      assert vm'.uploads[id] == u.(phase := Writing(locate(u.path).target));
      assert Turns(vm, id, hash, locate, TurnsLeft(u)) == Turns(vm', id, hash, locate, TurnsLeft(u) - 1);
      hide Flatten, WriterTurn, Turns;
      TurnsWriteAtomically(vm', id, hash, locate);
    } else {
      hide Flatten, WriterTurn, Turns;
      TurnsWriteAtomically(vm, id, hash, locate);
    }
  }
}
