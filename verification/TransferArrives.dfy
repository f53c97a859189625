/**
 * What a channel that loses nothing brings about: a read ends with exactly the file, a
 * write with its acknowledgement, and one that can't be done with the reason.
 */
module TransferArrives {
  import opened Wrappers
  import opened Bytes
  import opened FileOps
  import opened Transfers
  import opened Daemon
  import opened TransferSystem
  import opened TransferTheorems
  import opened TransferFates
  import Texts

  // ---------------------------------------------------------------- The gateway's half of a read

  function ReceiveAll(g: Gateway, vmId: VmId, frames: seq<VmFrame>, hash: Hash): Gateway
    decreases |frames|
  {
    if frames == [] then g else ReceiveAll(Receive(g, vmId, frames[0], hash), vmId, frames[1..], hash)
  }

  lemma {:induction false} ReceiveAppend(g: Gateway, vmId: VmId, a: seq<VmFrame>, b: seq<VmFrame>, hash: Hash)
    ensures ReceiveAll(g, vmId, a + b, hash) == ReceiveAll(ReceiveAll(g, vmId, a, hash), vmId, b, hash)
    decreases |a|
  {
    if a == [] {
      assert a + b == b;
    } else {
      assert (a + b)[0] == a[0] && (a + b)[1..] == a[1..] + b;
      ReceiveAppend(Receive(g, vmId, a[0], hash), vmId, a[1..], b, hash);
    }
  }

  /** A read in flight that has had n chunks, which come to these bytes. */
  predicate HasRead(g: Gateway, id: Id, vmId: VmId, n: nat, bytes: Bytes) {
    && id in g.transfers && g.transfers[id].Read?
    && g.transfers[id] == Read(vmId, g.transfers[id].socket, n, n > 0, bytes)
    && id in g.promises && (n == 0 ==> bytes == [] && g.promises[id] == ReadPending)
    && (n > 0 ==> g.promises[id] == ReadStarted(Open(bytes)))
  }

  lemma ChunkHeard(g: Gateway, id: Id, vmId: VmId, n: nat, bytes: Bytes, data: Bytes, hash: Hash)
    requires HasRead(g, id, vmId, n, bytes)
    ensures HasRead(Receive(g, vmId, VmChunk(id, n, data), hash), id, vmId, n + 1, bytes + data)
  {
  }

  lemma {:induction false} PiecesHeard(g: Gateway, id: Id, vmId: VmId, n: nat, bytes: Bytes, pieces: seq<Bytes>, hash: Hash)
    requires HasRead(g, id, vmId, n, bytes)
    ensures HasRead(ReceiveAll(g, vmId, PieceFrames(id, n, pieces), hash), id, vmId, n + |pieces|, bytes + Flatten(pieces))
    decreases |pieces|
  {
    var frames := PieceFrames(id, n, pieces);
    if pieces == [] {
      assert frames == [] && bytes + Flatten(pieces) == bytes;
    } else {
      assert frames[0] == VmChunk(id, n, pieces[0]) && frames[1..] == PieceFrames(id, n + 1, pieces[1..]);
      ChunkHeard(g, id, vmId, n, bytes, pieces[0], hash);
      FlattenHead(pieces);
      Texts.Regroup(bytes, pieces[0], Flatten(pieces[1..]));
      hide HasRead, Receive, PieceFrames, Flatten;
      PiecesHeard(Receive(g, vmId, frames[0], hash), id, vmId, n + 1, bytes + pieces[0], pieces[1..], hash);
    }
  }

  /** How many chunks a stream is sent in. */
  function Chunks(stream: seq<Bytes>): nat {
    if stream == [] then 0 else |Cut(stream[0])| + Chunks(stream[1..])
  }

  lemma {:induction false} StreamHeard(g: Gateway, id: Id, vmId: VmId, n: nat, bytes: Bytes, stream: seq<Bytes>, hash: Hash)
    requires HasRead(g, id, vmId, n, bytes)
    ensures HasRead(ReceiveAll(g, vmId, FramesOf(id, n, stream), hash), id, vmId, n + Chunks(stream), bytes + Flatten(stream))
    decreases |stream|
  {
    hide HasRead, Receive, Flatten, Cut, ReceiveAll, FramesOf, Chunks, PieceFrames;
    if stream == [] {
      NoFrames(g, id, vmId, n, bytes, hash);
    } else {
      var k := n + |Cut(stream[0])|;
      FirstFrames(g, id, vmId, n, stream, hash);
      CutKeepsAll(stream[0]);
      PiecesHeard(g, id, vmId, n, bytes, Cut(stream[0]), hash);
      StreamHeard(ReceiveAll(g, vmId, PieceFrames(id, n, Cut(stream[0])), hash), id, vmId, k, bytes + stream[0], stream[1..], hash);
      Texts.Regroup(bytes, stream[0], Flatten(stream[1..]));
    }
  }

  lemma NoFrames(g: Gateway, id: Id, vmId: VmId, n: nat, bytes: Bytes, hash: Hash)
    ensures ReceiveAll(g, vmId, FramesOf(id, n, []), hash) == g && Chunks([]) == 0 && bytes + Flatten([]) == bytes
  {
  }

  lemma FirstFrames(g: Gateway, id: Id, vmId: VmId, n: nat, stream: seq<Bytes>, hash: Hash)
    requires stream != []
    ensures var k := |Cut(stream[0])|;
            && ReceiveAll(g, vmId, FramesOf(id, n, stream), hash)
               == ReceiveAll(ReceiveAll(g, vmId, PieceFrames(id, n, Cut(stream[0])), hash), vmId, FramesOf(id, n + k, stream[1..]), hash)
            && Chunks(stream) == k + Chunks(stream[1..])
            && Flatten(stream) == stream[0] + Flatten(stream[1..])
  {
    var first, rest := PieceFrames(id, n, Cut(stream[0])), FramesOf(id, n + |Cut(stream[0])|, stream[1..]);
    assert FramesOf(id, n, stream) == first + rest;
    hide ReceiveAll, FramesOf, PieceFrames, Cut;
    ReceiveAppend(g, vmId, first, rest, hash);
    FlattenHead(stream);
  }

  /** What the VM sends of a file streamed in these chunks. */
  function FileFrames(id: Id, stream: seq<Bytes>, hash: Hash): seq<VmFrame> {
    FramesOf(id, 0, stream) + [FileDone(id, |Flatten(stream)|, hash(Flatten(stream)))]
  }

  /** Heard once and in order, the frames of a file end a new read with all of its bytes and a stream closed cleanly. */
  lemma InOrderReads(g: Gateway, id: Id, vmId: VmId, socket: Socket, stream: seq<Bytes>, hash: Hash)
    requires id in g.transfers && g.transfers[id] == Read(vmId, socket, 0, false, [])
    requires id in g.promises && g.promises[id] == ReadPending
    ensures var g' := ReceiveAll(g, vmId, FileFrames(id, stream, hash), hash);
            && id !in g'.transfers
            && id in g'.promises && g'.promises[id] == ReadStarted(Closed(Flatten(stream)))
  {
    StreamHeard(g, id, vmId, 0, [], stream, hash);
    assert [] + Flatten(stream) == Flatten(stream);
    var done := FileDone(id, |Flatten(stream)|, hash(Flatten(stream)));
    ReceiveAppend(g, vmId, FramesOf(id, 0, stream), [done], hash);
    var g1 := ReceiveAll(g, vmId, FramesOf(id, 0, stream), hash);
    hide FramesOf, Flatten;
    assert [done][1..] == [] && ReceiveAll(g1, vmId, [done], hash) == Receive(g1, vmId, done, hash);
  }

  // ---------------------------------------------------------------- A read, from end to end

  function ReadTurns(id: Id, n: nat): seq<Step> {
    if n == 0 then [] else [VmReads(id)] + ReadTurns(id, n - 1)
  }

  /** A reader streams its file to the end, and says so. */
  lemma {:induction false} ReaderRuns(w: World, s: System, id: Id)
    requires id in s.vm.downloads && id in s.streams
    ensures var d := s.vm.downloads[id];
            var turns, all := ReadTurns(id, |d.rest| + 1), d.hashed + Flatten(d.rest);
            && Legal(w, s, turns)
            && var s' := After(w, s, turns);
            && s'.g == s.g
            && s'.vm.sent == s.vm.sent + (FramesOf(id, d.seqNo, d.rest) + [FileDone(id, |all|, w.hash(all))])
    decreases |s.vm.downloads[id].rest|
  {
    var d := s.vm.downloads[id];
    var turns, s1 := ReadTurns(id, |d.rest| + 1), Next(w, s, VmReads(id));
    assert turns[0] == VmReads(id) && turns[1..] == ReadTurns(id, |d.rest|);
    ReaderSteps(w, s, id);
    hide Next, Flatten, Cut, PieceFrames, FramesOf;
    if d.rest == [] {
      assert Legal(w, s1, turns[1..]) && After(w, s1, turns[1..]) == s1;
    } else {
      ReaderRuns(w, s1, id);
      var all, d1 := d.hashed + Flatten(d.rest), s1.vm.downloads[id];
      Texts.Regroup(d.hashed, d.rest[0], Flatten(d.rest[1..]));
      SentOn(s.vm.sent, PieceFrames(id, d.seqNo, Cut(d.rest[0])), FramesOf(id, d1.seqNo, d1.rest), [FileDone(id, |all|, w.hash(all))]);
    }
  }

  /** One turn of the reader: the next chunk of its stream, or the end. */
  lemma ReaderSteps(w: World, s: System, id: Id)
    requires id in s.vm.downloads && id in s.streams
    ensures var d, s1 := s.vm.downloads[id], Next(w, s, VmReads(id));
            && Allowed(w, s, VmReads(id)) && s1.g == s.g
            && if d.rest == [] then
                 var all := d.hashed + Flatten(d.rest);
                 s1.vm.sent == s.vm.sent + (FramesOf(id, d.seqNo, d.rest) + [FileDone(id, |all|, w.hash(all))])
               else
                 var pieces := Cut(d.rest[0]);
                 && id in s1.vm.downloads && id in s1.streams
                 && s1.vm.downloads[id] == Download(d.rest[1..], d.seqNo + |pieces|, d.hashed + d.rest[0])
                 && s1.vm.sent == s.vm.sent + PieceFrames(id, d.seqNo, pieces)
                 && Flatten(d.rest) == d.rest[0] + Flatten(d.rest[1..])
                 && FramesOf(id, d.seqNo, d.rest) == PieceFrames(id, d.seqNo, pieces) + FramesOf(id, d.seqNo + |pieces|, d.rest[1..])
  {
    var d := s.vm.downloads[id];
    ReadsNext(w, s, id);
    FramesStep(id, d.seqNo, d.rest);
    hide Next, Allowed;
    if d.rest == [] {
      assert d.hashed + Flatten(d.rest) == d.hashed;
      var done := FileDone(id, |d.hashed|, w.hash(d.hashed));
      assert FramesOf(id, d.seqNo, d.rest) + [done] == [done];
    } else {
      hide Flatten, FramesOf, Cut, PieceFrames;
      FlattenHead(d.rest);
    }
  }

  lemma ReadsNext(w: World, s: System, id: Id)
    requires id in s.vm.downloads && id in s.streams
    ensures var s1 := Next(w, s, VmReads(id));
            && Allowed(w, s, VmReads(id)) && s1.g == s.g && s1.vm == ReaderTurn(s.vm, id, w.hash)
            && (s.vm.downloads[id].rest != [] ==> id in s1.streams)
  {
    hide ReaderTurn;
  }

  lemma FramesStep(id: Id, seqNo: nat, stream: seq<Bytes>)
    ensures FramesOf(id, seqNo, stream)
         == if stream == [] then []
            else PieceFrames(id, seqNo, Cut(stream[0])) + FramesOf(id, seqNo + |Cut(stream[0])|, stream[1..])
  {
    hide Cut, PieceFrames;
  }

  lemma SentOn(sent: seq<VmFrame>, first: seq<VmFrame>, rest: seq<VmFrame>, done: seq<VmFrame>)
    ensures (sent + first) + (rest + done) == sent + ((first + rest) + done)
  {
  }

  function Deliveries(frames: seq<VmFrame>): seq<Step> {
    if frames == [] then [] else [Deliver(US, frames[0])] + Deliveries(frames[1..])
  }

  lemma {:induction false} DeliveriesRun(w: World, s: System, frames: seq<VmFrame>)
    requires forall f :: f in frames ==> f in s.vm.sent
    ensures Legal(w, s, Deliveries(frames)) && After(w, s, Deliveries(frames)) == s.(g := ReceiveAll(s.g, US, frames, w.hash))
    decreases |frames|
  {
    if frames == [] {
    } else {
      var s1 := Next(w, s, Deliver(US, frames[0]));
      assert s1 == s.(g := Receive(s.g, US, frames[0], w.hash));
      assert Deliveries(frames)[1..] == Deliveries(frames[1..]);
      hide Receive;
      DeliveriesRun(w, s1, frames[1..]);
    }
  }

  /** A call whose id is new, on a VM that is connected. */
  predicate CanAsk(s: System, id: Id) {
    US in s.g.sockets && id !in s.g.promises
  }

  /** The read is asked for, and its frame reaches the VM, which opens a stream or says why not. */
  lemma ReadOpens(w: World, steps: seq<Step>, id: Id, path: string, chunks: seq<Bytes>) returns (more: seq<Step>)
    requires Legal(w, Start(w), steps) && CanAsk(Reached(w, steps), id)
    requires w.locate(path).Target? && w.locate(path).target in Reached(w, steps).vm.files ==>
               Flatten(chunks) == Reached(w, steps).vm.files[w.locate(path).target]
    ensures var s := Reached(w, steps);
            && Legal(w, s, more)
            && var s' := After(w, s, more);
            && s'.vm == StartDownload(s.vm, id, path, chunks, w.locate)
            && id in s'.g.transfers && s'.g.transfers[id] == Read(US, s.g.sockets[US], 0, false, [])
            && id in s'.g.promises && s'.g.promises[id] == ReadPending
            && (id in s'.vm.downloads ==> id in s'.streams)
  {
    var s := Reached(w, steps);
    ReachedInv(w, steps);
    assert id !in s.begun && id !in s.vm.downloads by { hide UploadsInv, FrameInv, Valid; }
    hide Inv, Flatten, Reached;
    var ask, open := AskRead(id, US, path), VmOpensRead(id, path, chunks);
    var s1 := Next(w, s, ask);
    OneStep(w, s, ask);
    assert To(US, [FileRead(id, path)])[0] == (US, FileRead(id, path));
    assert (US, FileRead(id, path)) in s1.g.wire && s1.vm == s.vm && s1.begun == s.begun;
    more := [ask];
    OneStep(w, s1, open);
    hide Legal, After;
    RunThen(w, s, [ask], [open]);
    more := [ask, open];
    assert [ask] + [open] == more;
  }

  /**
   * From any reachable state, a read of a path that leads to a file within the limit
   * can go well: the caller gets a stream of exactly the file's bytes, closed cleanly.
   */
  lemma ReadArrives(w: World, steps: seq<Step>, id: Id, path: string, chunks: seq<Bytes>) returns (more: seq<Step>)
    requires Legal(w, Start(w), steps) && CanAsk(Reached(w, steps), id)
    requires w.locate(path).Target? && w.locate(path).target in Reached(w, steps).vm.files
    requires var file := Reached(w, steps).vm.files[w.locate(path).target]; |file| <= 50 * 1024 * 1024 && Flatten(chunks) == file
    ensures var s := Reached(w, steps);
            && Legal(w, s, more)
            && var g := After(w, s, more).g;
            && id !in g.transfers && id in g.promises
            && g.promises[id] == ReadStarted(Closed(s.vm.files[w.locate(path).target]))
  {
    var s := Reached(w, steps);
    var opens := ReadOpens(w, steps, id, path, chunks);
    hide Legal, After, Reached, Flatten, FramesOf;
    var s1 := After(w, s, opens);
    assert s1.vm.downloads[id] == Download(chunks, 0, []);
    ReaderRuns(w, s1, id);
    assert [] + Flatten(chunks) == Flatten(chunks);
    var turns := ReadTurns(id, |chunks| + 1);
    var s2, frames := After(w, s1, turns), FileFrames(id, chunks, w.hash);
    RunThen(w, s, opens, turns);
    DeliveriesRun(w, s2, frames);
    RunThen(w, s, opens + turns, Deliveries(frames));
    InOrderReads(s2.g, id, US, s.g.sockets[US], chunks, w.hash);
    more := opens + turns + Deliveries(frames);
  }

  /** And one that can't be read is refused, with the reason. */
  lemma ReadRefusedWhy(w: World, steps: seq<Step>, id: Id, path: string, code: string) returns (more: seq<Step>)
    requires Legal(w, Start(w), steps) && CanAsk(Reached(w, steps), id)
    requires var files, where := Reached(w, steps).vm.files, w.locate(path);
             if where.Refused? then code == where.code
             else if where.target !in files then code == "not_found"
             else |files[where.target]| > 50 * 1024 * 1024 && code == "too_large"
    ensures var s := Reached(w, steps);
            && Legal(w, s, more)
            && id in After(w, s, more).g.promises && After(w, s, more).g.promises[id] == ReadRejected(Remote(code))
  {
    var s, where := Reached(w, steps), w.locate(path);
    var chunks := if where.Target? && where.target in s.vm.files then [s.vm.files[where.target]] else [];
    if chunks != [] {
      FlattenOne([], chunks[0]);
      assert [] + [chunks[0]] == chunks;
    }
    var opens := ReadOpens(w, steps, id, path, chunks);
    var s1 := After(w, s, opens);
    var frame := FileError(id, code);
    assert s1.vm.sent == s.vm.sent + [frame] by { hide Legal, After, Reached, Flatten; }
    hide Legal, After, Reached, Flatten;
    OneStep(w, s1, Deliver(US, frame));
    RunThen(w, s, opens, [Deliver(US, frame)]);
    more := opens + [Deliver(US, frame)];
  }

  // ---------------------------------------------------------------- A write, from end to end

  lemma WriteAsked(w: World, steps: seq<Step>, id: Id, path: string, bytes: Bytes) returns (s1: System)
    requires Legal(w, Start(w), steps) && CanAsk(Reached(w, steps), id)
    ensures var s, ask := Reached(w, steps), AskWrite(id, US, path, bytes);
            && Allowed(w, s, ask) && s1 == Next(w, s, ask) && s1.vm == s.vm
            && Legal(w, Start(w), steps + [ask]) && Reached(w, steps + [ask]) == s1
            && id in s1.asked && s1.asked[id] == Asked(path, bytes) && id !in s1.begun
            && id in s1.g.transfers && s1.g.transfers[id] == Write(US, s.g.sockets[US])
            && id in s1.g.promises && s1.g.promises[id] == WritePending
            && (US, FileWrite(id, path, |bytes|, w.hash(bytes))) in s1.g.wire
  {
    var s, ask := Reached(w, steps), AskWrite(id, US, path, bytes);
    ReachedInv(w, steps);
    assert id !in s.begun by { hide UploadsInv, DownloadsInv, FrameInv, Valid; }
    hide Inv;
    s1 := Next(w, s, ask);
    Extend(w, Start(w), steps, ask);
    var frames := WriteFrames(id, path, bytes, w.hash);
    assert To(US, frames)[0] == (US, frames[0]);
    assert s1.g.wire == s.g.wire + To(US, frames);
    assert (US, frames[0]) in To(US, frames);
  }

  /**
   * From any reachable state, a write that fits can go well: its file is in place with
   * its bytes, and the caller is told its size and hash.
   */
  lemma WriteArrives(w: World, steps: seq<Step>, id: Id, path: string, bytes: Bytes) returns (more: seq<Step>)
    requires Legal(w, Start(w), steps) && CanAsk(Reached(w, steps), id)
    requires w.locate(path).Target? && |bytes| <= 50 * 1024 * 1024
    ensures var s := Reached(w, steps);
            && Legal(w, s, more)
            && var s' := After(w, s, more);
            && Committed(s'.vm.commits, id)
            && id in s'.g.promises && s'.g.promises[id] == WriteResolved(|bytes|, w.hash(bytes))
  {
    var s, ask := Reached(w, steps), AskWrite(id, US, path, bytes);
    var s1 := WriteAsked(w, steps, id, path, bytes);
    hide Legal, After, Inv, AllSent, Next, Committed, Start;
    ReachedInv(w, steps + [ask]);
    RunSends(w, Start(w), steps + [ask]) by { NothingAsked(w); }
    var lands := MayLandLands(w, s1, id);
    OneStep(w, s, ask);
    RunThen(w, s, [ask], lands);
    var s2, done := After(w, s1, lands), FileDone(id, |bytes|, w.hash(bytes));
    OneStep(w, s2, Deliver(US, done));
    WriteHeard(w, s2, id, done);
    RunThen(w, s, [ask] + lands, [Deliver(US, done)]);
    more := [ask] + lands + [Deliver(US, done)];
  }

  lemma NothingAsked(w: World)
    ensures AllSent(w, Start(w).asked, Start(w).g.wire)
  {
  }

  lemma WriteHeard(w: World, s: System, id: Id, done: VmFrame)
    requires done.FileDone? && done.transferId == id && done in s.vm.sent
    requires id in s.g.transfers && s.g.transfers[id].Write? && s.g.transfers[id].vmId == US && id in s.g.promises
    ensures Allowed(w, s, Deliver(US, done))
    ensures var s' := Next(w, s, Deliver(US, done));
            s'.vm == s.vm && id in s'.g.promises && s'.g.promises[id] == WriteResolved(done.size, done.sha256)
  {
  }

  /** And one that can't be done is refused, with the reason. */
  lemma WriteRefusedWhy(w: World, steps: seq<Step>, id: Id, path: string, bytes: Bytes, code: string) returns (more: seq<Step>)
    requires Legal(w, Start(w), steps) && CanAsk(Reached(w, steps), id)
    requires if |bytes| > 50 * 1024 * 1024 then code == "too_large" else w.locate(path) == Refused(code)
    ensures var s := Reached(w, steps);
            && Legal(w, s, more)
            && id in After(w, s, more).g.promises && After(w, s, more).g.promises[id] == WriteRejected(Remote(code))
            && After(w, s, more).vm.files == s.vm.files
  {
    var s, ask := Reached(w, steps), AskWrite(id, US, path, bytes);
    var s1 := WriteAsked(w, steps, id, path, bytes);
    var open := VmOpensWrite(id, path, |bytes|, w.hash(bytes));
    var s2 := Next(w, s1, open);
    var s3 := Next(w, s2, VmWrites(id));
    var frame := FileError(id, code);
    assert s3.g == s1.g && s3.vm.files == s.vm.files && s3.vm.sent == s.vm.sent + [frame];
    OneStep(w, s, ask);
    OneStep(w, s1, open);
    OneStep(w, s2, VmWrites(id));
    OneStep(w, s3, Deliver(US, frame));
    hide Legal, After, Next, Allowed;
    RunThen(w, s, [ask], [open]);
    RunThen(w, s, [ask] + [open], [VmWrites(id)]);
    RunThen(w, s, [ask] + [open] + [VmWrites(id)], [Deliver(US, frame)]);
    more := [ask] + [open] + [VmWrites(id)] + [Deliver(US, frame)];
    RefusalHeard(w, s3, id, frame);
  }

  lemma RefusalHeard(w: World, s: System, id: Id, frame: VmFrame)
    requires frame.FileError? && frame.transferId == id
    requires id in s.g.transfers && s.g.transfers[id].Write? && s.g.transfers[id].vmId == US
    requires id in s.g.promises && s.g.promises[id] == WritePending
    ensures var s' := Next(w, s, Deliver(US, frame));
            s'.vm == s.vm && id in s'.g.promises && s'.g.promises[id] == WriteRejected(Remote(frame.code))
  {
  }
}
