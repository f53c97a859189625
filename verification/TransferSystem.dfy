/**
 * A gateway and one of its VMs with an unreliable channel between them.
 *
 * Frames may be lost, repeated and reordered in both directions, but not altered,
 * and the frames that open a transfer (`file.write`, `file.read`) arrive at most
 * once. Other VMs may send the gateway any frame at all.
 */
module TransferSystem {
  import opened Wrappers
  import opened Bytes
  import opened FileOps
  import opened Transfers
  import opened Daemon
  import Q = PushQueue

  /** The VM this is about. */
  const US: VmId := 0

  datatype Asked = Asked(path: string, bytes: Bytes)

  /** A download's whole content when it was opened, and the pieces sent so far. */
  datatype Streamed = Streamed(content: Bytes, pieces: seq<Bytes>, ended: bool)

  /**
   * Beside the two processes: the frames that opened a transfer on the VM, the
   * writes and reads asked of it, and what was streamed.
   */
  datatype System = System(
    g: Gateway,
    vm: Vm,
    begun: set<Id>,
    asked: map<Id, Asked>,
    wanted: map<Id, string>,
    streams: map<Id, Streamed>)

  /** What does not change: the hash, the home directory's layout, and the files at the start. */
  datatype World = World(hash: Hash, locate: Locate, files: map<string, Bytes>)

  datatype Step =
    | Connect(vmId: VmId, socket: Socket)
    | Disconnect(vmId: VmId)
    | AskWrite(id: Id, vmId: VmId, path: string, bytes: Bytes)
    | AskRead(id: Id, vmId: VmId, path: string)
    | Deliver(vmId: VmId, frame: VmFrame)
    | Timeout(id: Id)
    | SocketCloses(socket: Socket)
    | VmOpensWrite(id: Id, path: string, size: nat, sha256: string)
    | VmOpensRead(id: Id, path: string, chunks: seq<Bytes>)
    | VmTakes(taken: GatewayFrame)
    | VmWrites(id: Id)
    | DiskFails(id: Id)
    | VmReads(id: Id)
    | StreamFails(id: Id)


  ghost predicate Allowed(w: World, s: System, step: Step) {
    match step
    case AskWrite(id, _, _, _) => id !in s.g.promises
    case AskRead(id, _, _) => id !in s.g.promises
    case Deliver(vmId, frame) => vmId == US ==> frame in s.vm.sent
    case VmOpensWrite(id, path, size, sha256) => (US, FileWrite(id, path, size, sha256)) in s.g.wire && id !in s.begun
    case VmOpensRead(id, path, chunks) =>
      && (US, FileRead(id, path)) in s.g.wire && id !in s.begun
      && (w.locate(path).Target? && w.locate(path).target in s.vm.files ==>
            Flatten(chunks) == s.vm.files[w.locate(path).target])
    case VmTakes(frame) => (US, frame) in s.g.wire && (frame.FileChunk? || frame.FileEnd?)
    case _ => true
  }

  ghost function OpenStream(w: World, s: System, id: Id, path: string, chunks: seq<Bytes>): System {
    var vm' := StartDownload(s.vm, id, path, chunks, w.locate);
    s.(vm := vm', begun := s.begun + {id},
       streams := if id in vm'.downloads then s.streams[id := Streamed(Flatten(chunks), [], false)] else s.streams)
  }

  ghost function ReadOn(w: World, s: System, id: Id): System {
    var vm' := ReaderTurn(s.vm, id, w.hash);
    if id !in s.vm.downloads || id !in s.streams then s
    else
      var d, t := s.vm.downloads[id], s.streams[id];
      s.(vm := vm',
         streams := s.streams[id := if d.rest == [] then t.(ended := true) else t.(pieces := t.pieces + Cut(d.rest[0]))])
  }

  ghost function Next(w: World, s: System, step: Step): System {
    match step
    case Connect(vmId, socket) => s.(g := s.g.(sockets := s.g.sockets[vmId := socket]))
    case Disconnect(vmId) => s.(g := s.g.(sockets := s.g.sockets - {vmId}))
    case AskWrite(id, vmId, path, bytes) =>
      s.(g := StartWrite(s.g, id, vmId, path, bytes, w.hash),
         asked := if vmId == US && US in s.g.sockets then s.asked[id := Asked(path, bytes)] else s.asked)
    case AskRead(id, vmId, path) =>
      s.(g := StartRead(s.g, id, vmId, path),
         wanted := if vmId == US && US in s.g.sockets then s.wanted[id := path] else s.wanted)
    case Deliver(vmId, frame) => s.(g := Receive(s.g, vmId, frame, w.hash))
    case Timeout(id) => s.(g := Fail(s.g, id, TimedOut))
    case SocketCloses(socket) => s.(g := CloseSocket(s.g, socket))
    case VmOpensWrite(id, path, size, sha256) =>
      s.(vm := StartUpload(s.vm, id, path, size, sha256), begun := s.begun + {id})
    case VmOpensRead(id, path, chunks) => OpenStream(w, s, id, path, chunks)
    case VmTakes(frame) =>
      s.(vm := if frame.FileChunk? then FeedUpload(s.vm, frame.transferId, frame.seqNo, frame.data)
               else if frame.FileEnd? then EndUpload(s.vm, frame.transferId) else s.vm)
    case VmWrites(id) => s.(vm := WriterTurn(s.vm, id, w.hash, w.locate))
    case DiskFails(id) => s.(vm := WriterBreaks(s.vm, id))
    case VmReads(id) => ReadOn(w, s, id)
    case StreamFails(id) => s.(vm := ReaderBreaks(s.vm, id))
  }

  ghost function Start(w: World): System {
    System(Gateway(map[], map[], map[], []), Vm(map[], map[], w.files, map[], [], []), {}, map[], map[], map[])
  }

  ghost predicate Legal(w: World, s: System, steps: seq<Step>)
    decreases |steps|
  {
    steps == [] || (Allowed(w, s, steps[0]) && Legal(w, Next(w, s, steps[0]), steps[1..]))
  }

  ghost function After(w: World, s: System, steps: seq<Step>): System
    decreases |steps|
  {
    if steps == [] then s else After(w, Next(w, s, steps[0]), steps[1..])
  }

  // ---------------------------------------------------------------- Invariant: the frames under way

  type Writes = map<Id, Asked>
  type Reads = map<Id, string>
  type Streams = map<Id, Streamed>

  /** A frame sent to us says what its caller asked for. */
  ghost predicate FrameInv(w: World, asked: Writes, wanted: Reads, frame: GatewayFrame) {
    match frame
    case FileRead(id, path) => id in wanted && wanted[id] == path
    case FileWrite(id, path, size, sha256) =>
      id in asked && asked[id].path == path && |asked[id].bytes| == size && w.hash(asked[id].bytes) == sha256
    case FileChunk(id, k, data) => id in asked && k < |Cut(asked[id].bytes)| && Cut(asked[id].bytes)[k] == data
    case FileEnd(id) => id in asked
  }

  ghost predicate WireInv(w: World, s: System) {
    && Valid(s.g)
    && s.asked.Keys <= s.g.promises.Keys && s.wanted.Keys <= s.g.promises.Keys && s.asked.Keys !! s.wanted.Keys
    && (forall id :: id in s.g.transfers && (id in s.asked || id in s.wanted) ==> s.g.transfers[id].vmId == US)
    && (forall frame :: (US, frame) in s.g.wire ==> FrameInv(w, s.asked, s.wanted, frame))
    && s.begun <= s.asked.Keys + s.wanted.Keys
    && (forall frame :: frame in s.vm.sent ==> frame.transferId in s.begun)
  }

  // ---------------------------------------------------------------- Invariant: uploads

  ghost function TempOf(temps: map<Id, Bytes>, id: Id): Option<Bytes> {
    if id in temps then Some(temps[id]) else None
  }

  /** What a writer has taken and what waits in its queue is the beginning of what was asked for. */
  ghost predicate UploadInv(w: World, u: Upload, temp: Option<Bytes>, asked: Writes, id: Id) {
    && id in asked
    && u.path == asked[id].path && u.size == |asked[id].bytes| && u.sha256 == w.hash(asked[id].bytes)
    && (u.phase.Writing? <==> temp.Some?)
    && (u.phase.Writing? ==> w.locate(u.path) == Target(u.phase.target) && u.size <= MAX_FILE_BYTES)
    && TakenInv(u, temp, Cut(asked[id].bytes))
  }

  ghost predicate TakenInv(u: Upload, temp: Option<Bytes>, pieces: seq<Bytes>) {
    && u.seqNo <= |pieces|
    && (if temp.Some? then temp.value else []) + Flatten(u.queue.items) == Flatten(pieces[..u.seqNo])
  }

  ghost predicate CommitInv(w: World, asked: Writes, c: Commit) {
    c.id in asked && c.content == asked[c.id].bytes && w.locate(asked[c.id].path) == Target(c.target)
  }

  ghost predicate Committed(commits: seq<Commit>, id: Id) {
    exists k :: 0 <= k < |commits| && commits[k].id == id
  }

  /** The files are the files at the start, with the commits made since, in order. */
  ghost function ApplyCommits(files: map<string, Bytes>, commits: seq<Commit>): map<string, Bytes> {
    if commits == [] then files
    else
      var last := commits[|commits| - 1];
      ApplyCommits(files, commits[..|commits| - 1])[last.target := last.content]
  }

  /** A write the VM has begun and is done with, one way or the other. */
  ghost predicate Over(vm: Vm, begun: set<Id>, id: Id) {
    id in begun && id !in vm.uploads
  }

  /** What the VM says about a write is so. */
  ghost predicate ReportInv(w: World, vm: Vm, begun: set<Id>, asked: Writes, frame: VmFrame) {
    frame.transferId in asked ==>
      && Over(vm, begun, frame.transferId)
      && (match frame
          case FileDone(id, size, sha256) =>
            Committed(vm.commits, id) && size == |asked[id].bytes| && sha256 == w.hash(asked[id].bytes)
          case FileError(id, _) => !Committed(vm.commits, id)
          case VmChunk(_, _, _) => false)
  }

  /** What a write's caller is told is so. */
  ghost predicate PromiseInv(w: World, vm: Vm, begun: set<Id>, a: Asked, id: Id, p: Promise) {
    match p
    case WritePending => true
    case WriteResolved(size, sha256) => Committed(vm.commits, id) && size == |a.bytes| && sha256 == w.hash(a.bytes)
    case WriteRejected(why) => why.Remote? ==> Over(vm, begun, id) && !Committed(vm.commits, id)
    case _ => false
  }

  ghost predicate Running(w: World, vm: Vm, asked: Writes) {
    && vm.temps.Keys <= vm.uploads.Keys
    && forall id :: id in vm.uploads ==> UploadInv(w, vm.uploads[id], TempOf(vm.temps, id), asked, id)
  }

  ghost predicate Reports(w: World, vm: Vm, begun: set<Id>, asked: Writes) {
    forall frame :: frame in vm.sent ==> ReportInv(w, vm, begun, asked, frame)
  }

  ghost predicate WritersTold(w: World, vm: Vm, begun: set<Id>, asked: Writes, promises: map<Id, Promise>) {
    forall id :: id in asked && id in promises ==> PromiseInv(w, vm, begun, asked[id], id, promises[id])
  }

  ghost predicate UploadsInv(w: World, s: System) {
    && s.vm.uploads.Keys <= s.begun
    && Running(w, s.vm, s.asked)
    && CommitsInv(w, s.vm, s.begun, s.asked)
    && Reports(w, s.vm, s.begun, s.asked)
    && WritersTold(w, s.vm, s.begun, s.asked, s.g.promises)
  }

  ghost predicate CommitsInv(w: World, vm: Vm, begun: set<Id>, asked: Writes) {
    && (forall k :: 0 <= k < |vm.commits| ==> CommitInv(w, asked, vm.commits[k]) && Over(vm, begun, vm.commits[k].id))
    && (forall j, k :: 0 <= j < k < |vm.commits| ==> vm.commits[j].id != vm.commits[k].id)
    && vm.files == ApplyCommits(w.files, vm.commits)
  }

  // ---------------------------------------------------------------- Invariant: downloads

  /** The bytes are the first n pieces of the stream. */
  ghost predicate IsPrefix(streams: Streams, id: Id, bytes: Bytes, n: nat) {
    if id in streams then n <= |streams[id].pieces| && bytes == Flatten(streams[id].pieces[..n])
    else n == 0 && bytes == []
  }

  ghost predicate Carried(streams: Streams, id: Id, bytes: Bytes) {
    exists n: nat :: IsPrefix(streams, id, bytes, n)
  }

  ghost predicate DownloadInv(d: Download, t: Streamed) {
    && !t.ended
    && d.seqNo == |t.pieces|
    && d.hashed == Flatten(t.pieces)
    && d.hashed + Flatten(d.rest) == t.content
  }

  /** Every frame of a download is the piece of its number, and its end carries the hash of the whole. */
  ghost predicate PieceInv(w: World, wanted: Reads, streams: Streams, frame: VmFrame) {
    frame.transferId in wanted ==>
      match frame
      case VmChunk(id, k, data) => id in streams && k < |streams[id].pieces| && streams[id].pieces[k] == data
      case FileDone(id, size, sha256) =>
        id in streams && streams[id].ended && size == |streams[id].content| && sha256 == w.hash(streams[id].content)
      case FileError(_, _) => true
  }

  /** What a stream carried, whether open, broken or closed, is the first pieces; a clean end is backed by the hash. */
  ghost predicate ReaderInv(w: World, streams: Streams, id: Id, p: Promise) {
    match p
    case ReadPending => true
    case ReadRejected(_) => true
    case ReadStarted(stream) =>
      && Carried(streams, id, stream.bytes)
      && (stream.Closed? ==> id in streams && w.hash(stream.bytes) == w.hash(streams[id].content))
    case _ => false
  }

  /** What a reader has received so far is the first pieces. */
  ghost predicate ReceivedInv(streams: Streams, id: Id, t: Transfer) {
    t.Read? && IsPrefix(streams, id, t.hashed, t.seqNo)
  }

  ghost predicate Streaming(downloads: map<Id, Download>, streams: Streams) {
    forall id :: id in downloads ==> id in streams && DownloadInv(downloads[id], streams[id])
  }

  ghost predicate StreamInv(t: Streamed) {
    && Flatten(t.pieces) <= t.content
    && (t.ended ==> Flatten(t.pieces) == t.content)
  }

  ghost predicate Known(streams: Streams, wanted: Reads, begun: set<Id>) {
    forall id :: id in streams ==> id in wanted && id in begun && StreamInv(streams[id])
  }

  ghost predicate Pieces(w: World, sent: seq<VmFrame>, wanted: Reads, streams: Streams) {
    forall frame :: frame in sent ==> PieceInv(w, wanted, streams, frame)
  }

  ghost predicate ReadersServed(streams: Streams, wanted: Reads, transfers: map<Id, Transfer>) {
    forall id :: id in wanted && id in transfers ==> ReceivedInv(streams, id, transfers[id])
  }

  ghost predicate ReadersTold(w: World, streams: Streams, wanted: Reads, promises: map<Id, Promise>) {
    forall id :: id in wanted && id in promises ==> ReaderInv(w, streams, id, promises[id])
  }

  ghost predicate DownloadsInv(w: World, s: System) {
    && Streaming(s.vm.downloads, s.streams)
    && Known(s.streams, s.wanted, s.begun)
    && Pieces(w, s.vm.sent, s.wanted, s.streams)
    && ReadersServed(s.streams, s.wanted, s.g.transfers)
    && ReadersTold(w, s.streams, s.wanted, s.g.promises)
  }

  ghost predicate Inv(w: World, s: System) {
    WireInv(w, s) && UploadsInv(w, s) && DownloadsInv(w, s)
  }

  lemma StartInv(w: World)
    ensures Inv(w, Start(w))
  {
  }

  // ---------------------------------------------------------------- The gateway's steps

  /** A step of the gateway that sends nothing, when every caller is still told the truth. */
  lemma GatewayKeeps(w: World, s: System, g': Gateway)
    requires Inv(w, s) && Valid(g')
    requires g'.wire == s.g.wire && g'.promises.Keys == s.g.promises.Keys && g'.transfers.Keys <= s.g.transfers.Keys
    requires forall id :: id in g'.transfers ==> g'.transfers[id].vmId == s.g.transfers[id].vmId
    requires forall id :: id in s.asked && id in g'.promises ==> PromiseInv(w, s.vm, s.begun, s.asked[id], id, g'.promises[id])
    requires forall id :: id in s.wanted && id in g'.transfers ==> ReceivedInv(s.streams, id, g'.transfers[id])
    requires forall id :: id in s.wanted && id in g'.promises ==> ReaderInv(w, s.streams, id, g'.promises[id])
    ensures Inv(w, s.(g := g'))
  {
    hide Valid, UploadInv, CommitsInv, ReportInv, PromiseInv, DownloadInv, PieceInv, ReaderInv, ReceivedInv, FrameInv;
  }

  /** A step that leaves all callers but this one alone. */
  ghost predicate OnlyAt(g: Gateway, g': Gateway, id: Id) {
    && g'.wire == g.wire && g'.promises.Keys == g.promises.Keys && g'.transfers.Keys <= g.transfers.Keys
    && (forall i :: i != id && i in g'.transfers ==> g'.transfers[i] == g.transfers[i])
    && (forall i :: i != id && i in g.promises ==> g'.promises[i] == g.promises[i])
  }

  lemma OneTransferKeeps(w: World, s: System, g': Gateway, id: Id)
    requires Inv(w, s) && Valid(g') && OnlyAt(s.g, g', id)
    requires id in g'.transfers ==> g'.transfers[id].vmId == s.g.transfers[id].vmId
    requires id in s.asked && id in g'.promises ==> PromiseInv(w, s.vm, s.begun, s.asked[id], id, g'.promises[id])
    requires id in s.wanted && id in g'.transfers ==> ReceivedInv(s.streams, id, g'.transfers[id])
    requires id in s.wanted && id in g'.promises ==> ReaderInv(w, s.streams, id, g'.promises[id])
    ensures Inv(w, s.(g := g'))
  {
    hide Valid, UploadInv, CommitsInv, ReportInv, PromiseInv, DownloadInv, PieceInv, ReaderInv, ReceivedInv, FrameInv;
    GatewayKeeps(w, s, g');
  }

  /** A caller told that its transfer failed, other than by the VM, is told nothing wrong. */
  lemma FailingIsHonest(w: World, s: System, id: Id, begun: bool, why: Why)
    requires Inv(w, s) && id in s.g.promises && !why.Remote?
    ensures id in s.asked ==> PromiseInv(w, s.vm, s.begun, s.asked[id], id, Failed(s.g.promises[id], begun, why))
    ensures id in s.wanted ==> ReaderInv(w, s.streams, id, Failed(s.g.promises[id], begun, why))
  {
    hide Valid, UploadInv, CommitsInv, ReportInv, DownloadInv, PieceInv, ReceivedInv, FrameInv;
  }

  lemma FailKeepsInv(w: World, s: System, id: Id, why: Why)
    requires Inv(w, s) && !why.Remote?
    ensures Inv(w, s.(g := Fail(s.g, id, why)))
  {
    FailKeeps(s.g, id, why);
    if id in s.g.transfers && id in s.g.promises {
      FailingIsHonest(w, s, id, s.g.transfers[id].Read? && s.g.transfers[id].begun, why);
      hide Inv;
      OneTransferKeeps(w, s, Fail(s.g, id, why), id);
    }
  }

  lemma CloseKeepsInv(w: World, s: System, socket: Socket)
    requires Inv(w, s)
    ensures Inv(w, s.(g := CloseSocket(s.g, socket)))
  {
    var g' := CloseSocket(s.g, socket);
    CloseSocketKeeps(s.g, socket);
    forall id | id in s.g.promises
      ensures id in s.asked ==> PromiseInv(w, s.vm, s.begun, s.asked[id], id, g'.promises[id])
      ensures id in s.wanted ==> ReaderInv(w, s.streams, id, g'.promises[id])
    {
      if id in s.g.transfers && s.g.transfers[id].socket == socket {
        FailingIsHonest(w, s, id, s.g.transfers[id].Read? && s.g.transfers[id].begun, Unavailable);
      }
    }
    hide Valid, UploadInv, CommitsInv, ReportInv, PromiseInv, DownloadInv, PieceInv, ReaderInv, ReceivedInv, FrameInv, Failed;
    GatewayKeeps(w, s, g');
  }

  /** More asked of the VM changes nothing that was said of earlier requests. */
  lemma AskedGrows(w: World, s: System, id: Id, a: Asked)
    requires Inv(w, s) && id !in s.g.promises
    ensures var asked' := s.asked[id := a];
            && (forall frame :: FrameInv(w, s.asked, s.wanted, frame) ==> FrameInv(w, asked', s.wanted, frame))
            && (forall i :: i in s.vm.uploads ==> UploadInv(w, s.vm.uploads[i], TempOf(s.vm.temps, i), asked', i))
            && CommitsInv(w, s.vm, s.begun, asked')
            && (forall frame :: frame in s.vm.sent ==> ReportInv(w, s.vm, s.begun, asked', frame))
  {
    hide Valid, PromiseInv, DownloadInv, PieceInv, ReaderInv, ReceivedInv;
  }

  lemma WriteFramesInv(w: World, id: Id, vmId: VmId, path: string, bytes: Bytes, asked: Writes, wanted: Reads)
    requires id in asked && asked[id] == Asked(path, bytes)
    ensures forall frame :: (US, frame) in To(vmId, WriteFrames(id, path, bytes, w.hash)) ==>
              vmId == US && FrameInv(w, asked, wanted, frame)
  {
    var frames := WriteFrames(id, path, bytes, w.hash);
    forall frame | (US, frame) in To(vmId, frames) ensures vmId == US && FrameInv(w, asked, wanted, frame) {
      assert frame in frames;
      assert frame in ChunkFrames(id, Cut(bytes)) || frame == frames[0] || frame == FileEnd(id);
    }
  }

  /** A new caller, and no other change among the callers. */
  lemma NewCaller(w: World, s: System, step: Step)
    requires Inv(w, s) && (step.AskWrite? || step.AskRead?) && Allowed(w, s, step)
    ensures var g, g' := s.g, Next(w, s, step).g;
            && Valid(g') && g'.promises.Keys == g.promises.Keys + {step.id} && g'.transfers.Keys <= g.transfers.Keys + {step.id}
            && (forall i :: i in g.promises ==> g'.promises[i] == g.promises[i])
            && (forall i :: i in g.transfers ==> i in g'.transfers && g'.transfers[i] == g.transfers[i])
            && g'.promises[step.id] in (if step.AskWrite? then {WritePending, WriteRejected(Unavailable)}
                                        else {ReadPending, ReadRejected(Unavailable)})
            && (step.id in g'.transfers ==>
                  var t := g'.transfers[step.id];
                  t.vmId == step.vmId && (step.AskWrite? <==> t.Write?) && (t.Read? ==> t.seqNo == 0 && t.hashed == []))
            && step.id !in s.asked && step.id !in s.wanted && step.id !in s.begun && step.id !in s.streams
  {
    if step.AskWrite? {
      StartWriteKeeps(s.g, step.id, step.vmId, step.path, step.bytes, w.hash);
    } else {
      StartReadKeeps(s.g, step.id, step.vmId, step.path);
    }
    hide Valid, UploadInv, CommitsInv, ReportInv, PromiseInv, DownloadInv, PieceInv, ReaderInv, ReceivedInv, FrameInv, WriteFrames, To;
  }

  lemma AskWriteWire(w: World, s: System, step: Step)
    requires Inv(w, s) && step.AskWrite? && Allowed(w, s, step)
    ensures WireInv(w, Next(w, s, step))
  {
    var s', id, a := Next(w, s, step), step.id, Asked(step.path, step.bytes);
    hide Valid, UploadsInv, DownloadsInv, FrameInv, WriteFrames, To;
    NewCaller(w, s, step);
    AskedGrows(w, s, id, a);
    WriteFramesInv(w, id, step.vmId, step.path, step.bytes, s.asked[id := a], s.wanted);
  }

  lemma AskWriteUploads(w: World, s: System, step: Step)
    requires Inv(w, s) && step.AskWrite? && Allowed(w, s, step)
    ensures UploadsInv(w, Next(w, s, step))
  {
    NewCaller(w, s, step);
    AskedGrows(w, s, step.id, Asked(step.path, step.bytes));
    hide Valid, WireInv, DownloadsInv, UploadInv, CommitsInv, ReportInv, StartWrite;
  }

  lemma WantedGrows(w: World, s: System, id: Id, path: string)
    requires Inv(w, s) && id !in s.asked && id !in s.wanted && id !in s.begun
    ensures var wanted' := s.wanted[id := path];
            && (forall frame :: FrameInv(w, s.asked, s.wanted, frame) ==> FrameInv(w, s.asked, wanted', frame))
            && (forall frame :: frame in s.vm.sent ==> PieceInv(w, wanted', s.streams, frame))
  {
    assert forall frame :: frame in s.vm.sent ==> frame.transferId != id;
    hide Valid, UploadsInv, DownloadInv, ReceivedInv, ReaderInv;
  }

  lemma AskKeepsDownloads(w: World, s: System, step: Step)
    requires Inv(w, s) && (step.AskWrite? || step.AskRead?) && Allowed(w, s, step)
    ensures DownloadsInv(w, Next(w, s, step))
  {
    NewCaller(w, s, step);
    WantedGrows(w, s, step.id, step.path);
    hide Valid, WireInv, UploadsInv, DownloadsInv, PieceInv, StartRead, StartWrite, ReceivedInv, ReaderInv;
    PiecesOf(w, s);
    var s' := Next(w, s, step);
    assert Pieces(w, s.vm.sent, s'.wanted, s.streams);
    NewReader(w, s, s', step.id);
  }

  /** One more caller, who has received nothing, and no other change. */
  lemma NewReader(w: World, s: System, s': System, id: Id)
    requires DownloadsInv(w, s) && id !in s.streams && s'.vm == s.vm && s'.begun == s.begun && s'.streams == s.streams
    requires s'.wanted == s.wanted || (id in s'.wanted && s'.wanted == s.wanted[id := s'.wanted[id]])
    requires s'.g.transfers.Keys <= s.g.transfers.Keys + {id} && s'.g.promises.Keys == s.g.promises.Keys + {id}
    requires forall i :: i in s.g.transfers ==> i in s'.g.transfers && s'.g.transfers[i] == s.g.transfers[i]
    requires forall i :: i in s.g.promises ==> s'.g.promises[i] == s.g.promises[i]
    requires id !in s.wanted && id !in s.g.promises && id !in s.g.transfers
    requires id in s'.wanted && id in s'.g.transfers ==>
               var t := s'.g.transfers[id]; t.Read? && t.seqNo == 0 && t.hashed == []
    requires id in s'.wanted ==> s'.g.promises[id].ReadPending? || s'.g.promises[id].ReadRejected?
    requires Pieces(w, s.vm.sent, s'.wanted, s.streams)
    ensures DownloadsInv(w, s')
  {
    assert id in s'.wanted && id in s'.g.transfers ==> ReceivedInv(s'.streams, id, s'.g.transfers[id]);
    assert id in s'.wanted ==> ReaderInv(w, s'.streams, id, s'.g.promises[id]);
    hide ReceivedInv, ReaderInv, DownloadInv, StreamInv, Pieces;
  }

  lemma AskReadWire(w: World, s: System, step: Step)
    requires Inv(w, s) && step.AskRead? && Allowed(w, s, step)
    ensures WireInv(w, Next(w, s, step))
  {
    hide Valid, DownloadsInv, UploadsInv, To, FrameInv;
    NewCaller(w, s, step);
    WantedGrows(w, s, step.id, step.path);
    ReadFrameInv(w, step.id, step.vmId, step.path, s.asked, s.wanted[step.id := step.path]);
  }

  lemma ReadFrameInv(w: World, id: Id, vmId: VmId, path: string, asked: Writes, wanted: Reads)
    requires id in wanted && wanted[id] == path
    ensures forall frame :: (US, frame) in To(vmId, [FileRead(id, path)]) ==> vmId == US && FrameInv(w, asked, wanted, frame)
  {
  }

  lemma AskReadUploads(w: World, s: System, step: Step)
    requires Inv(w, s) && step.AskRead? && Allowed(w, s, step)
    ensures UploadsInv(w, Next(w, s, step))
  {
    NewCaller(w, s, step);
    hide Valid, WireInv, DownloadsInv, UploadInv, CommitsInv, ReportInv, PromiseInv, StartRead;
  }

  // ---------------------------------------------------------------- A frame reaches the gateway

  lemma ReceiveOnlyAt(g: Gateway, vmId: VmId, frame: VmFrame, hash: Hash)
    requires Valid(g)
    ensures OnlyAt(g, Receive(g, vmId, frame, hash), frame.transferId)
    ensures var g', id := Receive(g, vmId, frame, hash), frame.transferId;
            && (id in g'.transfers ==> g'.transfers[id].vmId == g.transfers[id].vmId)
            && (id in g.transfers && g.transfers[id].vmId != vmId ==> g' == g)
            && (id !in g.transfers ==> g' == g)
  {
    hide InStep;
  }

  lemma DeliverToWriter(w: World, s: System, frame: VmFrame)
    requires Inv(w, s) && frame in s.vm.sent && frame.transferId in s.asked && frame.transferId in s.g.transfers
    ensures var id := frame.transferId;
            PromiseInv(w, s.vm, s.begun, s.asked[id], id, Receive(s.g, US, frame, w.hash).promises[id])
  {
    var id := frame.transferId;
    assert InStep(s.g.transfers[id], s.g.promises[id]);
    assert PromiseInv(w, s.vm, s.begun, s.asked[id], id, s.g.promises[id]);
    assert ReportInv(w, s.vm, s.begun, s.asked, frame);
    hide Inv;
  }

  lemma OnePieceMore(streams: Streams, id: Id, bytes: Bytes, n: nat, data: Bytes)
    requires IsPrefix(streams, id, bytes, n)
    requires id in streams && n < |streams[id].pieces| && streams[id].pieces[n] == data
    ensures IsPrefix(streams, id, bytes + data, n + 1)
  {
    var pieces := streams[id].pieces;
    FlattenOne(pieces[..n], data);
    assert pieces[..n + 1] == pieces[..n] + [data];
  }

  /** A reader that gets a frame of its own download is still told the truth. */
  lemma ReaderIsTold(w: World, wanted: Reads, streams: Streams, g: Gateway, frame: VmFrame)
    requires Valid(g) && frame.transferId in wanted && frame.transferId in g.transfers && frame.transferId in g.promises
    requires g.transfers[frame.transferId].vmId == US && ReceivedInv(streams, frame.transferId, g.transfers[frame.transferId])
    requires ReaderInv(w, streams, frame.transferId, g.promises[frame.transferId])
    requires PieceInv(w, wanted, streams, frame)
    ensures var id, g' := frame.transferId, Receive(g, US, frame, w.hash);
            && (id in g'.transfers ==> ReceivedInv(streams, id, g'.transfers[id]))
            && ReaderInv(w, streams, id, g'.promises[id])
  {
    var id := frame.transferId;
    var t, p := g.transfers[id], g.promises[id];
    assert InStep(t, p);
    hide Valid;
    if frame.VmChunk? && frame.seqNo == t.seqNo { OnePieceMore(streams, id, t.hashed, t.seqNo, frame.data); }
    hide IsPrefix;
    if frame.FileDone? { assert StreamOf(p) == t.hashed; }
  }

  lemma DeliverToReader(w: World, s: System, frame: VmFrame)
    requires Inv(w, s) && frame in s.vm.sent && frame.transferId in s.wanted && frame.transferId in s.g.transfers
    ensures var id, g' := frame.transferId, Receive(s.g, US, frame, w.hash);
            && (id in g'.transfers ==> ReceivedInv(s.streams, id, g'.transfers[id]))
            && ReaderInv(w, s.streams, id, g'.promises[id])
  {
    hide Valid, UploadsInv, Receive, PieceInv, ReceivedInv, ReaderInv, FrameInv;
    ReaderIsTold(w, s.wanted, s.streams, s.g, frame);
  }

  lemma DeliverKeeps(w: World, s: System, step: Step)
    requires Inv(w, s) && step.Deliver? && Allowed(w, s, step)
    ensures Inv(w, Next(w, s, step))
  {
    var g', id := Receive(s.g, step.vmId, step.frame, w.hash), step.frame.transferId;
    ReceiveKeeps(s.g, step.vmId, step.frame, w.hash);
    ReceiveOnlyAt(s.g, step.vmId, step.frame, w.hash);
    if g' != s.g {
      if id in s.asked { DeliverToWriter(w, s, step.frame); }
      if id in s.wanted { DeliverToReader(w, s, step.frame); }
      hide Receive, Valid, OnlyAt, UploadsInv, DownloadsInv;
      OneTransferKeeps(w, s, g', id);
    }
  }

  // ---------------------------------------------------------------- The writer's steps

  lemma WireOfVm(w: World, s: System, vm': Vm)
    requires WireInv(w, s) && forall frame :: frame in vm'.sent ==> frame.transferId in s.begun
    ensures WireInv(w, s.(vm := vm'))
  {
  }

  lemma DownloadsOfVm(w: World, s: System, vm': Vm, begun': set<Id>)
    requires DownloadsInv(w, s) && vm'.downloads == s.vm.downloads && s.begun <= begun'
    requires Pieces(w, vm'.sent, s.wanted, s.streams)
    ensures DownloadsInv(w, s.(vm := vm', begun := begun'))
  {
    hide Streaming, StreamInv, Pieces, ReadersServed, ReadersTold;
  }

  /** Where uploads in progress and commits stand the same for an id, what is said of it stays so. */
  ghost predicate SameStanding(vm: Vm, vm': Vm, begun: set<Id>, begun': set<Id>, id: Id) {
    (Over(vm, begun, id) <==> Over(vm', begun', id)) && (Committed(vm.commits, id) <==> Committed(vm'.commits, id))
  }

  lemma SaidStays(w: World, s: System, vm': Vm, begun': set<Id>)
    requires Reports(w, s.vm, s.begun, s.asked) && WritersTold(w, s.vm, s.begun, s.asked, s.g.promises)
    requires vm'.sent == s.vm.sent && forall id :: id in s.asked ==> SameStanding(s.vm, vm', s.begun, begun', id)
    ensures Reports(w, vm', begun', s.asked) && WritersTold(w, vm', begun', s.asked, s.g.promises)
  {
    hide Committed, Over;
    forall frame | frame in s.vm.sent ensures ReportInv(w, vm', begun', s.asked, frame) {
      assert ReportInv(w, s.vm, s.begun, s.asked, frame);
    }
    forall id | id in s.asked && id in s.g.promises ensures PromiseInv(w, vm', begun', s.asked[id], id, s.g.promises[id]) {
      assert PromiseInv(w, s.vm, s.begun, s.asked[id], id, s.g.promises[id]);
    }
  }

  /** Only the upload at id changes. */
  lemma RunningOne(w: World, vm: Vm, vm': Vm, asked: Writes, id: Id)
    requires Running(w, vm, asked) && id in vm.uploads && id in vm'.uploads
    requires vm'.uploads == vm.uploads[id := vm'.uploads[id]]
    requires forall i :: i != id ==> TempOf(vm'.temps, i) == TempOf(vm.temps, i)
    requires UploadInv(w, vm'.uploads[id], TempOf(vm'.temps, id), asked, id)
    ensures Running(w, vm', asked)
  {
    hide UploadInv;
    forall i | i in vm'.temps ensures i in vm'.uploads {
      assert i != id ==> TempOf(vm'.temps, i) == TempOf(vm.temps, i);
    }
  }

  /** A step of the VM that touches one upload in progress and says nothing. */
  lemma UploadKeeps(w: World, s: System, vm': Vm, id: Id)
    requires Inv(w, s) && id in s.vm.uploads && id in vm'.uploads
    requires vm' == s.vm.(uploads := vm'.uploads, temps := vm'.temps)
    requires vm'.uploads == s.vm.uploads[id := vm'.uploads[id]]
    requires forall i :: i != id ==> TempOf(vm'.temps, i) == TempOf(s.vm.temps, i)
    requires UploadInv(w, vm'.uploads[id], TempOf(vm'.temps, id), s.asked, id)
    ensures Inv(w, s.(vm := vm'))
  {
    assert CommitsInv(w, vm', s.begun, s.asked) by { hide Running, Reports, WritersTold, WireInv, DownloadsInv; }
    hide UploadInv, CommitsInv, Running, Reports, WritersTold, WireInv, DownloadsInv;
    RunningOne(w, s.vm, vm', s.asked, id);
    assert forall i :: SameStanding(s.vm, vm', s.begun, s.begun, i);
    hide SameStanding, TempOf;
    SaidStays(w, s, vm', s.begun);
    SentIsBegun(w, s);
    WireOfVm(w, s, vm');
    PiecesOf(w, s);
    DownloadsOfVm(w, s, vm', s.begun);
    assert s.(vm := vm', begun := s.begun) == s.(vm := vm');
  }

  lemma SentIsBegun(w: World, s: System)
    requires WireInv(w, s)
    ensures forall frame :: frame in s.vm.sent ==> frame.transferId in s.begun
  {
  }

  lemma PiecesOf(w: World, s: System)
    requires DownloadsInv(w, s)
    ensures Pieces(w, s.vm.sent, s.wanted, s.streams)
  {
  }

  /** A chunk in its turn extends what is queued by the next piece. */
  lemma FedInv(u: Upload, temp: Option<Bytes>, pieces: seq<Bytes>, data: Bytes)
    requires TakenInv(u, temp, pieces) && u.seqNo < |pieces| && pieces[u.seqNo] == data
    ensures TakenInv(u.(seqNo := u.seqNo + 1, queue := Q.Push(u.queue, data)), temp, pieces)
  {
    FlattenOne(u.queue.items, data);
    FlattenOne(pieces[..u.seqNo], data);
    assert pieces[..u.seqNo + 1] == pieces[..u.seqNo] + [data];
    hide Flatten;
    ThreeJoin(if temp.Some? then temp.value else [], Flatten(u.queue.items), data);
  }

  lemma TakenIsInOrder(w: World, s: System, frame: GatewayFrame)
    requires Inv(w, s) && (US, frame) in s.g.wire && frame.FileChunk? && frame.transferId in s.vm.uploads
    ensures var id, u := frame.transferId, s.vm.uploads[frame.transferId];
            && id in s.asked && UploadInv(w, u, TempOf(s.vm.temps, id), s.asked, id)
            && frame.seqNo < |Cut(s.asked[id].bytes)| && Cut(s.asked[id].bytes)[frame.seqNo] == frame.data
  {
    hide UploadInv, DownloadsInv;
    assert FrameInv(w, s.asked, s.wanted, frame);
  }

  lemma FeedKeeps(w: World, s: System, frame: GatewayFrame)
    requires Inv(w, s) && (US, frame) in s.g.wire && frame.FileChunk?
    ensures Inv(w, s.(vm := FeedUpload(s.vm, frame.transferId, frame.seqNo, frame.data)))
  {
    var id := frame.transferId;
    if id in s.vm.uploads {
      TakenIsInOrder(w, s, frame);
      hide Inv, Flatten, Cut;
      var u, vm' := s.vm.uploads[id], FeedUpload(s.vm, id, frame.seqNo, frame.data);
      if frame.seqNo == u.seqNo { FedInv(u, TempOf(s.vm.temps, id), Cut(s.asked[id].bytes), frame.data); }
      assert UploadInv(w, vm'.uploads[id], TempOf(vm'.temps, id), s.asked, id);
      hide UploadInv, FeedUpload;
      UploadKeeps(w, s, vm', id);
    }
  }

  lemma EndKeeps(w: World, s: System, id: Id)
    requires Inv(w, s)
    ensures Inv(w, s.(vm := EndUpload(s.vm, id)))
  {
    if id in s.vm.uploads {
      UploadIsAsked(w, s, id);
      hide Inv, Flatten, Cut;
      UploadKeeps(w, s, EndUpload(s.vm, id), id);
    }
  }

  lemma TakesKeeps(w: World, s: System, step: Step)
    requires Inv(w, s) && step.VmTakes? && Allowed(w, s, step)
    ensures Inv(w, Next(w, s, step))
  {
    hide Inv;
    if step.taken.FileChunk? {
      FeedKeeps(w, s, step.taken);
    } else {
      EndKeeps(w, s, step.taken.transferId);
    }
  }

  lemma OpensWriteUploads(w: World, s: System, step: Step)
    requires Inv(w, s) && step.VmOpensWrite? && Allowed(w, s, step)
    ensures step.id in s.asked && UploadsInv(w, Next(w, s, step))
  {
    var s', id := Next(w, s, step), step.id;
    assert FrameInv(w, s.asked, s.wanted, FileWrite(id, step.path, step.size, step.sha256)) by { hide UploadsInv, DownloadsInv; }
    hide WireInv, DownloadsInv, FrameInv, Cut;
    assert Cut(s.asked[id].bytes)[..0] == [];
    assert UploadInv(w, s'.vm.uploads[id], TempOf(s'.vm.temps, id), s.asked, id);
    hide UploadInv, CommitInv;
    assert CommitsInv(w, s'.vm, s'.begun, s.asked) by { hide Running, Reports, WritersTold; }
    hide CommitsInv;
    RunningOneMore(w, s.vm, s'.vm, s.asked, id);
    hide Running, Reports, WritersTold;
    SaidBeforeBegun(w, s, s'.vm, id);
  }

  lemma RunningOneMore(w: World, vm: Vm, vm': Vm, asked: Writes, id: Id)
    requires Running(w, vm, asked) && id in vm'.uploads && vm'.uploads == vm.uploads[id := vm'.uploads[id]] && vm'.temps == vm.temps
    requires UploadInv(w, vm'.uploads[id], TempOf(vm'.temps, id), asked, id)
    ensures Running(w, vm', asked)
  {
    hide UploadInv;
  }

  /** Nothing has been said of a write that has not begun, so beginning it makes nothing untrue. */
  lemma SaidBeforeBegun(w: World, s: System, vm': Vm, id: Id)
    requires Reports(w, s.vm, s.begun, s.asked) && WritersTold(w, s.vm, s.begun, s.asked, s.g.promises)
    requires CommitsInv(w, s.vm, s.begun, s.asked)
    requires id !in s.begun && id in vm'.uploads && vm'.uploads.Keys == s.vm.uploads.Keys + {id}
    requires vm'.sent == s.vm.sent && vm'.commits == s.vm.commits
    ensures Reports(w, vm', s.begun + {id}, s.asked) && WritersTold(w, vm', s.begun + {id}, s.asked, s.g.promises)
  {
    assert forall i :: SameStanding(s.vm, vm', s.begun, s.begun + {id}, i);
    hide CommitsInv, SameStanding;
    SaidStays(w, s, vm', s.begun + {id});
  }

  lemma OpensWriteKeeps(w: World, s: System, step: Step)
    requires Inv(w, s) && step.VmOpensWrite? && Allowed(w, s, step)
    ensures Inv(w, Next(w, s, step))
  {
    OpensWriteUploads(w, s, step);
    hide UploadsInv;
    PiecesOf(w, s);
    DownloadsOfVm(w, s, Next(w, s, step).vm, Next(w, s, step).begun);
    hide DownloadsInv;
  }

  lemma UploadIsAsked(w: World, s: System, id: Id)
    requires UploadsInv(w, s) && id in s.vm.uploads
    ensures id in s.asked && UploadInv(w, s.vm.uploads[id], TempOf(s.vm.temps, id), s.asked, id)
  {
  }

  /** What is known of a write in progress: it was asked for, nothing was said of it, and nothing was committed. */
  lemma InProgress(w: World, s: System, id: Id)
    requires Inv(w, s) && id in s.vm.uploads
    ensures id in s.asked && id !in s.wanted && id in s.begun
    ensures !Committed(s.vm.commits, id)
    ensures forall frame :: frame in s.vm.sent ==> frame.transferId != id
    ensures id in s.g.promises ==> s.g.promises[id] == WritePending || (s.g.promises[id].WriteRejected? && !s.g.promises[id].why.Remote?)
  {
    hide UploadInv, DownloadsInv, CommitInv;
    UploadIsAsked(w, s, id);
  }

  /** Without the upload at id, the others run on. */
  lemma RunningWithout(w: World, vm: Vm, vm': Vm, asked: Writes, id: Id)
    requires Running(w, vm, asked) && vm'.uploads == vm.uploads - {id} && vm'.temps == vm.temps - {id}
    ensures Running(w, vm', asked)
  {
    hide UploadInv;
    forall i | i in vm'.uploads ensures UploadInv(w, vm'.uploads[i], TempOf(vm'.temps, i), asked, i) {
      assert TempOf(vm'.temps, i) == TempOf(vm.temps, i);
    }
  }

  lemma SettleUploads(w: World, s: System, vm1: Vm, id: Id, frame: VmFrame)
    requires Inv(w, s) && id in s.vm.uploads && frame.transferId == id
    requires vm1 == s.vm.(files := vm1.files, commits := vm1.commits)
    requires forall i :: i != id ==> (Committed(vm1.commits, i) <==> Committed(s.vm.commits, i))
    requires var vm' := Settle(vm1, id, frame);
             CommitsInv(w, vm', s.begun, s.asked) && ReportInv(w, vm', s.begun, s.asked, frame)
    ensures UploadsInv(w, s.(vm := Settle(vm1, id, frame)))
  {
    var vm' := Settle(vm1, id, frame);
    assert forall i :: i != id ==> (Over(vm', s.begun, i) <==> Over(s.vm, s.begun, i));
    SaidOfOthers(w, s, vm', id);
    RunningUploads(w, s);
    hide Inv, ReportInv, CommitsInv, PromiseInv, Running;
    RunningWithout(w, s.vm, vm', s.asked, id);
    assert Reports(w, vm', s.begun, s.asked);
    assert WritersTold(w, vm', s.begun, s.asked, s.g.promises);
    hide Reports, WritersTold;
  }

  lemma RunningUploads(w: World, s: System)
    requires UploadsInv(w, s)
    ensures s.vm.uploads.Keys <= s.begun && Running(w, s.vm, s.asked)
  {
  }

  /** The write ends: what was said of others stays so, and what is said of it had better be so. */
  lemma SettleKeeps(w: World, s: System, vm1: Vm, id: Id, frame: VmFrame)
    requires Inv(w, s) && id in s.vm.uploads && frame.transferId == id
    requires vm1 == s.vm.(files := vm1.files, commits := vm1.commits)
    requires forall i :: i != id ==> (Committed(vm1.commits, i) <==> Committed(s.vm.commits, i))
    requires var vm' := Settle(vm1, id, frame);
             CommitsInv(w, vm', s.begun, s.asked) && ReportInv(w, vm', s.begun, s.asked, frame)
    ensures Inv(w, s.(vm := Settle(vm1, id, frame)))
  {
    var vm' := Settle(vm1, id, frame);
    SettleUploads(w, s, vm1, id, frame);
    InProgress(w, s, id);
    hide UploadsInv, CommitsInv, ReportInv;
    WireOfVm(w, s, vm');
    assert s.(vm := vm', begun := s.begun) == s.(vm := vm');
    assert PieceInv(w, s.wanted, s.streams, frame) && Pieces(w, vm'.sent, s.wanted, s.streams);
    DownloadsOfVm(w, s, vm', s.begun);
  }

  lemma SaidOfOthers(w: World, s: System, vm': Vm, id: Id)
    requires Inv(w, s) && id in s.vm.uploads
    requires forall i :: i != id ==> (Committed(vm'.commits, i) <==> Committed(s.vm.commits, i))
    requires forall i :: i != id ==> (Over(vm', s.begun, i) <==> Over(s.vm, s.begun, i))
    ensures forall f :: f in s.vm.sent ==> ReportInv(w, vm', s.begun, s.asked, f)
    ensures forall i :: i in s.asked && i in s.g.promises ==> PromiseInv(w, vm', s.begun, s.asked[i], i, s.g.promises[i])
  {
    InProgress(w, s, id);
    hide UploadInv, WireInv, DownloadsInv, CommitsInv, Over, Committed;
    forall f | f in s.vm.sent ensures ReportInv(w, vm', s.begun, s.asked, f) {
      assert ReportInv(w, s.vm, s.begun, s.asked, f);
    }
    forall i | i in s.asked && i in s.g.promises
      ensures PromiseInv(w, vm', s.begun, s.asked[i], i, s.g.promises[i])
    {
      assert PromiseInv(w, s.vm, s.begun, s.asked[i], i, s.g.promises[i]);
    }
  }

  lemma SettleErrorKeeps(w: World, s: System, id: Id, code: string)
    requires Inv(w, s) && id in s.vm.uploads
    ensures Inv(w, s.(vm := Settle(s.vm, id, FileError(id, code))))
  {
    var vm' := Settle(s.vm, id, FileError(id, code));
    InProgress(w, s, id);
    assert CommitsInv(w, vm', s.begun, s.asked);
    assert ReportInv(w, vm', s.begun, s.asked, FileError(id, code));
    hide Inv, Settle, CommitsInv, ReportInv;
    SettleKeeps(w, s, s.vm, id, FileError(id, code));
  }

  /** All the bytes and no more: a beginning of the right length is the whole. */
  lemma WholeUpload(bytes: Bytes, temp: Bytes, k: nat)
    requires k <= |Cut(bytes)| && temp == Flatten(Cut(bytes)[..k]) && |temp| == |bytes|
    ensures temp == bytes
  {
    CutKeepsAll(bytes);
    FlattenPrefix(Cut(bytes), k);
  }

  /** What a writer with nothing left to take is about to commit is what was asked for. */
  lemma CommitIsWhole(w: World, s: System, id: Id)
    requires Inv(w, s) && id in s.vm.uploads && id in s.vm.temps
    requires var u, temp := s.vm.uploads[id], s.vm.temps[id];
             u.phase.Writing? && u.queue.items == [] && Matches(u.size, u.sha256, temp, w.hash)
    ensures var u, temp := s.vm.uploads[id], s.vm.temps[id];
            && CommitInv(w, s.asked, Commit(id, u.phase.target, temp))
            && u.size == |s.asked[id].bytes| && u.sha256 == w.hash(s.asked[id].bytes)
  {
    hide WireInv, DownloadsInv;
    UploadIsAsked(w, s, id);
    hide UploadsInv, Cut;
    var u, temp := s.vm.uploads[id], s.vm.temps[id];
    assert temp + Flatten([]) == temp;
    WholeUpload(s.asked[id].bytes, temp, u.seqNo);
  }

  lemma CommitKeeps(w: World, s: System, id: Id)
    requires Inv(w, s) && id in s.vm.uploads && id in s.vm.temps
    requires var u, temp := s.vm.uploads[id], s.vm.temps[id];
             u.phase.Writing? && u.queue.items == [] && Matches(u.size, u.sha256, temp, w.hash)
    ensures var u, temp := s.vm.uploads[id], s.vm.temps[id];
            Inv(w, s.(vm := Settle(s.vm.(files := s.vm.files[u.phase.target := temp],
                                         commits := s.vm.commits + [Commit(id, u.phase.target, temp)]),
                                   id, FileDone(id, u.size, u.sha256))))
  {
    var u, temp := s.vm.uploads[id], s.vm.temps[id];
    var c, frame := Commit(id, u.phase.target, temp), FileDone(id, u.size, u.sha256);
    var vm1 := s.vm.(files := s.vm.files[u.phase.target := temp], commits := s.vm.commits + [c]);
    var vm' := Settle(vm1, id, frame);
    InProgress(w, s, id);
    CommitIsWhole(w, s, id);
    OneCommitMore(s.vm.commits, c);
    CommitsOf(w, s);
    hide Inv, CommitsInv, Committed, CommitInv;
    CommitsGrow(w, s.vm, vm', s.begun, s.asked, c);
    assert ReportInv(w, vm', s.begun, s.asked, frame);
    hide Settle, ReportInv;
    SettleKeeps(w, s, vm1, id, frame);
  }

  lemma CommitsOf(w: World, s: System)
    requires Inv(w, s)
    ensures CommitsInv(w, s.vm, s.begun, s.asked)
  {
    hide WireInv, DownloadsInv, Running, CommitsInv, Reports, WritersTold;
  }

  lemma OneCommitMore(commits: seq<Commit>, c: Commit)
    ensures forall i :: Committed(commits + [c], i) <==> Committed(commits, i) || i == c.id
  {
    assert (commits + [c])[|commits|] == c;
    assert forall k :: 0 <= k < |commits| ==> (commits + [c])[k] == commits[k];
  }

  lemma CommitsGrow(w: World, vm: Vm, vm': Vm, begun: set<Id>, asked: Writes, c: Commit)
    requires CommitsInv(w, vm, begun, asked) && CommitInv(w, asked, c) && !Committed(vm.commits, c.id) && c.id in begun
    requires vm'.commits == vm.commits + [c] && vm'.files == vm.files[c.target := c.content]
    requires vm'.uploads == vm.uploads - {c.id}
    ensures CommitsInv(w, vm', begun, asked)
  {
    assert vm'.commits[..|vm'.commits| - 1] == vm.commits;
    forall k | 0 <= k < |vm'.commits|
      ensures CommitInv(w, asked, vm'.commits[k]) && Over(vm', begun, vm'.commits[k].id)
    {
      assert k < |vm.commits| ==> vm'.commits[k] == vm.commits[k];
    }
    forall j, k | 0 <= j < k < |vm'.commits| ensures vm'.commits[j].id != vm'.commits[k].id {
      assert vm'.commits[j] == vm.commits[j];
      assert k < |vm.commits| ==> vm'.commits[k] == vm.commits[k];
    }
  }

  lemma OpenKeeps(w: World, s: System, id: Id)
    requires Inv(w, s) && id in s.vm.uploads && s.vm.uploads[id].phase.Opening?
    ensures Inv(w, s.(vm := OpenUpload(s.vm, id, w.locate)))
  {
    hide Inv, Settle, TakenInv;
    var u, vm' := s.vm.uploads[id], OpenUpload(s.vm, id, w.locate);
    if u.size > MAX_FILE_BYTES {
      SettleErrorKeeps(w, s, id, "too_large");
    } else if w.locate(u.path).Refused? {
      SettleErrorKeeps(w, s, id, w.locate(u.path).code);
    } else {
      OpenedIsAsked(w, s, id);
      hide UploadInv;
      UploadKeeps(w, s, vm', id);
    }
  }

  lemma OpenedIsAsked(w: World, s: System, id: Id)
    requires Inv(w, s) && id in s.vm.uploads && s.vm.uploads[id].phase.Opening? && w.locate(s.vm.uploads[id].path).Target?
    requires s.vm.uploads[id].size <= MAX_FILE_BYTES
    ensures UploadInv(w, s.vm.uploads[id].(phase := Writing(w.locate(s.vm.uploads[id].path).target)), Some([]), s.asked, id)
  {
    hide WireInv, DownloadsInv;
    UploadIsAsked(w, s, id);
    hide UploadsInv;
  }

  lemma TookInv(u: Upload, temp: Bytes, pieces: seq<Bytes>)
    requires TakenInv(u, Some(temp), pieces) && u.queue.items != []
    ensures TakenInv(u.(queue := u.queue.(items := u.queue.items[1..])), Some(temp + u.queue.items[0]), pieces)
  {
    FlattenHead(u.queue.items);
    assert temp + Flatten(u.queue.items) == (temp + u.queue.items[0]) + Flatten(u.queue.items[1..]);
  }

  lemma TakeItemKeeps(w: World, s: System, id: Id, vm': Vm)
    requires Inv(w, s) && id in s.vm.uploads && id in s.vm.temps && s.vm.uploads[id].queue.items != []
    requires var u, temp := s.vm.uploads[id], s.vm.temps[id];
             && vm' == s.vm.(uploads := s.vm.uploads[id := u.(queue := u.queue.(items := u.queue.items[1..]))],
                             temps := s.vm.temps[id := temp + u.queue.items[0]])
    ensures Inv(w, s.(vm := vm'))
  {
    UploadIsAsked(w, s, id);
    hide Inv, TakenInv;
    TookInv(s.vm.uploads[id], s.vm.temps[id], Cut(s.asked[id].bytes));
    hide Cut;
    assert UploadInv(w, vm'.uploads[id], TempOf(vm'.temps, id), s.asked, id);
    hide UploadInv;
    UploadKeeps(w, s, vm', id);
  }

  lemma OwnUpload(w: World, s: System, id: Id)
    requires Inv(w, s) && id in s.vm.uploads
    ensures s.vm.uploads[id].phase.Writing? <==> id in s.vm.temps
    ensures UploadInv(w, s.vm.uploads[id].(queue := s.vm.uploads[id].queue.(sleeping := true)), TempOf(s.vm.temps, id), s.asked, id)
  {
    hide WireInv, DownloadsInv;
    UploadIsAsked(w, s, id);
  }

  lemma WritesKeeps(w: World, s: System, id: Id)
    requires Inv(w, s)
    ensures Inv(w, s.(vm := WriterTurn(s.vm, id, w.hash, w.locate)))
  {
    hide Inv, UploadInv, OpenUpload, Settle;
    if id in s.vm.uploads {
      var u, vm' := s.vm.uploads[id], WriterTurn(s.vm, id, w.hash, w.locate);
      OwnUpload(w, s, id);
      if u.phase.Opening? {
        OpenKeeps(w, s, id);
      } else if !u.queue.sleeping {
        var temp := s.vm.temps[id];
        match Q.Pull(u.queue).1
        case Asleep =>
          UploadKeeps(w, s, vm', id);
        case Thrown(error) => SettleErrorKeeps(w, s, id, error);
        case Item(chunk) =>
          if |temp| + |chunk| > u.size {
            SettleErrorKeeps(w, s, id, "mismatch");
          } else {
            TakeItemKeeps(w, s, id, vm');
          }
        case Finished =>
          if Matches(u.size, u.sha256, temp, w.hash) {
            CommitKeeps(w, s, id);
          } else {
            SettleErrorKeeps(w, s, id, "mismatch");
          }
      }
    }
  }

  lemma DiskFailsKeeps(w: World, s: System, step: Step)
    requires Inv(w, s) && step.DiskFails?
    ensures Inv(w, Next(w, s, step))
  {
    hide Inv, Settle;
    if step.id in s.vm.uploads && s.vm.uploads[step.id].phase.Writing? {
      SettleErrorKeeps(w, s, step.id, "failed");
    } else {
      assert Next(w, s, step) == s;
    }
  }

  // ---------------------------------------------------------------- The reader's steps

  /** A step that touches no write. */
  lemma ReadingKeepsUploads(w: World, s: System, s': System)
    requires Inv(w, s) && s'.g == s.g && s'.asked == s.asked
    requires s'.vm == s.vm.(downloads := s'.vm.downloads, sent := s'.vm.sent)
    requires s.begun <= s'.begun && forall i :: i in s'.begun && i !in s.begun ==> i !in s.asked
    requires forall frame :: frame in s'.vm.sent && frame !in s.vm.sent ==> frame.transferId !in s.asked
    ensures UploadsInv(w, s')
  {
    hide UploadInv, WireInv, DownloadsInv, CommitInv;
    assert forall i :: i in s.asked ==> (Over(s'.vm, s'.begun, i) <==> Over(s.vm, s.begun, i));
    forall f | f in s'.vm.sent ensures ReportInv(w, s'.vm, s'.begun, s.asked, f) {
      if f in s.vm.sent { assert ReportInv(w, s.vm, s.begun, s.asked, f); }
    }
    forall i | i in s.asked && i in s.g.promises
      ensures PromiseInv(w, s'.vm, s'.begun, s.asked[i], i, s.g.promises[i])
    {
      assert PromiseInv(w, s.vm, s.begun, s.asked[i], i, s.g.promises[i]);
    }
    assert CommitsInv(w, s'.vm, s'.begun, s.asked);
    hide ReportInv, PromiseInv, CommitsInv;
  }

  lemma ReadingKeepsWire(w: World, s: System, s': System)
    requires WireInv(w, s) && s'.g == s.g && s'.asked == s.asked && s'.wanted == s.wanted
    requires s.begun <= s'.begun && forall i :: i in s'.begun ==> i in s.begun || i in s.wanted
    requires forall frame :: frame in s'.vm.sent ==> frame in s.vm.sent || frame.transferId in s'.begun
    ensures WireInv(w, s')
  {
  }

  ghost predicate AllOf(frames: seq<VmFrame>, id: Id) {
    forall frame :: frame in frames ==> frame.transferId == id
  }

  /** A step that touches one read, and is right about it. */
  lemma ReadingKeeps(w: World, s: System, s': System, id: Id, more: seq<VmFrame>)
    requires Inv(w, s) && DownloadsInv(w, s') && id in s.wanted
    requires s'.g == s.g && s'.asked == s.asked && s'.wanted == s.wanted && s'.begun == s.begun + {id}
    requires s'.vm == s.vm.(downloads := s'.vm.downloads, sent := s.vm.sent + more) && AllOf(more, id)
    ensures Inv(w, s')
  {
    assert id !in s.asked by { hide UploadsInv, DownloadsInv; }
    hide UploadsInv, DownloadsInv, WireInv;
    ReadingKeepsWire(w, s, s');
    ReadingKeepsUploads(w, s, s');
  }

  /** Streams only grow: what was a beginning stays one. */
  ghost predicate StreamsGrow(streams: Streams, streams': Streams) {
    && (forall id :: id in streams ==>
          && id in streams' && streams'[id].content == streams[id].content
          && streams[id].pieces <= streams'[id].pieces
          && (streams[id].ended ==> streams'[id] == streams[id]))
    && (forall id :: id in streams' && id !in streams ==> streams'[id].pieces == [])
  }

  lemma PrefixStays(streams: Streams, streams': Streams, id: Id, bytes: Bytes, n: nat)
    requires StreamsGrow(streams, streams') && IsPrefix(streams, id, bytes, n)
    ensures IsPrefix(streams', id, bytes, n)
  {
    if id in streams {
      assert streams'[id].pieces[..n] == streams[id].pieces[..n];
    }
  }

  lemma StreamsGrowKeeps(w: World, s: System, streams': Streams)
    requires DownloadsInv(w, s) && StreamsGrow(s.streams, streams')
    ensures Pieces(w, s.vm.sent, s.wanted, streams')
    ensures ReadersServed(streams', s.wanted, s.g.transfers)
    ensures ReadersTold(w, streams', s.wanted, s.g.promises)
  {
    hide Streaming, Known;
    forall frame | frame in s.vm.sent ensures PieceInv(w, s.wanted, streams', frame) {
      assert PieceInv(w, s.wanted, s.streams, frame);
    }
    hide StreamsGrow, IsPrefix, PieceInv;
    forall id | id in s.wanted && id in s.g.transfers ensures ReceivedInv(streams', id, s.g.transfers[id]) {
      var t := s.g.transfers[id];
      assert ReceivedInv(s.streams, id, t);
      PrefixStays(s.streams, streams', id, t.hashed, t.seqNo);
    }
    hide ReceivedInv;
    forall id | id in s.wanted && id in s.g.promises ensures ReaderInv(w, streams', id, s.g.promises[id]) {
      assert ReaderInv(w, s.streams, id, s.g.promises[id]);
      ReaderInvStays(w, s.streams, streams', id, s.g.promises[id]);
    }
  }

  lemma ReaderInvStays(w: World, streams: Streams, streams': Streams, id: Id, p: Promise)
    requires StreamsGrow(streams, streams') && ReaderInv(w, streams, id, p)
    ensures ReaderInv(w, streams', id, p)
  {
    if p.ReadStarted? {
      var n: nat :| IsPrefix(streams, id, p.stream.bytes, n);
      PrefixStays(streams, streams', id, p.stream.bytes, n);
    }
  }

  /** The stream at id changes, and with it its download, which goes on or is over. */
  lemma StreamingOne(downloads: map<Id, Download>, downloads': map<Id, Download>, streams: Streams, id: Id, t: Streamed)
    requires Streaming(downloads, streams) && downloads' - {id} == downloads - {id}
    requires id in downloads' ==> DownloadInv(downloads'[id], t)
    ensures Streaming(downloads', streams[id := t])
  {
    hide DownloadInv;
    forall i | i in downloads' && i != id ensures i in streams && DownloadInv(downloads'[i], streams[i]) {
      assert i in downloads' - {id} && i in downloads - {id};
      assert downloads'[i] == (downloads' - {id})[i] == downloads[i];
    }
  }

  lemma KnownOne(streams: Streams, wanted: Reads, begun: set<Id>, begun': set<Id>, id: Id, t: Streamed)
    requires Known(streams, wanted, begun) && begun <= begun' && id in wanted && id in begun' && StreamInv(t)
    ensures Known(streams[id := t], wanted, begun')
  {
  }

  lemma PiecesMore(w: World, sent: seq<VmFrame>, more: seq<VmFrame>, wanted: Reads, streams: Streams)
    requires Pieces(w, sent, wanted, streams) && Pieces(w, more, wanted, streams)
    ensures Pieces(w, sent + more, wanted, streams)
  {
  }

  /** One stream grows, and the VM says something about it. */
  lemma StreamKeeps(w: World, s: System, s': System, id: Id, t: Streamed, more: seq<VmFrame>)
    requires DownloadsInv(w, s) && s'.g == s.g && s'.wanted == s.wanted && s.begun <= s'.begun
    requires s'.streams == s.streams[id := t] && s'.vm.sent == s.vm.sent + more
    requires s'.vm.downloads - {id} == s.vm.downloads - {id}
    requires id in s'.wanted && id in s'.begun && StreamInv(t)
    requires id in s'.vm.downloads ==> DownloadInv(s'.vm.downloads[id], t)
    requires StreamsGrow(s.streams, s'.streams) && Pieces(w, more, s'.wanted, s'.streams)
    ensures DownloadsInv(w, s')
  {
    StreamsGrowKeeps(w, s, s'.streams);
    assert Streaming(s.vm.downloads, s.streams) && Known(s.streams, s.wanted, s.begun);
    hide Streaming, Known, Pieces, ReadersServed, ReadersTold, StreamInv, DownloadInv, StreamsGrow;
    StreamingOne(s.vm.downloads, s'.vm.downloads, s.streams, id, t);
    KnownOne(s.streams, s.wanted, s.begun, s'.begun, id, t);
    PiecesMore(w, s.vm.sent, more, s.wanted, s'.streams);
  }

  /** The VM says of a read only that it failed. */
  lemma ErrorKeeps(w: World, s: System, s': System, id: Id, code: string)
    requires DownloadsInv(w, s) && s'.g == s.g && s'.wanted == s.wanted && s.begun <= s'.begun && s'.streams == s.streams
    requires s'.vm.sent == s.vm.sent + [FileError(id, code)] && s'.vm.downloads == s.vm.downloads - {id}
    ensures DownloadsInv(w, s')
  {
    hide ReadersServed, ReadersTold, StreamInv, DownloadInv;
    assert Pieces(w, [FileError(id, code)], s.wanted, s.streams);
    hide PieceInv;
    PiecesMore(w, s.vm.sent, [FileError(id, code)], s.wanted, s.streams);
    hide Pieces;
  }

  lemma NotYetStreamed(w: World, s: System, id: Id)
    requires DownloadsInv(w, s) && id !in s.begun
    ensures id !in s.streams && id !in s.vm.downloads
  {
  }

  lemma StartDownloadCases(vm: Vm, id: Id, path: string, chunks: seq<Bytes>, locate: Locate) returns (refused: bool, code: string)
    requires id !in vm.downloads
    ensures var vm' := StartDownload(vm, id, path, chunks, locate);
            if refused then vm'.downloads == vm.downloads - {id} && vm'.sent == vm.sent + [FileError(id, code)]
            else vm'.downloads == vm.downloads[id := Download(chunks, 0, [])] && vm'.sent == vm.sent + []
  {
    var vm' := StartDownload(vm, id, path, chunks, locate);
    refused, code := id !in vm'.downloads, "";
    if refused { code := vm'.sent[|vm.sent|].code; }
  }

  lemma NewStream(chunks: seq<Bytes>)
    ensures var t := Streamed(Flatten(chunks), [], false); StreamInv(t) && DownloadInv(Download(chunks, 0, []), t)
  {
    assert [] + Flatten(chunks) == Flatten(chunks);
  }

  lemma OpensReadDownloads(w: World, s: System, id: Id, path: string, chunks: seq<Bytes>)
    requires DownloadsInv(w, s) && id !in s.begun && id in s.wanted
    ensures DownloadsInv(w, OpenStream(w, s, id, path, chunks))
  {
    var s' := OpenStream(w, s, id, path, chunks);
    NotYetStreamed(w, s, id);
    hide DownloadsInv;
    var refused, code := StartDownloadCases(s.vm, id, path, chunks, w.locate);
    hide StartDownload;
    if refused {
      ErrorKeeps(w, s, s', id, code);
    } else {
      var t := Streamed(Flatten(chunks), [], false);
      NewStream(chunks);
      hide StreamInv, DownloadInv, Flatten;
      assert StreamsGrow(s.streams, s'.streams);
      hide StreamsGrow;
      StreamKeeps(w, s, s', id, t, []);
    }
  }

  lemma OpensReadKeeps(w: World, s: System, id: Id, path: string, chunks: seq<Bytes>)
    requires Inv(w, s) && (US, FileRead(id, path)) in s.g.wire && id !in s.begun
    ensures Inv(w, OpenStream(w, s, id, path, chunks))
  {
    var s' := OpenStream(w, s, id, path, chunks);
    assert id in s.wanted by {
      hide UploadsInv, DownloadsInv;
      assert FrameInv(w, s.asked, s.wanted, FileRead(id, path));
    }
    hide UploadsInv, DownloadsInv, WireInv;
    OpensReadDownloads(w, s, id, path, chunks);
    NotYetStreamed(w, s, id);
    var refused, code := StartDownloadCases(s.vm, id, path, chunks, w.locate);
    ReadingKeeps(w, s, s', id, if refused then [FileError(id, code)] else []);
  }

  ghost function Sends(d: Download, id: Id, hash: Hash): seq<VmFrame> {
    if d.rest == [] then [FileDone(id, |d.hashed|, hash(d.hashed))] else PieceFrames(id, d.seqNo, Cut(d.rest[0]))
  }

  /** The next chunk goes out in pieces. */
  lemma SendsPieces(w: World, d: Download, t: Streamed, wanted: Reads, streams: Streams, id: Id)
    requires DownloadInv(d, t) && d.rest != []
    requires id in streams && streams[id] == t.(pieces := t.pieces + Cut(d.rest[0]))
    ensures DownloadInv(Download(d.rest[1..], d.seqNo + |Cut(d.rest[0])|, d.hashed + d.rest[0]), streams[id])
    ensures Pieces(w, Sends(d, id, w.hash), wanted, streams)
    ensures StreamInv(streams[id])
  {
    SentPieces(w, d, t, wanted, streams, id);
    hide Pieces, Cut;
    PiecesAdd(d, t);
  }

  lemma PiecesAdd(d: Download, t: Streamed)
    requires DownloadInv(d, t) && d.rest != []
    ensures var t' := t.(pieces := t.pieces + Cut(d.rest[0]));
            StreamInv(t') && DownloadInv(Download(d.rest[1..], d.seqNo + |Cut(d.rest[0])|, d.hashed + d.rest[0]), t')
  {
    hide Cut, Flatten;
    CutKeepsAll(d.rest[0]);
    FlattenAppend(t.pieces, Cut(d.rest[0]));
    FlattenHead(d.rest);
    OneChunkOn(d.hashed, d.rest[0], Flatten(d.rest[1..]), t.content);
  }

  lemma OneChunkOn(hashed: Bytes, chunk: Bytes, rest: Bytes, content: Bytes)
    requires hashed + (chunk + rest) == content
    ensures hashed + chunk <= content && (hashed + chunk) + rest == content
  {
    ThreeJoin(hashed, chunk, rest);
  }

  lemma SentPieces(w: World, d: Download, t: Streamed, wanted: Reads, streams: Streams, id: Id)
    requires d.seqNo == |t.pieces| && d.rest != []
    requires id in streams && streams[id] == t.(pieces := t.pieces + Cut(d.rest[0]))
    ensures Pieces(w, Sends(d, id, w.hash), wanted, streams)
  {
    hide Cut;
  }

  lemma SendsEnd(w: World, d: Download, t: Streamed, wanted: Reads, streams: Streams, id: Id)
    requires DownloadInv(d, t) && d.rest == []
    requires id in streams && streams[id] == t.(ended := true)
    ensures Pieces(w, Sends(d, id, w.hash), wanted, streams) && StreamInv(streams[id])
  {
    assert d.hashed + Flatten([]) == d.hashed;
  }

  lemma OwnDownload(w: World, s: System, id: Id)
    requires DownloadsInv(w, s) && id in s.vm.downloads
    ensures id in s.streams && id in s.wanted && s.begun + {id} == s.begun
    ensures DownloadInv(s.vm.downloads[id], s.streams[id]) && !s.streams[id].ended
    ensures s.vm.downloads[id].seqNo == |s.streams[id].pieces|
  {
  }

  lemma ReadsDownloads(w: World, s: System, id: Id)
    requires DownloadsInv(w, s) && id in s.vm.downloads
    ensures DownloadsInv(w, ReadOn(w, s, id))
  {
    hide DownloadsInv, DownloadInv, StreamInv, Cut, PieceFrames, Pieces;
    OwnDownload(w, s, id);
    var s', d, t := ReadOn(w, s, id), s.vm.downloads[id], s.streams[id];
    var t' := s'.streams[id];
    assert StreamsGrow(s.streams, s'.streams);
    hide StreamsGrow;
    if d.rest == [] { SendsEnd(w, d, t, s.wanted, s'.streams, id); } else { SendsPieces(w, d, t, s.wanted, s'.streams, id); }
    StreamKeeps(w, s, s', id, t', Sends(d, id, w.hash));
  }

  lemma ReadsKeeps(w: World, s: System, id: Id)
    requires Inv(w, s)
    ensures Inv(w, ReadOn(w, s, id))
  {
    hide WireInv, UploadsInv, DownloadsInv, Cut;
    if id in s.vm.downloads {
      ReadsDownloads(w, s, id);
      OwnDownload(w, s, id);
      ReadingKeeps(w, s, ReadOn(w, s, id), id, Sends(s.vm.downloads[id], id, w.hash));
    }
  }

  lemma StreamFailsKeeps(w: World, s: System, step: Step)
    requires Inv(w, s) && step.StreamFails? && Allowed(w, s, step)
    ensures Inv(w, Next(w, s, step))
  {
    var s', id := Next(w, s, step), step.id;
    hide WireInv, UploadsInv, DownloadsInv;
    if id in s.vm.downloads {
      OwnDownload(w, s, id);
      ErrorKeeps(w, s, s', id, "failed");
      hide Inv;
      ReadingKeeps(w, s, s', id, [FileError(id, "failed")]);
    }
  }

  // ---------------------------------------------------------------- Every step and every run

  lemma ConnectionKeeps(w: World, s: System, step: Step)
    requires Inv(w, s) && (step.Connect? || step.Disconnect?)
    ensures Inv(w, Next(w, s, step))
  {
    assert Valid(Next(w, s, step).g);
    hide UploadInv, CommitsInv, ReportInv, PromiseInv, DownloadInv, PieceInv, ReaderInv, ReceivedInv, FrameInv;
  }

  lemma StepKeeps(w: World, s: System, step: Step)
    requires Inv(w, s) && Allowed(w, s, step)
    ensures Inv(w, Next(w, s, step))
  {
    hide Inv;
    match step
    case Connect(_, _) => ConnectionKeeps(w, s, step);
    case Disconnect(_) => ConnectionKeeps(w, s, step);
    case AskWrite(_, _, _, _) =>
      AskWriteWire(w, s, step);
      AskWriteUploads(w, s, step);
      AskKeepsDownloads(w, s, step);
      InvOf(w, Next(w, s, step));
    case AskRead(_, _, _) =>
      AskReadWire(w, s, step);
      AskReadUploads(w, s, step);
      AskKeepsDownloads(w, s, step);
      InvOf(w, Next(w, s, step));
    case Deliver(_, _) => DeliverKeeps(w, s, step);
    case Timeout(id) => FailKeepsInv(w, s, id, TimedOut);
    case SocketCloses(socket) => CloseKeepsInv(w, s, socket);
    case VmOpensWrite(_, _, _, _) => OpensWriteKeeps(w, s, step);
    case VmOpensRead(_, _, _) => OpensReadKeeps(w, s, step.id, step.path, step.chunks);
    case VmTakes(_) => TakesKeeps(w, s, step);
    case VmWrites(_) => WritesKeeps(w, s, step.id);
    case DiskFails(_) => DiskFailsKeeps(w, s, step);
    case VmReads(_) => ReadsKeeps(w, s, step.id);
    case StreamFails(_) => StreamFailsKeeps(w, s, step);
  }

  lemma InvOf(w: World, s: System)
    requires WireInv(w, s) && UploadsInv(w, s) && DownloadsInv(w, s)
    ensures Inv(w, s)
  {
  }

  lemma {:induction false} RunKeeps(w: World, s: System, steps: seq<Step>)
    requires Inv(w, s) && Legal(w, s, steps)
    ensures Inv(w, After(w, s, steps))
    decreases |steps|
  {
    if steps == [] {
    } else {
      StepKeeps(w, s, steps[0]);
      hide Inv, Next, Allowed;
      RunKeeps(w, Next(w, s, steps[0]), steps[1..]);
    }
  }
}
