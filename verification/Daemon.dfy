/**
 * File transfers, the VM's half: uploads fed through their queues to an atomic
 * writer, and downloads streamed back in numbered chunks.
 */
module Daemon {
  import opened Wrappers
  import opened Bytes
  import opened FileOps
  import opened Transfers
  import Q = PushQueue

  /** A writer first looks at what it was promised and where it may write; then it fills its temp file. */
  datatype Phase = Opening | Writing(target: string)

  datatype Upload = Upload(queue: Q.Queue<Bytes>, seqNo: nat, path: string, size: nat, sha256: string, phase: Phase)

  /** A file being streamed: the chunks its stream has yet to yield, and what was hashed and sent. */
  datatype Download = Download(rest: seq<Bytes>, seqNo: nat, hashed: Bytes)

  /** A file renamed into place. */
  datatype Commit = Commit(id: Id, target: string, content: Bytes)

  datatype Vm = Vm(
    uploads: map<Id, Upload>,
    downloads: map<Id, Download>,
    files: map<string, Bytes>,
    temps: map<Id, Bytes>,
    commits: seq<Commit>,
    sent: seq<VmFrame>)

  // ---------------------------------------------------------------- Frames from the gateway

  function StartUpload(vm: Vm, id: Id, path: string, size: nat, sha256: string): Vm {
    vm.(uploads := vm.uploads[id := Upload(Q.New(), 0, path, size, sha256, Opening)])
  }

  function FeedUpload(vm: Vm, id: Id, seqNo: nat, data: Bytes): Vm {
    if id !in vm.uploads then vm
    else
      var u := vm.uploads[id];
      if seqNo != u.seqNo then
        vm.(uploads := vm.uploads[id := u.(queue := Q.Fail(u.queue, "failed"))])
      else
        vm.(uploads := vm.uploads[id := u.(seqNo := seqNo + 1, queue := Q.Push(u.queue, data))])
  }

  function EndUpload(vm: Vm, id: Id): Vm {
    if id !in vm.uploads then vm
    else vm.(uploads := vm.uploads[id := vm.uploads[id].(queue := Q.Close(vm.uploads[id].queue))])
  }

  /** What an upload frame does. */
  function TakeFrame(vm: Vm, frame: GatewayFrame): Vm {
    match frame
    case FileRead(_, _) => vm
    case FileWrite(id, path, size, sha256) => StartUpload(vm, id, path, size, sha256)
    case FileChunk(id, seqNo, data) => FeedUpload(vm, id, seqNo, data)
    case FileEnd(id) => EndUpload(vm, id)
  }

  function TakeFrames(vm: Vm, frames: seq<GatewayFrame>): Vm
    decreases |frames|
  {
    if frames == [] then vm else TakeFrames(TakeFrame(vm, frames[0]), frames[1..])
  }

  /** A read starts streaming the file as it is now, in whatever chunks the stream yields, or is refused. */
  function StartDownload(vm: Vm, id: Id, path: string, chunks: seq<Bytes>, locate: Locate): Vm {
    match locate(path)
    case Refused(code) => vm.(sent := vm.sent + [FileError(id, code)])
    case Target(target) =>
      if target !in vm.files then vm.(sent := vm.sent + [FileError(id, "not_found")])
      else if |vm.files[target]| > MAX_FILE_BYTES then vm.(sent := vm.sent + [FileError(id, "too_large")])
      else vm.(downloads := vm.downloads[id := Download(chunks, 0, [])])
  }

  // ---------------------------------------------------------------- Turns of the writer and the reader

  /** The write ends: its temp file is gone (renamed or removed), the gateway is told, the upload forgotten. */
  function Settle(vm: Vm, id: Id, frame: VmFrame): Vm {
    vm.(uploads := vm.uploads - {id}, temps := vm.temps - {id}, sent := vm.sent + [frame])
  }

  function OpenUpload(vm: Vm, id: Id, locate: Locate): Vm
    requires id in vm.uploads
  {
    var u := vm.uploads[id];
    if u.size > MAX_FILE_BYTES then Settle(vm, id, FileError(id, "too_large"))
    else
      match locate(u.path)
      case Refused(code) => Settle(vm, id, FileError(id, code))
      case Target(target) =>
        vm.(uploads := vm.uploads[id := u.(phase := Writing(target))], temps := vm.temps[id := []])
  }

  /** One turn of the loop over the queue. A sleeping writer takes none. */
  function WriterTurn(vm: Vm, id: Id, hash: Hash, locate: Locate): Vm {
    if id !in vm.uploads then vm
    else if vm.uploads[id].phase.Opening? then OpenUpload(vm, id, locate)
    else if id !in vm.temps || vm.uploads[id].queue.sleeping then vm
    else
      var u, temp := vm.uploads[id], vm.temps[id];
      var (queue, pulled) := Q.Pull(u.queue);
      match pulled
      case Asleep => vm.(uploads := vm.uploads[id := u.(queue := queue)])
      case Thrown(error) => Settle(vm, id, FileError(id, error))
      case Item(chunk) =>
        if FileOps.TakeChunk(u.size, temp, chunk).None? then Settle(vm, id, FileError(id, "mismatch"))
        else vm.(uploads := vm.uploads[id := u.(queue := queue)], temps := vm.temps[id := temp + chunk])
      case Finished =>
        if Matches(u.size, u.sha256, temp, hash) then
          Settle(vm.(files := vm.files[u.phase.target := temp],
                     commits := vm.commits + [Commit(id, u.phase.target, temp)]),
                 id, FileDone(id, u.size, u.sha256))
        else Settle(vm, id, FileError(id, "mismatch"))
  }

  /** The disk fails under a writer. */
  function WriterBreaks(vm: Vm, id: Id): Vm {
    if id in vm.uploads && vm.uploads[id].phase.Writing? then Settle(vm, id, FileError(id, "failed")) else vm
  }

  function PieceFrames(id: Id, seqNo: nat, pieces: seq<Bytes>): seq<VmFrame> {
    seq(|pieces|, k requires 0 <= k < |pieces| => VmChunk(id, seqNo + k, pieces[k]))
  }

  /** The reader takes the next chunk of its stream, or finds the end. */
  function ReaderTurn(vm: Vm, id: Id, hash: Hash): Vm {
    if id !in vm.downloads then vm
    else
      var d := vm.downloads[id];
      if d.rest == [] then
        vm.(downloads := vm.downloads - {id}, sent := vm.sent + [FileDone(id, |d.hashed|, hash(d.hashed))])
      else
        var pieces := Cut(d.rest[0]);
        vm.(downloads := vm.downloads[id := Download(d.rest[1..], d.seqNo + |pieces|, d.hashed + d.rest[0])],
            sent := vm.sent + PieceFrames(id, d.seqNo, pieces))
  }

  /** The stream fails. */
  function ReaderBreaks(vm: Vm, id: Id): Vm {
    if id in vm.downloads then vm.(downloads := vm.downloads - {id}, sent := vm.sent + [FileError(id, "failed")]) else vm
  }

  // ---------------------------------------------------------------- What frames and turns keep

  /** Only a writer with nothing to wake up for sleeps, and it has a temp file to write to; temp files belong to uploads. */
  ghost predicate VmValid(vm: Vm) {
    && vm.temps.Keys <= vm.uploads.Keys
    && forall id :: id in vm.uploads ==> WriterOk(vm.uploads[id])
  }

  ghost predicate WriterOk(u: Upload) {
    Q.Valid(u.queue) && (u.queue.sleeping ==> u.phase.Writing?)
  }

  lemma FrameKeeps(vm: Vm, frame: GatewayFrame)
    requires VmValid(vm)
    ensures VmValid(TakeFrame(vm, frame))
  {
  }

  lemma TurnKeeps(vm: Vm, id: Id, hash: Hash, locate: Locate)
    requires VmValid(vm)
    ensures VmValid(WriterTurn(vm, id, hash, locate))
  {
  }

  /** No frame opens the upload at id again, and its chunks are the pieces of their numbers. */
  ghost predicate Carry(frames: seq<GatewayFrame>, id: Id, pieces: seq<Bytes>) {
    forall k :: 0 <= k < |frames| ==> CarriesAt(frames, k, id, pieces)
  }

  ghost predicate CarriesAt(frames: seq<GatewayFrame>, k: nat, id: Id, pieces: seq<Bytes>)
    requires k < |frames|
  {
    match frames[k]
    case FileWrite(i, _, _, _) => i != id
    case FileChunk(i, seqNo, data) => i == id ==> seqNo < |pieces| && data == pieces[seqNo]
    case _ => true
  }

  /**
   * Whatever frames of an upload arrive, lost, repeated or out of order, what its queue
   * was pushed is the first pieces of the bytes, in order, and as many as were counted.
   */
  lemma {:induction false} QueuedInOrder(vm: Vm, frames: seq<GatewayFrame>, id: Id, pieces: seq<Bytes>)
    requires id in vm.uploads && Carry(frames, id, pieces)
    requires var u := vm.uploads[id]; u.seqNo <= |pieces| && u.queue.items == pieces[..u.seqNo]
    ensures var after := TakeFrames(vm, frames);
            && id in after.uploads
            && var u := after.uploads[id];
            && vm.uploads[id].seqNo <= u.seqNo <= |pieces| && u.queue.items == pieces[..u.seqNo]
    decreases |frames|
  {
    if frames == [] {
    } else {
      assert CarriesAt(frames, 0, id, pieces);
      forall k | 0 <= k < |frames[1..]| ensures CarriesAt(frames[1..], k, id, pieces) {
        assert CarriesAt(frames, k + 1, id, pieces);
      }
      var u := vm.uploads[id];
      assert u.seqNo < |pieces| ==> pieces[..u.seqNo + 1] == pieces[..u.seqNo] + [pieces[u.seqNo]];
      QueuedInOrder(TakeFrame(vm, frames[0]), frames[1..], id, pieces);
    }
  }

  // ---------------------------------------------------------------- A writer left alone

  function Turns(vm: Vm, id: Id, hash: Hash, locate: Locate, n: nat): Vm
    decreases n
  {
    if n == 0 then vm else Turns(WriterTurn(vm, id, hash, locate), id, hash, locate, n - 1)
  }

  /**
   * Turn by turn, the writer is writeAtomically: with the whole source queued and
   * closed, it renames the bytes into place exactly when they match the promise.
   */
  lemma {:induction false} TurnsWriteAtomically(vm: Vm, id: Id, hash: Hash, locate: Locate)
    requires id in vm.uploads && id in vm.temps && vm.uploads[id].phase.Writing?
    requires var q := vm.uploads[id].queue; q.closed && q.failure.None? && !q.sleeping
    ensures var u, bytes := vm.uploads[id], vm.temps[id] + Flatten(vm.uploads[id].queue.items);
            var after := Turns(vm, id, hash, locate, |u.queue.items| + 1);
            id !in after.uploads && id !in after.temps
            && (if |bytes| == u.size && hash(bytes) == u.sha256 then
                  && after.files == vm.files[u.phase.target := bytes]
                  && after.commits == vm.commits + [Commit(id, u.phase.target, bytes)]
                  && after.sent == vm.sent + [FileDone(id, u.size, u.sha256)]
                else
                  after.files == vm.files && after.commits == vm.commits && after.sent == vm.sent + [FileError(id, "mismatch")])
    decreases |vm.uploads[id].queue.items|
  {
    var u, items, temp := vm.uploads[id], vm.uploads[id].queue.items, vm.temps[id];
    var vm' := WriterTurn(vm, id, hash, locate);
    if items == [] {
      assert temp + Flatten(items) == temp;
      assert Turns(vm, id, hash, locate, 1) == vm';
    } else {
      FlattenHead(items);
      assert temp + Flatten(items) == (temp + items[0]) + Flatten(items[1..]);
      if |temp| + |items[0]| > u.size {
        GoneStaysGone(vm', id, hash, locate, |items|);
      } else {
        TurnsWriteAtomically(vm', id, hash, locate);
      }
    }
  }

  lemma {:induction false} GoneStaysGone(vm: Vm, id: Id, hash: Hash, locate: Locate, n: nat)
    requires id !in vm.uploads
    ensures Turns(vm, id, hash, locate, n) == vm
    decreases n
  {
    if n > 0 { GoneStaysGone(vm, id, hash, locate, n - 1); }
  }

  // ---------------------------------------------------------------- The daemon

  class FileDaemon {
    var uploads: map<Id, Upload>
    var downloads: map<Id, Download>
    var files: map<string, Bytes>
    var temps: map<Id, Bytes>
    ghost var commits: seq<Commit>
    var sent: seq<VmFrame>
    const hash: Hash
    const locate: Locate

    ghost function Contents(): Vm
      reads this
    {
      Vm(uploads, downloads, files, temps, commits, sent)
    }

    constructor (files: map<string, Bytes>, hash: Hash, locate: Locate)
      ensures Contents() == Vm(map[], map[], files, map[], [], [])
      ensures this.hash == hash && this.locate == locate
    {
      uploads, downloads, this.files, temps, commits, sent := map[], map[], files, map[], [], [];
      this.hash, this.locate := hash, locate;
    }

    /** The upload frames of the message handler. */
    method HandleUpload(frame: GatewayFrame)
      requires !frame.FileRead? && VmValid(Contents())
      modifies this`uploads
      ensures Contents() == TakeFrame(old(Contents()), frame) && VmValid(Contents())
    {
      FrameKeeps(Contents(), frame);
      match frame
      case FileWrite(id, path, size, sha256) =>
        uploads := uploads[id := Upload(Q.New(), 0, path, size, sha256, Opening)];
      case FileChunk(id, seqNo, data) =>
        if id !in uploads {
          return;
        }
        var upload := uploads[id];
        if seqNo != upload.seqNo {
          uploads := uploads[id := upload.(queue := Q.Fail(upload.queue, "failed"))];
          return;
        }
        uploads := uploads[id := upload.(seqNo := upload.seqNo + 1, queue := Q.Push(upload.queue, data))];
      case FileEnd(id) =>
        if id in uploads {
          uploads := uploads[id := uploads[id].(queue := Q.Close(uploads[id].queue))];
        }
    }

    /** The pieces of every chunk a file's stream yields, numbered without gap; at the end what they add up to. */
    method SendFile(id: Id, stream: seq<Bytes>)
      modifies this`sent
      ensures sent == old(sent) + FramesOf(id, 0, stream) + [FileDone(id, |Flatten(stream)|, hash(Flatten(stream)))]
    {
      var hashed: Bytes, seqNo: nat := [], 0;
      for k := 0 to |stream|
        invariant hashed == Flatten(stream[..k])
        invariant sent + FramesOf(id, seqNo, stream[k..]) == old(sent) + FramesOf(id, 0, stream)
      {
        var chunk := stream[k];
        assert stream[k..][0] == chunk && stream[k..][1..] == stream[k + 1..];
        FlattenOne(stream[..k], chunk);
        assert stream[..k + 1] == stream[..k] + [chunk];
        SendPieces(id, seqNo, chunk);
        seqNo := seqNo + |Cut(chunk)|;
        hashed := hashed + chunk;
      }
      assert stream[..|stream|] == stream;
      sent := sent + [FileDone(id, |hashed|, hash(hashed))];
    }

    /** The inner loop: one chunk of the stream, in pieces that fit a frame. */
    method SendPieces(id: Id, first: nat, chunk: Bytes)
      modifies this`sent
      ensures sent == old(sent) + PieceFrames(id, first, Cut(chunk))
    {
      ghost var pieces := Cut(chunk);
      assert Cut([]) == [] && chunk[0..] == chunk && pieces[0..] == pieces;
      assert PieceFrames(id, first, pieces[..0]) == [];
      hide Cut, PieceFrames, Rest;
      var k, at := 0, 0;
      while at < |chunk|
        invariant 0 <= at && 0 <= k <= |pieces|
        invariant Cut(Rest(chunk, at)) == pieces[k..]
        invariant sent == old(sent) + PieceFrames(id, first, pieces[..k])
        decreases |chunk| - at
      {
        var piece := chunk[at..if at + FILE_CHUNK_BYTES < |chunk| then at + FILE_CHUNK_BYTES else |chunk|];
        NextPiece(chunk, at, pieces, k, piece);
        OneFrameMore(id, first, pieces, k);
        sent := sent + [VmChunk(id, first + k, piece)];
        k := k + 1;
        at := at + FILE_CHUNK_BYTES;
      }
      assert pieces[..k] == pieces;
    }
  }

  lemma OneFrameMore(id: Id, first: nat, pieces: seq<Bytes>, k: nat)
    requires k < |pieces|
    ensures PieceFrames(id, first, pieces[..k + 1]) == PieceFrames(id, first, pieces[..k]) + [VmChunk(id, first + k, pieces[k])]
  {
  }

  /** The chunk frames of a stream, numbered from seqNo on. */
  function FramesOf(id: Id, seqNo: nat, stream: seq<Bytes>): seq<VmFrame>
    decreases |stream|
  {
    if stream == [] then []
    else PieceFrames(id, seqNo, Cut(stream[0])) + FramesOf(id, seqNo + |Cut(stream[0])|, stream[1..])
  }
}
