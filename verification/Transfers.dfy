/**
 * File transfers, the gateway's half: reads and writes in flight by id, what each
 * caller is told, and the frames sent to the VMs.
 */
module Transfers {
  import opened Wrappers
  import opened Bytes
  import opened Texts

  type Id = nat
  type VmId = nat
  type Socket = nat

  datatype GatewayFrame =
    | FileRead(id: Id, path: string)
    | FileWrite(id: Id, path: string, size: nat, sha256: string)
    | FileChunk(transferId: Id, seqNo: nat, data: Bytes)
    | FileEnd(transferId: Id)

  datatype VmFrame =
    | VmChunk(transferId: Id, seqNo: nat, data: Bytes)
    | FileDone(transferId: Id, size: nat, sha256: string)
    | FileError(transferId: Id, code: string)

  datatype Why = Unavailable | TimedOut | OutOfOrder | Mismatch | Remote(code: string)

  /** A transfer in flight. `hashed` is what a read's running hash has been fed. */
  datatype Transfer =
    | Read(vmId: VmId, socket: Socket, seqNo: nat, begun: bool, hashed: Bytes)
    | Write(vmId: VmId, socket: Socket)

  /** A read stream: what was enqueued, and whether it is still open. */
  datatype Stream = Open(bytes: Bytes) | Errored(bytes: Bytes, why: Why) | Closed(bytes: Bytes)

  /** What the caller of a transfer can see. */
  datatype Promise =
    | WritePending
    | WriteResolved(size: nat, sha256: string)
    | WriteRejected(why: Why)
    | ReadPending
    | ReadRejected(why: Why)
    | ReadStarted(stream: Stream)

  predicate Settled(p: Promise) {
    match p
    case WritePending => false
    case ReadPending => false
    case ReadStarted(stream) => !stream.Open?
    case _ => true
  }

  datatype Gateway = Gateway(
    transfers: map<Id, Transfer>,
    promises: map<Id, Promise>,
    sockets: map<VmId, Socket>,
    wire: seq<(VmId, GatewayFrame)>)

  // ---------------------------------------------------------------- What a write sends

  function ChunkFrames(id: Id, pieces: seq<Bytes>): seq<GatewayFrame> {
    seq(|pieces|, k requires 0 <= k < |pieces| => FileChunk(id, k, pieces[k]))
  }

  function WriteFrames(id: Id, path: string, bytes: Bytes, hash: Hash): seq<GatewayFrame> {
    [FileWrite(id, path, |bytes|, hash(bytes))] + ChunkFrames(id, Cut(bytes)) + [FileEnd(id)]
  }

  function To(vmId: VmId, frames: seq<GatewayFrame>): seq<(VmId, GatewayFrame)> {
    seq(|frames|, k requires 0 <= k < |frames| => (vmId, frames[k]))
  }

  // ---------------------------------------------------------------- Operations on the whole state

  function Failed(p: Promise, begun: bool, why: Why): Promise {
    match p
    case WritePending => WriteRejected(why)
    case ReadPending => ReadRejected(why)
    case ReadStarted(stream) => if begun then ReadStarted(Errored(stream.bytes, why)) else p
    case _ => p
  }

  function Fail(g: Gateway, id: Id, why: Why): Gateway {
    if id in g.transfers && id in g.promises then
      var t := g.transfers[id];
      g.(transfers := g.transfers - {id},
         promises := g.promises[id := Failed(g.promises[id], t.Read? && t.begun, why)])
    else g
  }

  function StartRead(g: Gateway, id: Id, vmId: VmId, path: string): Gateway {
    if vmId !in g.sockets then g.(promises := g.promises[id := ReadRejected(Unavailable)])
    else
      g.(wire := g.wire + To(vmId, [FileRead(id, path)]),
         transfers := g.transfers[id := Read(vmId, g.sockets[vmId], 0, false, [])],
         promises := g.promises[id := ReadPending])
  }

  function StartWrite(g: Gateway, id: Id, vmId: VmId, path: string, bytes: Bytes, hash: Hash): Gateway {
    if vmId !in g.sockets then g.(promises := g.promises[id := WriteRejected(Unavailable)])
    else
      g.(wire := g.wire + To(vmId, WriteFrames(id, path, bytes, hash)),
         transfers := g.transfers[id := Write(vmId, g.sockets[vmId])],
         promises := g.promises[id := WritePending])
  }

  function StreamOf(p: Promise): Bytes {
    if p.ReadStarted? then p.stream.bytes else []
  }

  function TakeChunk(g: Gateway, id: Id, t: Transfer, data: Bytes): Gateway
    requires t.Read? && id in g.promises
  {
    g.(transfers := g.transfers[id := t.(seqNo := t.seqNo + 1, hashed := t.hashed + data, begun := true)],
       promises := g.promises[id := ReadStarted(Open(StreamOf(g.promises[id]) + data))])
  }

  function EndRead(g: Gateway, id: Id, t: Transfer, sha256: string, hash: Hash): Gateway
    requires t.Read? && id in g.promises
  {
    var g' := g.(transfers := g.transfers - {id});
    if hash(t.hashed) != sha256 then
      g'.(promises := g.promises[id := if t.begun then ReadStarted(Errored(StreamOf(g.promises[id]), Mismatch))
                                       else ReadRejected(Mismatch)])
    else g'.(promises := g.promises[id := ReadStarted(Closed(StreamOf(g.promises[id])))])
  }

  /** A frame from a VM. */
  function Receive(g: Gateway, vmId: VmId, frame: VmFrame, hash: Hash): Gateway {
    var id := frame.transferId;
    if id !in g.transfers || id !in g.promises || g.transfers[id].vmId != vmId then g
    else
      var t := g.transfers[id];
      match frame
      case FileError(_, code) => Fail(g, id, Remote(code))
      case FileDone(_, size, sha256) =>
        if t.Write? then
          g.(transfers := g.transfers - {id}, promises := g.promises[id := WriteResolved(size, sha256)])
        else EndRead(g, id, t, sha256, hash)
      case VmChunk(_, seqNo, data) =>
        if t.Write? then g
        else if seqNo != t.seqNo then Fail(g, id, OutOfOrder)
        else TakeChunk(g, id, t, data)
  }

  /** A socket closed: every transfer on it fails. */
  function CloseSocket(g: Gateway, socket: Socket): Gateway {
    g.(transfers := map id | id in g.transfers && g.transfers[id].socket != socket :: g.transfers[id],
       promises := map id | id in g.promises ::
         if id in g.transfers && g.transfers[id].socket == socket then
           Failed(g.promises[id], g.transfers[id].Read? && g.transfers[id].begun, Unavailable)
         else g.promises[id])
  }

  // ---------------------------------------------------------------- What every operation keeps

  /** A transfer is in flight exactly while its caller waits, and the caller sees what it has received. */
  ghost predicate InStep(t: Transfer, p: Promise) {
    match t
    case Write(_, _) => p == WritePending
    case Read(_, _, seqNo, begun, hashed) =>
      if begun then p == ReadStarted(Open(hashed)) else p == ReadPending && hashed == [] && seqNo == 0
  }

  ghost predicate Valid(g: Gateway) {
    && (forall id :: id in g.transfers ==> id in g.promises && InStep(g.transfers[id], g.promises[id]))
    && (forall id :: id in g.promises ==> (id in g.transfers <==> !Settled(g.promises[id])))
  }

  /** What is settled stays as it is, and no caller is forgotten. */
  ghost predicate Keeps(g: Gateway, g': Gateway) {
    forall id :: id in g.promises ==> id in g'.promises && (Settled(g.promises[id]) ==> g'.promises[id] == g.promises[id])
  }

  lemma FailKeeps(g: Gateway, id: Id, why: Why)
    requires Valid(g)
    ensures Valid(Fail(g, id, why)) && Keeps(g, Fail(g, id, why))
    ensures id in g.promises ==> Settled(Fail(g, id, why).promises[id])
  {
  }

  lemma StartReadKeeps(g: Gateway, id: Id, vmId: VmId, path: string)
    requires Valid(g) && id !in g.promises
    ensures Valid(StartRead(g, id, vmId, path)) && Keeps(g, StartRead(g, id, vmId, path))
  {
    hide To;
  }

  lemma StartWriteKeeps(g: Gateway, id: Id, vmId: VmId, path: string, bytes: Bytes, hash: Hash)
    requires Valid(g) && id !in g.promises
    ensures Valid(StartWrite(g, id, vmId, path, bytes, hash)) && Keeps(g, StartWrite(g, id, vmId, path, bytes, hash))
  {
    hide WriteFrames, To;
  }

  lemma EndReadKeeps(g: Gateway, id: Id, sha256: string, hash: Hash)
    requires Valid(g) && id in g.transfers && g.transfers[id].Read?
    ensures var g' := EndRead(g, id, g.transfers[id], sha256, hash); Valid(g') && Keeps(g, g')
  {
  }

  lemma TakeChunkKeeps(g: Gateway, id: Id, data: Bytes)
    requires Valid(g) && id in g.transfers && g.transfers[id].Read?
    ensures var g' := TakeChunk(g, id, g.transfers[id], data); Valid(g') && Keeps(g, g')
  {
  }

  /** Every transfer ends once: rejected, errored, or resolved and closed. */
  lemma ReceiveKeeps(g: Gateway, vmId: VmId, frame: VmFrame, hash: Hash)
    requires Valid(g)
    ensures Valid(Receive(g, vmId, frame, hash)) && Keeps(g, Receive(g, vmId, frame, hash))
  {
    var id := frame.transferId;
    FailKeeps(g, id, OutOfOrder);
    if frame.FileError? { FailKeeps(g, id, Remote(frame.code)); }
    if id in g.transfers && g.transfers[id].Read? {
      if frame.FileDone? { EndReadKeeps(g, id, frame.sha256, hash); }
      if frame.VmChunk? { TakeChunkKeeps(g, id, frame.data); }
    }
    hide EndRead, TakeChunk, Fail;
  }

  lemma CloseSocketKeeps(g: Gateway, socket: Socket)
    requires Valid(g)
    ensures Valid(CloseSocket(g, socket)) && Keeps(g, CloseSocket(g, socket))
    ensures forall id :: id in CloseSocket(g, socket).transfers ==> g.transfers[id].socket != socket
  {
  }

  /** Closing a socket, with the transfers in `rest` still to be looked at. */
  ghost predicate Closing(g: Gateway, g': Gateway, socket: Socket, rest: set<Id>) {
    var closed := CloseSocket(g, socket);
    && rest <= g.transfers.Keys
    && g'.sockets == g.sockets && g'.wire == g.wire && g'.promises.Keys == g.promises.Keys
    && (forall id :: id in g'.transfers <==> id in g.transfers && (id in rest || g.transfers[id].socket != socket))
    && (forall id :: id in g'.transfers ==> g'.transfers[id] == g.transfers[id])
    && (forall id :: id in g'.promises ==>
          g'.promises[id] == if id in rest then g.promises[id] else closed.promises[id])
  }

  lemma ClosingEnds(g: Gateway, socket: Socket)
    requires Valid(g)
    ensures Closing(g, g, socket, g.transfers.Keys)
    ensures forall g' :: Closing(g, g', socket, {}) ==> g' == CloseSocket(g, socket)
  {
    forall g' | Closing(g, g', socket, {}) ensures g' == CloseSocket(g, socket) {
      assert g'.transfers == CloseSocket(g, socket).transfers;
      assert g'.promises == CloseSocket(g, socket).promises;
    }
  }

  lemma ClosingStep(g: Gateway, g': Gateway, socket: Socket, rest: set<Id>, id: Id)
    requires Valid(g) && Closing(g, g', socket, rest) && id in rest
    ensures id in g'.transfers
    ensures Closing(g, if g'.transfers[id].socket == socket then Fail(g', id, Unavailable) else g', socket, rest - {id})
  {
    assert id in g.transfers && id in g.promises;
  }

  // ---------------------------------------------------------------- The gateway

  /** What the caller of a transfer in flight is told when it fails: an open stream breaks off where it is. */
  ghost function ToldOf(t: Transfer, why: Why): Promise {
    match t
    case Write(_, _) => WriteRejected(why)
    case Read(_, _, _, begun, hashed) => if begun then ReadStarted(Errored(hashed, why)) else ReadRejected(why)
  }

  class FileTransfers {
    var transfers: map<Id, Transfer>
    var promises: map<Id, Promise>
    var sockets: map<VmId, Socket>
    var wire: seq<(VmId, GatewayFrame)>
    const hash: Hash

    ghost function Contents(): Gateway
      reads this
    {
      Gateway(transfers, promises, sockets, wire)
    }

    constructor (hash: Hash)
      ensures Contents() == Gateway(map[], map[], map[], []) && this.hash == hash
    {
      transfers, promises, sockets, wire := map[], map[], map[], [];
      this.hash := hash;
    }

    /** Sends a frame if the VM is connected. */
    method Send(vmId: VmId, frame: GatewayFrame) returns (socket: Option<Socket>)
      modifies this`wire
      ensures socket == if vmId in sockets then Some(sockets[vmId]) else None
      ensures wire == if socket.Some? then old(wire) + To(vmId, [frame]) else old(wire)
    {
      if vmId in sockets {
        wire := wire + [(vmId, frame)];
        return Some(sockets[vmId]);
      }
      return None;
    }

    method FailTransfer(id: Id, why: Why)
      requires Valid(Contents())
      modifies this`transfers, this`promises
      ensures Contents() == Fail(old(Contents()), id, why) && Valid(Contents())
      ensures id !in old(transfers) ==> Contents() == old(Contents())
      ensures id in old(transfers) ==>
                && transfers == old(transfers) - {id}
                && promises == old(promises)[id := ToldOf(old(transfers)[id], why)]
    {
      FailKeeps(Contents(), id, why);
      if id !in transfers {
        return;
      }
      var t := transfers[id];
      transfers := transfers - {id};
      if t.Write? {
        promises := promises[id := WriteRejected(why)];
      } else if t.begun {
        promises := promises[id := ReadStarted(Errored(promises[id].stream.bytes, why))];
      } else {
        promises := promises[id := ReadRejected(why)];
      }
    }

    method ReadFile(id: Id, vmId: VmId, path: string)
      requires Valid(Contents()) && id !in promises
      modifies this
      ensures Contents() == StartRead(old(Contents()), id, vmId, path) && Valid(Contents())
      ensures sockets == old(sockets)
      ensures vmId !in sockets ==>
                wire == old(wire) && transfers == old(transfers) && promises == old(promises)[id := ReadRejected(Unavailable)]
      ensures vmId in sockets ==>
                && wire == old(wire) + [(vmId, FileRead(id, path))]
                && transfers == old(transfers)[id := Read(vmId, sockets[vmId], 0, false, [])]
                && promises == old(promises)[id := ReadPending]
    {
      StartReadKeeps(Contents(), id, vmId, path);
      var socket := Send(vmId, FileRead(id, path));
      if socket.None? {
        promises := promises[id := ReadRejected(Unavailable)];
        return;
      }
      transfers := transfers[id := Read(vmId, socket.value, 0, false, [])];
      promises := promises[id := ReadPending];
    }

    /** Sends the size and hash, then the bytes in numbered chunks, then the end. */
    method WriteFile(id: Id, vmId: VmId, path: string, bytes: Bytes)
      requires Valid(Contents()) && id !in promises
      modifies this
      ensures Contents() == StartWrite(old(Contents()), id, vmId, path, bytes, hash) && Valid(Contents())
      ensures sockets == old(sockets)
      ensures vmId !in sockets ==>
                wire == old(wire) && transfers == old(transfers) && promises == old(promises)[id := WriteRejected(Unavailable)]
      ensures vmId in sockets ==>
                && transfers == old(transfers)[id := Write(vmId, sockets[vmId])] && promises == old(promises)[id := WritePending]
                && wire == old(wire) + [(vmId, FileWrite(id, path, |bytes|, hash(bytes)))]
                           + seq(|Cut(bytes)|, k requires 0 <= k < |Cut(bytes)| => (vmId, FileChunk(id, k, Cut(bytes)[k])))
                           + [(vmId, FileEnd(id))]
    {
      StartWriteKeeps(Contents(), id, vmId, path, bytes, hash);
      hide Cut, Valid, InStep;
      var socket := Send(vmId, FileWrite(id, path, |bytes|, hash(bytes)));
      if socket.None? {
        promises := promises[id := WriteRejected(Unavailable)];
        return;
      }
      transfers := transfers[id := Write(vmId, socket.value)];
      promises := promises[id := WritePending];
      SendChunks(id, vmId, bytes);
      var _ := Send(vmId, FileEnd(id));
      assert wire == old(wire) + To(vmId, WriteFrames(id, path, bytes, hash));
      SentInOrder(old(wire), vmId, id, path, bytes, hash);
    }

    /** The loop of a write. */
    method SendChunks(id: Id, vmId: VmId, bytes: Bytes)
      requires vmId in sockets
      modifies this`wire
      ensures wire == old(wire) + To(vmId, ChunkFrames(id, Cut(bytes)))
    {
      ghost var pieces := Cut(bytes);
      assert Cut([]) == [] && bytes[0..] == bytes && pieces[0..] == pieces;
      assert To(vmId, ChunkFrames(id, pieces[..0])) == [] && wire + [] == wire;
      hide Cut, ChunkFrames, To, Rest;
      var seqNo, at := 0, 0;
      while at < |bytes|
        invariant 0 <= at && 0 <= seqNo <= |pieces|
        invariant Cut(Rest(bytes, at)) == pieces[seqNo..]
        invariant wire == old(wire) + To(vmId, ChunkFrames(id, pieces[..seqNo]))
        decreases |bytes| - at
      {
        var data := bytes[at..if at + FILE_CHUNK_BYTES < |bytes| then at + FILE_CHUNK_BYTES else |bytes|];
        NextPiece(bytes, at, pieces, seqNo, data);
        OneChunkMore(vmId, id, pieces, seqNo);
        Regroup(old(wire), To(vmId, ChunkFrames(id, pieces[..seqNo])), To(vmId, [FileChunk(id, seqNo, data)]));
        var _ := Send(vmId, FileChunk(id, seqNo, data));
        seqNo := seqNo + 1;
        at := at + FILE_CHUNK_BYTES;
      }
      assert pieces[..seqNo] == pieces;
    }

    /** Feeds a frame from a VM. */
    method HandleFrame(vmId: VmId, frame: VmFrame)
      requires Valid(Contents())
      modifies this
      ensures Contents() == Receive(old(Contents()), vmId, frame, hash) && Valid(Contents())
      ensures wire == old(wire) && sockets == old(sockets)
      ensures var id := frame.transferId;
              if id !in old(transfers) || old(transfers)[id].vmId != vmId then Contents() == old(Contents())
              else
                var t := old(transfers)[id];
                match frame
                case FileError(_, code) =>
                  transfers == old(transfers) - {id} && promises == old(promises)[id := ToldOf(t, Remote(code))]
                case FileDone(_, size, sha256) =>
                  && transfers == old(transfers) - {id}
                  && promises == old(promises)[id := if t.Write? then WriteResolved(size, sha256)
                                                     else if hash(t.hashed) == sha256 then ReadStarted(Closed(t.hashed))
                                                     else ToldOf(t, Mismatch)]
                case VmChunk(_, seqNo, data) =>
                  if t.Write? then Contents() == old(Contents())
                  else if seqNo == t.seqNo then
                    && transfers == old(transfers)[id := Read(t.vmId, t.socket, seqNo + 1, true, t.hashed + data)]
                    && promises == old(promises)[id := ReadStarted(Open(t.hashed + data))]
                  else transfers == old(transfers) - {id} && promises == old(promises)[id := ToldOf(t, OutOfOrder)]
    {
      ReceiveKeeps(Contents(), vmId, frame, hash);
      var id := frame.transferId;
      if id !in transfers || transfers[id].vmId != vmId {
        return;
      }
      var t := transfers[id];
      if frame.FileError? {
        FailTransfer(id, Remote(frame.code));
      } else if t.Write? {
        if frame.FileDone? {
          transfers := transfers - {id};
          promises := promises[id := WriteResolved(frame.size, frame.sha256)];
        }
      } else if frame.VmChunk? {
        if frame.seqNo != t.seqNo {
          FailTransfer(id, OutOfOrder);
          return;
        }
        transfers := transfers[id := t.(seqNo := t.seqNo + 1, hashed := t.hashed + frame.data, begun := true)];
        promises := promises[id := ReadStarted(Open(StreamOf(promises[id]) + frame.data))];
      } else {
        transfers := transfers - {id};
        if hash(t.hashed) != frame.sha256 {
          promises := promises[id := if t.begun then ReadStarted(Errored(StreamOf(promises[id]), Mismatch))
                                     else ReadRejected(Mismatch)];
          return;
        }
        promises := promises[id := ReadStarted(Closed(StreamOf(promises[id])))];
      }
    }

    /** Fails what was in flight on a socket that is gone. */
    method SocketClosed(socket: Socket)
      requires Valid(Contents())
      modifies this`transfers, this`promises
      ensures Contents() == CloseSocket(old(Contents()), socket) && Valid(Contents())
      ensures forall id :: id in transfers <==> id in old(transfers) && old(transfers)[id].socket != socket
      ensures forall id <- transfers :: transfers[id] == old(transfers)[id]
      ensures promises.Keys == old(promises).Keys
      ensures forall id <- promises ::
                promises[id] == if id in old(transfers) && old(transfers)[id].socket == socket
                                then ToldOf(old(transfers)[id], Unavailable) else old(promises)[id]
    {
      ghost var g := Contents();
      CloseSocketKeeps(g, socket);
      ClosingEnds(g, socket);
      hide CloseSocket, Closing, InStep;
      var rest := transfers.Keys;
      while rest != {}
        invariant Valid(Contents())
        invariant Closing(g, Contents(), socket, rest)
      {
        var id :| id in rest;
        ClosingStep(g, Contents(), socket, rest, id);
        if transfers[id].socket == socket {
          FailTransfer(id, Unavailable);
        }
        rest := rest - {id};
      }
    }
  }

  lemma SentInOrder(before: seq<(VmId, GatewayFrame)>, vmId: VmId, id: Id, path: string, bytes: Bytes, hash: Hash)
    ensures before + To(vmId, WriteFrames(id, path, bytes, hash))
         == before + [(vmId, FileWrite(id, path, |bytes|, hash(bytes)))]
            + seq(|Cut(bytes)|, k requires 0 <= k < |Cut(bytes)| => (vmId, FileChunk(id, k, Cut(bytes)[k])))
            + [(vmId, FileEnd(id))]
  {
    hide Cut;
  }

  function Rest(bytes: Bytes, at: nat): Bytes {
    if at <= |bytes| then bytes[at..] else []
  }

  lemma NextPiece(bytes: Bytes, at: nat, pieces: seq<Bytes>, seqNo: nat, data: Bytes)
    requires at < |bytes| && seqNo <= |pieces| && pieces[seqNo..] == Cut(Rest(bytes, at))
    requires data == bytes[at..if at + FILE_CHUNK_BYTES < |bytes| then at + FILE_CHUNK_BYTES else |bytes|]
    ensures seqNo < |pieces| && pieces[seqNo] == data
    ensures pieces[seqNo + 1..] == Cut(Rest(bytes, at + FILE_CHUNK_BYTES))
  {
    var rest := Rest(bytes, at);
    assert pieces[seqNo] == pieces[seqNo..][0] && pieces[seqNo + 1..] == pieces[seqNo..][1..];
    if |rest| > FILE_CHUNK_BYTES {
      assert rest[FILE_CHUNK_BYTES..] == Rest(bytes, at + FILE_CHUNK_BYTES);
    } else {
      assert Rest(bytes, at + FILE_CHUNK_BYTES) == [];
    }
  }

  lemma OneChunkMore(vmId: VmId, id: Id, pieces: seq<Bytes>, seqNo: nat)
    requires seqNo < |pieces|
    ensures To(vmId, ChunkFrames(id, pieces[..seqNo + 1]))
         == To(vmId, ChunkFrames(id, pieces[..seqNo])) + To(vmId, [FileChunk(id, seqNo, pieces[seqNo])])
  {
  }
}
