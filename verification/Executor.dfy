/**
 * Commands on VMs, the VM's half: runs each id once, streams its output, and
 * keeps its result for whoever asks again.
 */
module Executor {
  import opened Bytes
  import opened Execs

  /** Beyond this many bytes of a stream nothing is kept. */
  const MAX_OUTPUT_BYTES: nat := 1024 * 1024
  /** The longest text one report carries while a command runs. */
  const CHUNK_CHARS: nat := 16 * 1024

  /** A streaming text decoder: the text of more bytes after those before, and what it holds back at the end. */
  datatype Decoder = Decoder(decode: (Bytes, Bytes) -> string, flush: Bytes -> string)

  /** One stream of a command so far. */
  datatype Piped = Piped(kept: Bytes, text: string, ended: bool)

  /** A repeated `exec`, or an `exec.fetch`, waiting for the command to finish. */
  datatype Waiter = Replay(socket: Socket) | Answer(socket: Socket)

  datatype Record = Record(
    socket: Socket, timeoutMs: nat, stdout: Piped, stderr: Piped,
    exitCode: int, timedOut: bool, truncated: bool, done: bool, waiters: seq<Waiter>)

  /** `log` is what was sent on each socket; the rest of the history is who was spawned, forgotten and recorded. */
  datatype Vm = Vm(
    results: map<ExecId, Record>,
    log: map<Socket, seq<Report>>,
    spawned: seq<ExecId>,
    forgotten: seq<ExecId>,
    recorded: seq<(ExecId, ExecResult)>)

  function Snapshot(r: Record): ExecResult {
    ExecResult(r.stdout.text, r.stderr.text, r.exitCode, r.timedOut, r.truncated)
  }

  function PipeOf(r: Record, pipe: Pipe): Piped {
    if pipe.Stdout? then r.stdout else r.stderr
  }

  function WithPipe(r: Record, pipe: Pipe, p: Piped): Record {
    if pipe.Stdout? then r.(stdout := p) else r.(stderr := p)
  }

  // ---------------------------------------------------------------- What is said of a command

  /** Pieces of at most CHUNK_CHARS characters, in order. */
  function Slices(text: string): seq<string> {
    if text == "" then []
    else if |text| <= CHUNK_CHARS then [text]
    else [text[..CHUNK_CHARS]] + Slices(text[CHUNK_CHARS..])
  }

  function Outputs(id: ExecId, pipe: Pipe, parts: seq<string>): seq<Report> {
    seq(|parts|, k requires 0 <= k < |parts| => Output(id, pipe, parts[k]))
  }

  function Whole(id: ExecId, pipe: Pipe, text: string): seq<Report> {
    if text == "" then [] else [Output(id, pipe, text)]
  }

  function Reply(id: ExecId, waiter: Waiter, r: ExecResult): seq<Report> {
    match waiter
    case Replay(_) => Whole(id, Stdout, r.stdout) + Whole(id, Stderr, r.stderr) + [Exit(id, r.exitCode, r.timedOut, r.truncated)]
    case Answer(_) => [Found(id, r)]
  }

  function Say(vm: Vm, socket: Socket, reports: seq<Report>): Vm {
    vm.(log := vm.log[socket := SentOn(vm.log, socket) + reports])
  }

  function ReplyAll(vm: Vm, id: ExecId, waiters: seq<Waiter>, r: ExecResult): Vm
    decreases |waiters|
  {
    if waiters == [] then vm else ReplyAll(Say(vm, waiters[0].socket, Reply(id, waiters[0], r)), id, waiters[1..], r)
  }

  // ---------------------------------------------------------------- Operations on the whole state

  function Wait(vm: Vm, id: ExecId, waiter: Waiter): Vm
    requires id in vm.results
  {
    var r := vm.results[id];
    if r.done then Say(vm, waiter.socket, Reply(id, waiter, Snapshot(r)))
    else vm.(results := vm.results[id := r.(waiters := r.waiters + [waiter])])
  }

  /** An id seen before is the same command asked for again; a new one is spawned. */
  function RunExec(vm: Vm, socket: Socket, id: ExecId, timeoutMs: nat): Vm {
    if id in vm.results then Wait(vm, id, Replay(socket))
    else
      vm.(results := vm.results[id := Record(socket, timeoutMs, Piped([], "", false), Piped([], "", false), -1, false, false, false, [])],
          spawned := vm.spawned + [id])
  }

  function FetchExec(vm: Vm, socket: Socket, id: ExecId): Vm {
    if id in vm.results then Wait(vm, id, Answer(socket)) else Say(vm, socket, [NotFound(id)])
  }

  function TakeRequest(vm: Vm, socket: Socket, request: Request): Vm {
    match request
    case Exec(id, _, timeoutMs) => RunExec(vm, socket, id, timeoutMs)
    case Fetch(id) => FetchExec(vm, socket, id)
  }

  /** How much of a chunk still fits under the cap. */
  function Fitting(p: Piped, chunk: Bytes): Bytes {
    if |p.kept| >= MAX_OUTPUT_BYTES then []
    else if |chunk| <= MAX_OUTPUT_BYTES - |p.kept| then chunk
    else chunk[..MAX_OUTPUT_BYTES - |p.kept|]
  }

  predicate Drops(p: Piped, chunk: Bytes) {
    |p.kept| >= MAX_OUTPUT_BYTES || |chunk| > MAX_OUTPUT_BYTES - |p.kept|
  }

  predicate Running(vm: Vm, id: ExecId, pipe: Pipe) {
    id in vm.results && !vm.results[id].done && !PipeOf(vm.results[id], pipe).ended
  }

  function Pump(vm: Vm, id: ExecId, pipe: Pipe, chunk: Bytes, d: Decoder): Vm {
    if !Running(vm, id, pipe) then vm
    else
      var r, p := vm.results[id], PipeOf(vm.results[id], pipe);
      if |p.kept| >= MAX_OUTPUT_BYTES then vm.(results := vm.results[id := r.(truncated := true)])
      else
        var kept := Fitting(p, chunk);
        var text := d.decode(p.kept, kept);
        Say(vm.(results := vm.results[id := WithPipe(r.(truncated := r.truncated || Drops(p, chunk)), pipe,
                                                     Piped(p.kept + kept, p.text + text, false))]),
            r.socket, Outputs(id, pipe, Slices(text)))
  }

  function PipeEnds(vm: Vm, id: ExecId, pipe: Pipe, d: Decoder): Vm {
    if !Running(vm, id, pipe) then vm
    else
      var r, p := vm.results[id], PipeOf(vm.results[id], pipe);
      Say(vm.(results := vm.results[id := WithPipe(r, pipe, Piped(p.kept, p.text + d.flush(p.kept), true))]),
          r.socket, Whole(id, pipe, d.flush(p.kept)))
  }

  /** Both streams ended and the process exited: the result is recorded, and everyone is told. */
  function Finished(r: Record, exitCode: int, elapsedMs: nat): Record {
    r.(exitCode := exitCode, timedOut := exitCode == 124 || (exitCode == 137 && elapsedMs >= r.timeoutMs),
       done := true, waiters := [])
  }

  function Exits(vm: Vm, id: ExecId, exitCode: int, elapsedMs: nat): Vm {
    if id !in vm.results || vm.results[id].done || !vm.results[id].stdout.ended || !vm.results[id].stderr.ended then vm
    else
      var r, r' := vm.results[id], Finished(vm.results[id], exitCode, elapsedMs);
      var vm' := vm.(results := vm.results[id := r'], recorded := vm.recorded + [(id, Snapshot(r'))]);
      ReplyAll(Say(vm', r.socket, [Exit(id, r'.exitCode, r'.timedOut, r'.truncated)]), id, r.waiters, Snapshot(r'))
  }

  function Forget(vm: Vm, id: ExecId): Vm {
    if id in vm.results && vm.results[id].done then
      vm.(results := vm.results - {id}, forgotten := vm.forgotten + [id])
    else vm
  }

  // ---------------------------------------------------------------- A whole stream

  function PumpChunks(vm: Vm, id: ExecId, pipe: Pipe, chunks: seq<Bytes>, d: Decoder): Vm {
    if chunks == [] then vm
    else Pump(PumpChunks(vm, id, pipe, chunks[..|chunks| - 1], d), id, pipe, chunks[|chunks| - 1], d)
  }

  // ---------------------------------------------------------------- What is kept of the output

  predicate SomeDropped(chunks: seq<Bytes>) {
    exists k :: 0 <= k < |chunks| && DroppedAt(chunks, k)
  }

  /** The k-th chunk comes when the cap is reached, or goes over it. */
  predicate DroppedAt(chunks: seq<Bytes>, k: nat)
    requires k < |chunks|
  {
    |Flatten(chunks[..k])| >= MAX_OUTPUT_BYTES || |Flatten(chunks[..k])| + |chunks[k]| > MAX_OUTPUT_BYTES
  }

  /** The first MAX_OUTPUT_BYTES bytes, or all there are. */
  function FirstBytes(all: Bytes): Bytes {
    if |all| <= MAX_OUTPUT_BYTES then all else all[..MAX_OUTPUT_BYTES]
  }

  /** What one chunk adds to what is kept of its stream, and to the flag. */
  lemma PumpTakes(vm: Vm, id: ExecId, pipe: Pipe, chunk: Bytes, d: Decoder)
    requires Running(vm, id, pipe)
    ensures var vm', p := Pump(vm, id, pipe, chunk, d), PipeOf(vm.results[id], pipe);
            && Running(vm', id, pipe)
            && PipeOf(vm'.results[id], pipe).kept == p.kept + Fitting(p, chunk)
            && (vm'.results[id].truncated <==> vm.results[id].truncated || Drops(p, chunk))
  {
    hide Slices, Outputs;
  }

  lemma FirstBytesMore(p: Piped, before: Bytes, chunk: Bytes)
    requires p.kept == FirstBytes(before)
    ensures p.kept + Fitting(p, chunk) == FirstBytes(before + chunk)
    ensures Drops(p, chunk) <==> |before| >= MAX_OUTPUT_BYTES || |before| + |chunk| > MAX_OUTPUT_BYTES
  {
  }

  /**
   * However the stream is chunked, exactly its first MAX_OUTPUT_BYTES bytes are
   * kept, and the result is flagged just when some chunk came at or over the cap.
   */
  lemma {:induction false} KeepsUpToTheCap(vm: Vm, id: ExecId, pipe: Pipe, chunks: seq<Bytes>, d: Decoder)
    requires Running(vm, id, pipe) && PipeOf(vm.results[id], pipe).kept == []
    ensures var vm' := PumpChunks(vm, id, pipe, chunks, d);
            && Running(vm', id, pipe)
            && var r := vm'.results[id];
            && PipeOf(r, pipe).kept == FirstBytes(Flatten(chunks))
            && (r.truncated <==> vm.results[id].truncated || SomeDropped(chunks))
    decreases |chunks|
  {
    if chunks == [] {
    } else {
      var n := |chunks| - 1;
      KeepsUpToTheCap(vm, id, pipe, chunks[..n], d);
      var vm1 := PumpChunks(vm, id, pipe, chunks[..n], d);
      PumpOneMore(vm, id, pipe, chunks, d);
      PumpTakes(vm1, id, pipe, chunks[n], d);
      FirstBytesMore(PipeOf(vm1.results[id], pipe), Flatten(chunks[..n]), chunks[n]);
      DroppedOneMore(chunks);
      assert Flatten(chunks) == Flatten(chunks[..n]) + chunks[n];
      hide PumpChunks, Pump, Fitting, Drops, SomeDropped, FirstBytes, Flatten, Running;
    }
  }

  /** A decoder that comes to the same text however the bytes are cut, `once` being their decoding at once. */
  ghost predicate Incremental(d: Decoder, once: Bytes -> string) {
    && d.decode([], []) == ""
    && (forall a: Bytes, b: Bytes :: d.decode([], a + b) == d.decode([], a) + d.decode(a, b))
    && (forall a: Bytes :: once(a) == d.decode([], a) + d.flush(a))
  }

  lemma {:induction false} TextIsDecoded(vm: Vm, id: ExecId, pipe: Pipe, chunks: seq<Bytes>, d: Decoder, once: Bytes -> string)
    requires Incremental(d, once) && Running(vm, id, pipe)
    requires PipeOf(vm.results[id], pipe).kept == [] && PipeOf(vm.results[id], pipe).text == ""
    ensures var vm' := PumpChunks(vm, id, pipe, chunks, d);
            && Running(vm', id, pipe)
            && var p := PipeOf(vm'.results[id], pipe); p.text == d.decode([], p.kept)
    decreases |chunks|
  {
    if chunks == [] {
    } else {
      var n := |chunks| - 1;
      TextIsDecoded(vm, id, pipe, chunks[..n], d, once);
      PumpOneMore(vm, id, pipe, chunks, d);
      PumpDecodes(PumpChunks(vm, id, pipe, chunks[..n], d), id, pipe, chunks[n], d, once);
      hide PumpChunks, Pump, Running, Incremental;
    }
  }

  lemma PumpDecodes(vm: Vm, id: ExecId, pipe: Pipe, chunk: Bytes, d: Decoder, once: Bytes -> string)
    requires Incremental(d, once) && Running(vm, id, pipe)
    requires var p := PipeOf(vm.results[id], pipe); p.text == d.decode([], p.kept)
    ensures var vm' := Pump(vm, id, pipe, chunk, d);
            && Running(vm', id, pipe)
            && var p := PipeOf(vm'.results[id], pipe); p.text == d.decode([], p.kept)
  {
    var p := PipeOf(vm.results[id], pipe);
    assert d.decode([], p.kept + Fitting(p, chunk)) == d.decode([], p.kept) + d.decode(p.kept, Fitting(p, chunk));
    hide Incremental, Slices, Outputs, Fitting, Say, Drops;
  }

  /**
   * With such a decoder the recorded text of a stream is the decoding, at once, of its
   * first MAX_OUTPUT_BYTES bytes, however it was chunked.
   */
  lemma RecordedIsDecoded(vm: Vm, id: ExecId, pipe: Pipe, chunks: seq<Bytes>, d: Decoder, once: Bytes -> string)
    requires Incremental(d, once) && Running(vm, id, pipe)
    requires PipeOf(vm.results[id], pipe).kept == [] && PipeOf(vm.results[id], pipe).text == ""
    ensures var vm' := PipeEnds(PumpChunks(vm, id, pipe, chunks, d), id, pipe, d);
            && id in vm'.results
            && PipeOf(vm'.results[id], pipe).ended
            && PipeOf(vm'.results[id], pipe).text == once(FirstBytes(Flatten(chunks)))
  {
    TextIsDecoded(vm, id, pipe, chunks, d, once);
    KeepsUpToTheCap(vm, id, pipe, chunks, d);
    hide PumpChunks, Flatten, FirstBytes, SomeDropped, Whole, Say;
    assert var p := PipeOf(PumpChunks(vm, id, pipe, chunks, d).results[id], pipe); once(p.kept) == p.text + d.flush(p.kept);
    hide Incremental;
  }

  lemma PumpOneMore(vm: Vm, id: ExecId, pipe: Pipe, chunks: seq<Bytes>, d: Decoder)
    requires chunks != []
    ensures PumpChunks(vm, id, pipe, chunks, d)
         == Pump(PumpChunks(vm, id, pipe, chunks[..|chunks| - 1], d), id, pipe, chunks[|chunks| - 1], d)
  {
  }

  lemma DroppedOneMore(chunks: seq<Bytes>)
    requires chunks != []
    ensures var n := |chunks| - 1; SomeDropped(chunks) <==> SomeDropped(chunks[..n]) || DroppedAt(chunks, n)
  {
    var n := |chunks| - 1;
    assert forall k :: 0 <= k < n ==> chunks[..n][..k] == chunks[..k];
    assert forall k :: 0 <= k < n ==> (DroppedAt(chunks[..n], k) <==> DroppedAt(chunks, k));
  }
}
