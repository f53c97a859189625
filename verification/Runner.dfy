/** The executor: its methods keep what is said on every socket true to what was recorded. */
module Runner {
  import opened Bytes
  import opened Execs
  import opened Executor
  import opened ExecutorTruth
  import Texts

  class ExecRunner {
    var results: map<ExecId, Record>
    var log: map<Socket, seq<Report>>
    ghost var spawned: seq<ExecId>
    ghost var forgotten: seq<ExecId>
    ghost var recorded: seq<(ExecId, ExecResult)>
    /** The ids asked about on each socket. */
    ghost var known: Known
    const decoder: Decoder

    ghost function Contents(): Vm
      reads this
    {
      Vm(results, log, spawned, forgotten, recorded)
    }

    /** Each id was spawned once until forgotten, and whatever was said of its end is a recorded result. */
    ghost predicate Valid()
      reads this
    {
      VmInv(Contents(), known) && Ledger(Contents())
    }

    constructor (decoder: Decoder)
      ensures Contents() == Vm(map[], map[], [], [], []) && known == {} && this.decoder == decoder && Valid()
    {
      results, log, spawned, forgotten, recorded, known := map[], map[], [], [], [], {};
      this.decoder := decoder;
    }

    method Send(socket: Socket, reports: seq<Report>)
      modifies this`log
      ensures Contents() == Say(old(Contents()), socket, reports)
    {
      log := log[socket := SentOn(log, socket) + reports];
    }

    /** Tells the result now if there is one, and otherwise nothing until there is. */
    method WaitFor(id: ExecId, waiter: Waiter)
      requires Valid() && id in results && (waiter.socket, id) in known
      modifies this`log, this`results
      ensures Contents() == Wait(old(Contents()), id, waiter) && Valid()
      ensures if results[id].done then
                exists r :: (id, r) in recorded && SentOn(log, waiter.socket) == old(SentOn(log, waiter.socket)) + Reply(id, waiter, r)
              else log == old(log) && waiter in results[id].waiters
    {
      WaitKeeps(Contents(), id, waiter, known);
      WaitLedger(Contents(), id, waiter);
      RecordOf(Contents(), id, known);
      hide VmInv, Ledger;
      var record := results[id];
      if record.done {
        Send(waiter.socket, Reply(id, waiter, Snapshot(record)));
        return;
      }
      results := results[id := record.(waiters := record.waiters + [waiter])];
    }

    /** Any id, asked for by anyone, again or not: it is spawned exactly if the VM does not know it. */
    method Run(socket: Socket, id: ExecId, timeoutMs: nat)
      requires Valid()
      modifies this
      ensures Contents() == RunExec(old(Contents()), socket, id, timeoutMs)
      ensures known == old(known) + {(socket, id)} && Valid()
      ensures multiset(spawned)[id] == multiset(forgotten)[id] + 1
      ensures spawned == old(spawned) <==> id in old(results)
      ensures id !in old(results) ==>
                && results == old(results)[id := results[id]]
                && results[id].socket == socket && results[id].timeoutMs == timeoutMs && !results[id].done && results[id].waiters == []
                && results[id].stdout == results[id].stderr == Piped([], "", false)
      ensures id in old(results) && !old(results)[id].done ==> results[id].waiters == old(results)[id].waiters + [Replay(socket)]
      ensures id in old(results) && old(results)[id].done ==>
                exists r :: (id, r) in recorded && SentOn(log, socket) == old(SentOn(log, socket)) + Reply(id, Replay(socket), r)
    {
      TakeKeeps(Contents(), socket, Exec(id, "", timeoutMs), known);
      TakeLedger(Contents(), socket, Exec(id, "", timeoutMs));
      KnownGrows(Contents(), known, (socket, id));
      SpawnedOnce(RunExec(Contents(), socket, id, timeoutMs), id);
      hide VmInv, Ledger;
      known := known + {(socket, id)};
      if id in results {
        WaitFor(id, Replay(socket));
        return;
      }
      results := results[id := Record(socket, timeoutMs, Piped([], "", false), Piped([], "", false), -1, false, false, false, [])];
      spawned := spawned + [id];
    }

    /** Spawns nothing; the answer is the recorded result, or that there is none, or comes when the command ends. */
    method FetchResult(socket: Socket, id: ExecId)
      requires Valid()
      modifies this`log, this`results, this`known
      ensures Contents() == FetchExec(old(Contents()), socket, id)
      ensures known == old(known) + {(socket, id)} && Valid()
      ensures if id !in results then SentOn(log, socket) == old(SentOn(log, socket)) + [NotFound(id)]
              else if results[id].done then
                exists r :: (id, r) in recorded && SentOn(log, socket) == old(SentOn(log, socket)) + [Found(id, r)]
              else log == old(log) && Answer(socket) in results[id].waiters
    {
      TakeKeeps(Contents(), socket, Fetch(id), known);
      TakeLedger(Contents(), socket, Fetch(id));
      KnownGrows(Contents(), known, (socket, id));
      hide VmInv, Ledger;
      known := known + {(socket, id)};
      if id !in results {
        Send(socket, [NotFound(id)]);
        return;
      }
      WaitFor(id, Answer(socket));
    }

    /** The loop over one stream of a command, with nothing else going on. */
    method PumpAll(id: ExecId, pipe: Pipe, chunks: seq<Bytes>)
      requires Valid() && Running(Contents(), id, pipe)
      modifies this`results, this`log
      ensures Contents() == PipeEnds(PumpChunks(old(Contents()), id, pipe, chunks, decoder), id, pipe, decoder) && Valid()
    {
      hide VmInv, Ledger;
      for k := 0 to |chunks|
        invariant Contents() == PumpChunks(old(Contents()), id, pipe, chunks[..k], decoder)
        invariant Running(Contents(), id, pipe) && Valid()
      {
        assert chunks[..k + 1][..k] == chunks[..k];
        PumpChunk(id, pipe, chunks[k]);
      }
      assert chunks[..|chunks|] == chunks;
      PipeEndsKeeps(Contents(), id, pipe, decoder, known);
      PumpLedger(Contents(), id, pipe, [], decoder);
      var record, stream := results[id], PipeOf(results[id], pipe);
      var rest := decoder.flush(stream.kept);
      results := results[id := WithPipe(record, pipe, Piped(stream.kept, stream.text + rest, true))];
      Send(record.socket, Whole(id, pipe, rest));
    }

    method PumpChunk(id: ExecId, pipe: Pipe, chunk: Bytes)
      requires Valid() && Running(Contents(), id, pipe)
      modifies this`results, this`log
      ensures Contents() == Pump(old(Contents()), id, pipe, chunk, decoder) && Running(Contents(), id, pipe) && Valid()
    {
      PumpKeeps(Contents(), id, pipe, chunk, decoder, known);
      PumpLedger(Contents(), id, pipe, chunk, decoder);
      hide VmInv, Ledger;
      var record, stream := results[id], PipeOf(results[id], pipe);
      if |stream.kept| >= MAX_OUTPUT_BYTES {
        results := results[id := record.(truncated := true)];
        return;
      }
      var kept := Fitting(stream, chunk);
      var text := decoder.decode(stream.kept, kept);
      record := record.(truncated := record.truncated || |kept| < |chunk|);
      results := results[id := WithPipe(record, pipe, Piped(stream.kept + kept, stream.text + text, false))];
      Send(record.socket, Outputs(id, pipe, Slices(text)));
    }

    /**
     * Records what the command put out and how the process ended, and says so: an exit
     * on the command's own socket, then to each who waited, in order, the whole result.
     */
    method Exited(id: ExecId, exitCode: int, elapsedMs: nat)
      requires Valid() && id in results && !results[id].done && results[id].stdout.ended && results[id].stderr.ended
      modifies this
      ensures Contents() == Exits(old(Contents()), id, exitCode, elapsedMs) && known == old(known) && Valid()
      ensures var r := old(results[id]);
              var timedOut := exitCode == 124 || (exitCode == 137 && elapsedMs >= r.timeoutMs);
              var result := ExecResult(r.stdout.text, r.stderr.text, exitCode, timedOut, r.truncated);
              && recorded == old(recorded) + [(id, result)]
              && forall k :: SentOn(log, k) == old(SentOn(log, k))
                               + (if k == r.socket then [Exit(id, exitCode, timedOut, r.truncated)] else [])
                               + AnswersOn(k, id, r.waiters, result)
    {
      ExitsSays(Contents(), id, exitCode, elapsedMs);
      ExitsKeeps(Contents(), id, exitCode, elapsedMs, known);
      ExitsLedger(Contents(), id, exitCode, elapsedMs);
      hide VmInv, Ledger;
      var record := Finished(results[id], exitCode, elapsedMs);
      var waiters := results[id].waiters;
      results := results[id := record];
      recorded := recorded + [(id, Snapshot(record))];
      Send(record.socket, [Exit(id, record.exitCode, record.timedOut, record.truncated)]);
      ghost var vm := Contents();
      while waiters != []
        invariant known == old(known)
        invariant ReplyAll(Contents(), id, waiters, Snapshot(record)) == ReplyAll(vm, id, old(results[id].waiters), Snapshot(record))
        decreases |waiters|
      {
        Send(waiters[0].socket, Reply(id, waiters[0], Snapshot(record)));
        waiters := waiters[1..];
      }
    }

    /** From here on the id is unknown, and would be spawned again. */
    method RetentionEnds(id: ExecId)
      requires Valid() && id in results && results[id].done
      modifies this`results, this`forgotten
      ensures Contents() == Forget(old(Contents()), id) && Valid()
      ensures multiset(spawned)[id] == multiset(forgotten)[id]
    {
      ForgetKeeps(Contents(), id, known);
      ForgetLedger(Contents(), id);
      SpawnedOnce(Forget(Contents(), id), id);
      hide VmInv, Ledger;
      results := results - {id};
      forgotten := forgotten + [id];
    }
  }

  /** What those who waited over one socket are told, in order. */
  function AnswersOn(k: Socket, id: ExecId, waiters: seq<Waiter>, r: ExecResult): seq<Report> {
    if waiters == [] then []
    else (if waiters[0].socket == k then Reply(id, waiters[0], r) else []) + AnswersOn(k, id, waiters[1..], r)
  }

  lemma {:induction false} AnswersReach(vm: Vm, id: ExecId, waiters: seq<Waiter>, r: ExecResult, k: Socket)
    ensures SentOn(ReplyAll(vm, id, waiters, r).log, k) == SentOn(vm.log, k) + AnswersOn(k, id, waiters, r)
    decreases |waiters|
  {
    if waiters == [] {
    } else {
      var w := waiters[0];
      var vm1 := Say(vm, w.socket, Reply(id, w, r));
      AnswersReach(vm1, id, waiters[1..], r, k);
      var mine := if w.socket == k then Reply(id, w, r) else [];
      assert SentOn(vm1.log, k) == SentOn(vm.log, k) + mine;
      hide Reply;
      Texts.Regroup(SentOn(vm.log, k), mine, AnswersOn(k, id, waiters[1..], r));
    }
  }

  lemma ExitsSays(vm: Vm, id: ExecId, exitCode: int, elapsedMs: nat)
    requires id in vm.results && !vm.results[id].done && vm.results[id].stdout.ended && vm.results[id].stderr.ended
    ensures var r, vm' := vm.results[id], Exits(vm, id, exitCode, elapsedMs);
            var timedOut := exitCode == 124 || (exitCode == 137 && elapsedMs >= r.timeoutMs);
            var result := ExecResult(r.stdout.text, r.stderr.text, exitCode, timedOut, r.truncated);
            && vm'.recorded == vm.recorded + [(id, result)]
            && forall k :: SentOn(vm'.log, k) == SentOn(vm.log, k)
                             + (if k == r.socket then [Exit(id, exitCode, timedOut, r.truncated)] else [])
                             + AnswersOn(k, id, r.waiters, result)
  {
    var r, r' := vm.results[id], Finished(vm.results[id], exitCode, elapsedMs);
    var vm1 := Say(vm.(results := vm.results[id := r'], recorded := vm.recorded + [(id, Snapshot(r'))]),
                   r.socket, [Exit(id, r'.exitCode, r'.timedOut, r'.truncated)]);
    ReplyAllOnlySays(vm1, id, r.waiters, Snapshot(r'));
    assert Exits(vm, id, exitCode, elapsedMs) == ReplyAll(vm1, id, r.waiters, Snapshot(r'));
    hide Exits, ReplyAll, AnswersOn;
    forall k ensures SentOn(ReplyAll(vm1, id, r.waiters, Snapshot(r')).log, k) == SentOn(vm1.log, k) + AnswersOn(k, id, r.waiters, Snapshot(r')) {
      AnswersReach(vm1, id, r.waiters, Snapshot(r'), k);
    }
    assert forall k :: k != r.socket ==> SentOn(vm.log, k) + [] == SentOn(vm.log, k);
  }

  lemma SpawnedOnce(vm: Vm, id: ExecId)
    requires Ledger(vm)
    ensures multiset(vm.spawned)[id] == multiset(vm.forgotten)[id] + (if id in vm.results then 1 else 0)
  {
  }

  lemma WaitLedger(vm: Vm, id: ExecId, waiter: Waiter)
    requires Ledger(vm) && id in vm.results
    ensures Ledger(Wait(vm, id, waiter))
  {
    hide Ledger;
    LedgerSame(vm, Wait(vm, id, waiter));
  }
}
