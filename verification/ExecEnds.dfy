/** How commands end: what is recorded is how a process ended, and the news reaches whoever waits for it. */
module ExecEnds {
  import opened Wrappers
  import opened Bytes
  import opened Execs
  import opened Executor
  import opened ExecutorTruth
  import opened ExecSystem
  import opened ExecTheorems

  // ---------------------------------------------------------------- What is recorded

  /**
   * This step is the end of the process at the id: the result has what its streams
   * came to, its exit code, and whether `timeout` ended it.
   */
  ghost predicate EndsWith(s: System, step: Step, id: ExecId, r: ExecResult) {
    && step.VmExits? && step.id == id && id in s.vm.results && !s.vm.results[id].done
    && s.vm.results[id].stdout.ended && s.vm.results[id].stderr.ended
    && r.stdout == s.vm.results[id].stdout.text && r.stderr == s.vm.results[id].stderr.text
    && r.exitCode == step.exitCode
    && (r.timedOut <==> step.exitCode == 124 || (step.exitCode == 137 && step.elapsedMs >= s.vm.results[id].timeoutMs))
    && r.truncated == s.vm.results[id].truncated
  }

  lemma StepRecords(s: System, step: Step, d: Decoder, id: ExecId, r: ExecResult)
    requires Allowed(s, step) && (id, r) in Next(s, step, d).vm.recorded && (id, r) !in s.vm.recorded
    ensures EndsWith(s, step, id, r)
  {
    if step.VmExits? {
      ExitRecords(s.vm, step.id, step.exitCode, step.elapsedMs);
      hide Exits;
    } else {
      hide Track, Settle, Handle, CloseSocket;
    }
  }

  lemma ExitRecords(vm: Vm, id: ExecId, exitCode: int, elapsedMs: nat)
    ensures var vm' := Exits(vm, id, exitCode, elapsedMs);
            if id in vm.results && !vm.results[id].done && vm.results[id].stdout.ended && vm.results[id].stderr.ended then
              vm'.recorded == vm.recorded + [(id, Snapshot(Finished(vm.results[id], exitCode, elapsedMs)))]
            else vm' == vm
  {
    if id in vm.results && !vm.results[id].done && vm.results[id].stdout.ended && vm.results[id].stderr.ended {
      var r, r' := vm.results[id], Finished(vm.results[id], exitCode, elapsedMs);
      var vm1 := Say(vm.(results := vm.results[id := r'], recorded := vm.recorded + [(id, Snapshot(r'))]),
                     r.socket, [Exit(id, r'.exitCode, r'.timedOut, r'.truncated)]);
      ReplyAllOnlySays(vm1, id, r.waiters, Snapshot(r'));
      hide ReplyAll, Say;
    }
  }

  /** Over any run, whatever is recorded of an id is how a process at that id ended. */
  lemma {:induction false} RecordedIsHowItEnded(steps: seq<Step>, d: Decoder, id: ExecId, r: ExecResult) returns (k: nat)
    requires Legal(Start(), steps, d) && (id, r) in After(Start(), steps, d).vm.recorded
    ensures k < |steps| && Legal(Start(), steps[..k], d) && EndsWith(After(Start(), steps[..k], d), steps[k], id, r)
    decreases |steps|
  {
    var n := |steps| - 1;
    LastStep(Start(), steps, d);
    var before := After(Start(), steps[..n], d);
    if (id, r) in before.vm.recorded {
      hide Legal, After, EndsWith, Start;
      k := RecordedIsHowItEnded(steps[..n], d, id, r);
      assert steps[..n][..k] == steps[..k] && steps[..n][k] == steps[k];
    } else {
      StepRecords(before, steps[n], d, id, r);
      hide EndsWith;
      k := n;
    }
  }

  /** So the exit code and flags a caller gets are those of a process that ended at its id. */
  lemma ExitCodeIsTheProcess(steps: seq<Step>, d: Decoder, c: Call) returns (k: nat)
    requires Legal(Start(), steps, d) && Answered(After(Start(), steps, d).g, c)
    ensures k < |steps| && Legal(Start(), steps[..k], d)
    ensures var s := After(Start(), steps, d);
            var id, told, before := s.g.asks[c].execId, s.g.outcomes[c].result.value, After(Start(), steps[..k], d);
            && steps[k].VmExits? && steps[k].id == id && told.exitCode == steps[k].exitCode
            && id in before.vm.results
            && (told.timedOut <==>
                  steps[k].exitCode == 124 || (steps[k].exitCode == 137 && steps[k].elapsedMs >= before.vm.results[id].timeoutMs))
            && told.truncated == before.vm.results[id].truncated
  {
    var s := After(Start(), steps, d);
    ResultIsRecorded(steps, d, c);
    var told := s.g.outcomes[c].result.value;
    hide After, Legal, MissedOf;
    k := RecordedIsHowItEnded(steps, d, s.g.asks[c].execId, WithHead(MissedOf(s.missed, c), told));
  }

  // ---------------------------------------------------------------- The news arrives

  function Delivers(n: nat): seq<Step> {
    if n == 0 then [] else [Deliver] + Delivers(n - 1)
  }

  /** A call that waits on our VM, and the j-th report still to be heard is the first that ends its command, with a result. */
  ghost predicate Comes(s: System, c: Call, j: nat) {
    && US in s.g.connected && Attached(s.g, c) && s.g.asks[c].vmId == US
    && var log, n, id := SentOn(s.vm.log, s.g.connected[US]), Count(s.heard, s.g.connected[US]), s.g.asks[c].execId;
    && s.g.pending[id].vmId == US && n + j < |log|
    && (forall i :: n <= i < n + j && log[i].execId == id ==> log[i].Output?)
    && log[n + j].execId == id && (log[n + j].Exit? || log[n + j].Found?)
  }

  lemma HearEnd(s: System, c: Call)
    requires Valid(s.g) && Comes(s, c, 0)
    ensures Allowed(s, Deliver) && GotResult(HearNext(s).g, c)
  {
    assert AllWait(s.g.asks, s.g.outcomes, s.g.asks[c].execId, s.g.pending[s.g.asks[c].execId]);
    hide Valid, AllWait, Join;
  }

  lemma HearOther(s: System, c: Call, j: nat)
    requires Comes(s, c, j) && j > 0
    ensures Allowed(s, Deliver) && Comes(HearNext(s), c, j - 1)
  {
    var k := s.g.connected[US];
    var n := Count(s.heard, k);
    var report := s.vm.log[k][n];
    assert report.execId == s.g.asks[c].execId ==> report.Output?;
    StillWaits(s.g, report, c);
    hide Handle, Misses, Attached;
  }

  lemma StillWaits(g: Gateway, report: Report, c: Call)
    requires Attached(g, c) && g.pending[g.asks[c].execId].vmId == US && (report.execId == g.asks[c].execId ==> report.Output?)
    ensures var g' := Handle(g, US, report);
            && Attached(g', c) && g'.asks == g.asks && g'.connected == g.connected
            && g'.pending[g.asks[c].execId].vmId == US
  {
  }

  /**
   * When what ends its command lies on the live socket, a waiting call gets a result
   * once the gateway has heard that far, whatever else it hears on the way.
   */
  lemma {:induction false} ResultComes(s: System, d: Decoder, c: Call, j: nat)
    requires Inv(s) && Comes(s, c, j)
    ensures Legal(s, Delivers(j + 1), d) && GotResult(After(s, Delivers(j + 1), d).g, c)
    decreases j
  {
    hide Inv, Valid, HearNext, Comes, GotResult, Delivers, Legal, After;
    ValidOf(s);
    if j == 0 {
      HearEnd(s, c);
      NoneDelivered(HearNext(s), d);
    } else {
      HearOther(s, c, j);
      HearKeeps(s, d);
      ResultComes(HearNext(s), d, c, j - 1);
    }
    OneMoreDelivered(s, d, j);
  }

  lemma HearKeeps(s: System, d: Decoder)
    requires Inv(s) && Allowed(s, Deliver)
    ensures Inv(HearNext(s))
  {
    hide Inv, HearNext;
    StepKeeps(s, Deliver, d);
  }

  lemma NoneDelivered(s: System, d: Decoder)
    ensures Legal(s, Delivers(0), d) && After(s, Delivers(0), d) == s
  {
  }

  lemma OneMoreDelivered(s: System, d: Decoder, n: nat)
    requires Allowed(s, Deliver) && Legal(HearNext(s), Delivers(n), d)
    ensures Legal(s, Delivers(n + 1), d) && After(s, Delivers(n + 1), d) == After(HearNext(s), Delivers(n), d)
  {
    hide HearNext;
    assert Delivers(n + 1)[1..] == Delivers(n);
  }
}
