/** What a sequence of reports says of a command: the text of its streams, piece by piece. */
module Reports {
  import opened Execs
  import opened Executor
  import Texts

  predicate Said(reports: seq<Report>, id: ExecId) {
    exists k :: 0 <= k < |reports| && reports[k].execId == id
  }

  function Part(report: Report, id: ExecId, pipe: Pipe): string {
    if report.Output? && report.execId == id && report.pipe == pipe then report.data else ""
  }

  function Text(reports: seq<Report>, id: ExecId, pipe: Pipe): string {
    if reports == [] then ""
    else Text(reports[..|reports| - 1], id, pipe) + Part(reports[|reports| - 1], id, pipe)
  }

  lemma TextOne(reports: seq<Report>, report: Report, id: ExecId, pipe: Pipe)
    ensures Text(reports + [report], id, pipe) == Text(reports, id, pipe) + Part(report, id, pipe)
  {
    assert (reports + [report])[..|reports|] == reports;
  }

  lemma TextLast(reports: seq<Report>, id: ExecId, pipe: Pipe)
    requires reports != []
    ensures var n := |reports| - 1; Text(reports, id, pipe) == Text(reports[..n], id, pipe) + Part(reports[n], id, pipe)
  {
  }

  lemma {:induction false} TextAppend(a: seq<Report>, b: seq<Report>, id: ExecId, pipe: Pipe)
    ensures Text(a + b, id, pipe) == Text(a, id, pipe) + Text(b, id, pipe)
    decreases |b|
  {
    if b == [] {
      assert a + b == a;
    } else {
      var n := |b| - 1;
      assert a + b == (a + b[..n]) + [b[n]];
      TextLast(b, id, pipe);
      hide Text, Part;
      TextOne(a + b[..n], b[n], id, pipe);
      TextAppend(a, b[..n], id, pipe);
      Texts.Regroup(Text(a, id, pipe), Text(b[..n], id, pipe), Part(b[n], id, pipe));
    }
  }

  // ---------------------------------------------------------------- Since the last exit

  predicate AllAbout(reports: seq<Report>, id: ExecId) {
    forall k :: 0 <= k < |reports| ==> reports[k].execId == id
  }

  /** The text of a command's stream since it was last said to have exited. */
  function Since(reports: seq<Report>, id: ExecId, pipe: Pipe): string {
    if reports == [] then ""
    else
      var n := |reports| - 1;
      if reports[n].Exit? && reports[n].execId == id then "" else Since(reports[..n], id, pipe) + Part(reports[n], id, pipe)
  }

  lemma SinceOne(reports: seq<Report>, report: Report, id: ExecId, pipe: Pipe)
    ensures Since(reports + [report], id, pipe)
            == if report.Exit? && report.execId == id then "" else Since(reports, id, pipe) + Part(report, id, pipe)
  {
    assert (reports + [report])[..|reports|] == reports;
  }

  /** Until the next exit the text goes on. */
  lemma {:induction false} SinceMore(a: seq<Report>, b: seq<Report>, id: ExecId, pipe: Pipe)
    requires forall k :: 0 <= k < |b| && b[k].execId == id ==> !b[k].Exit?
    ensures Since(a + b, id, pipe) == Since(a, id, pipe) + Text(b, id, pipe)
    decreases |b|
  {
    if b == [] {
      assert a + b == a;
      assert Text(b, id, pipe) == "";
    } else {
      var n := |b| - 1;
      assert a + b == (a + b[..n]) + [b[n]];
      TextLast(b, id, pipe);
      hide Text, Since, Part;
      SinceOne(a + b[..n], b[n], id, pipe);
      SinceMore(a, b[..n], id, pipe);
      Texts.Regroup(Since(a, id, pipe), Text(b[..n], id, pipe), Part(b[n], id, pipe));
    }
  }

  /** What is said of one command says nothing of the others. */
  lemma {:induction false} SinceOthers(a: seq<Report>, b: seq<Report>, id: ExecId, other: ExecId, pipe: Pipe)
    requires AllAbout(b, id) && other != id
    ensures Since(a + b, other, pipe) == Since(a, other, pipe)
    decreases |b|
  {
    if b == [] {
      assert a + b == a;
    } else {
      var n := |b| - 1;
      assert (a + b)[..|a| + n] == a + b[..n] && (a + b)[|a| + n] == b[n];
      SinceOthers(a, b[..n], id, other, pipe);
    }
  }

  lemma {:induction false} SinceUnsaid(reports: seq<Report>, id: ExecId, pipe: Pipe)
    requires !Said(reports, id)
    ensures Since(reports, id, pipe) == ""
    decreases |reports|
  {
    if reports == [] {
    } else {
      var n := |reports| - 1;
      assert reports[n].execId != id;
      forall k | 0 <= k < n ensures reports[..n][k].execId != id { assert reports[..n][k] == reports[k]; }
      SinceUnsaid(reports[..n], id, pipe);
    }
  }

  lemma JoinOne(parts: seq<string>, part: string)
    ensures Join(parts + [part]) == Join(parts) + part
  {
    assert (parts + [part])[..|parts|] == parts;
  }

  lemma {:induction false} JoinAppend(a: seq<string>, b: seq<string>)
    ensures Join(a + b) == Join(a) + Join(b)
    decreases |b|
  {
    if b == [] {
      assert a + b == a;
    } else {
      assert (a + b)[..|a + b| - 1] == a + b[..|b| - 1];
      JoinAppend(a, b[..|b| - 1]);
    }
  }

  /** Cutting a text for the wire loses nothing, and no piece is too long for a report. */
  lemma {:induction false} SlicesJoin(text: string)
    ensures Join(Slices(text)) == text
    ensures forall piece :: piece in Slices(text) ==> 0 < |piece| <= 16 * 1024
    decreases |text|
  {
    if 0 < |text| <= CHUNK_CHARS {
      JoinOne([], text);
      assert [] + [text] == [text];
    } else if text != "" {
      SlicesJoin(text[CHUNK_CHARS..]);
      JoinAppend([text[..CHUNK_CHARS]], Slices(text[CHUNK_CHARS..]));
      JoinOne([], text[..CHUNK_CHARS]);
      assert [] + [text[..CHUNK_CHARS]] == [text[..CHUNK_CHARS]];
    }
  }

  lemma {:induction false} TextOfOutputs(id: ExecId, pipe: Pipe, parts: seq<string>, pipe': Pipe)
    ensures Text(Outputs(id, pipe, parts), id, pipe') == if pipe == pipe' then Join(parts) else ""
    decreases |parts|
  {
    if parts == [] {
    } else {
      var n := |parts| - 1;
      assert Outputs(id, pipe, parts)[..n] == Outputs(id, pipe, parts[..n]);
      TextOfOutputs(id, pipe, parts[..n], pipe');
    }
  }

  lemma TextOfWhole(id: ExecId, pipe: Pipe, text: string, pipe': Pipe)
    ensures Text(Whole(id, pipe, text), id, pipe') == if pipe == pipe' then text else ""
  {
    if text != "" {
      TextOne([], Output(id, pipe, text), id, pipe');
      assert [] + [Output(id, pipe, text)] == Whole(id, pipe, text);
    }
  }

  /** A retry is told all of the output and then the exit, and a fetch the result. */
  lemma ReplyTells(id: ExecId, waiter: Waiter, r: ExecResult)
    ensures var reply := Reply(id, waiter, r);
            if waiter.Answer? then reply == [Found(id, r)]
            else
              var n := |reply| - 1;
              && n >= 0 && reply[n] == Exit(id, r.exitCode, r.timedOut, r.truncated)
              && (forall i :: 0 <= i < n ==> reply[i].Output? && reply[i].execId == id)
              && Text(reply[..n], id, Stdout) == r.stdout && Text(reply[..n], id, Stderr) == r.stderr
  {
    if waiter.Replay? {
      var out, err := Whole(id, Stdout, r.stdout), Whole(id, Stderr, r.stderr);
      var reply := Reply(id, waiter, r);
      assert reply[..|reply| - 1] == out + err;
      forall pipe: Pipe ensures Text(out + err, id, pipe) == if pipe == Stdout then r.stdout else r.stderr {
        TextAppend(out, err, id, pipe);
        TextOfWhole(id, Stdout, r.stdout, pipe);
        TextOfWhole(id, Stderr, r.stderr, pipe);
      }
    }
  }
}
