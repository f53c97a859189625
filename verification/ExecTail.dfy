/** A run in which a caller is told only the end of a command's output, step by step. */
module ExecTail {
  import opened Wrappers
  import opened Bytes
  import opened Execs
  import opened Executor
  import opened Reports
  import opened ExecSystem

  /** Two bytes come out one by one: the first is read as A, the second as B. */
  function AB(): Decoder {
    Decoder((kept, chunk) => if kept == [] then "A" else "B", kept => "")
  }

  /** The gateway gives up on a command after its first output, and is asked for it again on the same socket. */
  function TailSteps(): seq<Step> {
    [Connect(US, 0), Asks(0, US, Exec(7, "", 0)), VmTakes(0), VmPumps(7, Stdout, [65]), Deliver, Timeout(7),
     Asks(1, US, Exec(7, "", 0)), VmPumps(7, Stdout, [66]), VmPipeEnds(7, Stdout), VmPipeEnds(7, Stderr), VmExits(7, 0, 0),
     Deliver, Deliver]
  }

  function TailState(k: nat): System {
    var exec, empty := Exec(7, "", 0), Piped([], "", false);
    var first := Ask(US, 7, false);
    var g1 := Gateway(map[], map[], map[], map[US := 0], map[]);
    var g2 := Gateway(map[7 := Pending(US, [], [], false, [0])], map[0 := first], map[0 := Waiting], map[US := 0], map[0 := [exec]]);
    var g6 := g2.(pending := map[], outcomes := map[0 := Rejected(Unreachable)]);
    var g7 := Gateway(map[7 := Pending(US, [], [], false, [1])], map[0 := first, 1 := first],
                      map[0 := Rejected(Unreachable), 1 := Waiting], map[US := 0], map[0 := [exec, exec]]);
    var r := Record(0, 0, empty, empty, -1, false, false, false, []);
    var vm3 := Vm(map[7 := r], map[], [7], [], []);
    var vm4 := vm3.(results := map[7 := r.(stdout := Piped([65], "A", false))], log := map[0 := [Output(7, Stdout, "A")]]);
    var two := [Output(7, Stdout, "A"), Output(7, Stdout, "B")];
    var out := Piped([65, 66], "AB", true);
    var r' := r.(stdout := out, stderr := empty.(ended := true));
    var vm8 := vm3.(results := map[7 := r.(stdout := out.(ended := false))], log := map[0 := two]);
    var vm11 := vm8.(results := map[7 := r'.(exitCode := 0, done := true)], log := map[0 := two + [Exit(7, 0, false, false)]],
                     recorded := [(7, ExecResult("AB", "", 0, false, false))]);
    var s1 := System(g1, Vm(map[], map[], [], [], []), {0}, {0}, map[], {}, map[], map[], map[]);
    var s3 := s1.(g := g2, vm := vm3, taken := map[0 := 1], known := {(0, 7)}, heads := map[7 := NOTHING]);
    var s7 := s3.(g := g7, vm := vm4, heard := map[0 := 1], heads := map[7 := Head("A", "")]);
    var s11 := s7.(vm := vm11);
    match k
    case 0 => Start()
    case 1 => s1
    case 2 => s1.(g := g2, heads := map[7 := NOTHING])
    case 3 => s3
    case 4 => s3.(vm := vm4)
    case 5 => s3.(g := g2.(pending := map[7 := Pending(US, ["A"], [], false, [0])]), vm := vm4, heard := map[0 := 1])
    case 6 => s3.(g := g6, vm := vm4, heard := map[0 := 1])
    case 7 => s7
    case 8 => s7.(vm := vm8)
    case 9 => s7.(vm := vm8.(results := map[7 := r.(stdout := out)]))
    case 10 => s7.(vm := vm8.(results := map[7 := r']))
    case 11 => s11
    case 12 => s11.(g := g7.(pending := map[7 := Pending(US, ["B"], [], false, [1])]), heard := map[0 := 2])
    case _ =>
      s11.(g := g7.(pending := map[], outcomes := map[0 := Rejected(Unreachable), 1 := Resolved(Some(ExecResult("B", "", 0, false, false)))]),
           heard := map[0 := 3], missed := map[1 := Head("A", "")])
  }

  ghost predicate TailLeads(k: nat)
    requires k < 13
  {
    Allowed(TailState(k), TailSteps()[k]) && Next(TailState(k), TailSteps()[k], AB()) == TailState(k + 1)
  }

  lemma TailAsks()
    ensures TailLeads(1)
  {
    assert [] + [Exec(7, "", 0)] == [Exec(7, "", 0)];
  }

  lemma TailHead()
    ensures Heard(TailState(6)) == [Output(7, Stdout, "A")] && HeadOf([Output(7, Stdout, "A")], 7) == Head("A", "")
  {
    var a := Output(7, Stdout, "A");
    SinceOne([], a, 7, Stdout);
    SinceOne([], a, 7, Stderr);
    assert [] + [a] == [a] && "" + "A" == "A";
    hide Since;
  }

  lemma TailAsksAgain()
    ensures TailLeads(6)
  {
    TailHead();
    hide HeadOf, Heard;
    assert [Exec(7, "", 0)] + [Exec(7, "", 0)] == [Exec(7, "", 0), Exec(7, "", 0)];
  }

  lemma TailPumps()
    ensures TailLeads(3)
  {
    var a, none: Bytes, x: Bytes := Output(7, Stdout, "A"), [], [65];
    assert Outputs(7, Stdout, Slices("A")) == [a] && "" + "A" == "A" && [] + [a] == [a] && none + x == [65];
    hide Outputs, Slices;
  }

  lemma TailPumpsAgain()
    ensures TailLeads(7)
  {
    var a, b, x: Bytes, y: Bytes := Output(7, Stdout, "A"), Output(7, Stdout, "B"), [65], [66];
    assert Outputs(7, Stdout, Slices("B")) == [b] && "A" + "B" == "AB" && [a] + [b] == [a, b] && x + y == [65, 66];
    hide Outputs, Slices;
  }

  lemma TailEnds()
    ensures TailLeads(8)
  {
    var two := [Output(7, Stdout, "A"), Output(7, Stdout, "B")];
    assert two + [] == two && "AB" + "" == "AB";
  }

  lemma TailErrEnds()
    ensures TailLeads(9)
  {
    var two := [Output(7, Stdout, "A"), Output(7, Stdout, "B")];
    assert two + [] == two && "" + "" == "";
  }

  lemma TailHears()
    ensures TailLeads(4)
  {
    assert [] + ["A"] == ["A"];
    hide Join, Since, HeadOf;
  }

  lemma TailHearsAgain()
    ensures TailLeads(11)
  {
    assert [] + ["B"] == ["B"];
    hide Join, Since, HeadOf;
  }

  lemma TailText()
    ensures Join(["B"]) == "B" && Join([]) == ""
  {
    JoinOne([], "B");
    assert [] + ["B"] == ["B"] && "" + "B" == "B";
  }

  lemma TailHearsExit()
    ensures TailLeads(12)
  {
    TailText();
    hide Join, Since, HeadOf;
  }

  lemma TailConnects()
    ensures TailLeads(0)
  {
  }

  lemma TailTakes()
    ensures TailLeads(2)
  {
  }

  lemma TailGivesUp()
    ensures TailLeads(5)
  {
  }

  lemma TailExits()
    ensures TailLeads(10)
  {
  }

  lemma TailStep(k: nat)
    requires k < 13
    ensures TailLeads(k)
  {
    hide TailLeads;
    match k
    case 0 => TailConnects();
    case 1 => TailAsks();
    case 2 => TailTakes();
    case 3 => TailPumps();
    case 4 => TailHears();
    case 5 => TailGivesUp();
    case 6 => TailAsksAgain();
    case 7 => TailPumpsAgain();
    case 8 => TailEnds();
    case 9 => TailErrEnds();
    case 10 => TailExits();
    case 11 => TailHearsAgain();
    case 12 => TailHearsExit();
  }

  /** A call that is told "B" while "AB" was recorded. */
  lemma OnlyTheTail() returns (steps: seq<Step>, c: Call)
    ensures Legal(Start(), steps, AB())
    ensures var s := After(Start(), steps, AB());
            && s.vm.recorded == [(7, ExecResult("AB", "", 0, false, false))]
            && c in s.g.outcomes && c in s.g.asks && s.g.asks[c] == Ask(US, 7, false)
            && s.g.outcomes[c] == Resolved(Some(ExecResult("B", "", 0, false, false)))
            && MissedOf(s.missed, c) == Head("A", "")
  {
    steps, c := [], 1;
    for k := 13 downto 0
      invariant Legal(TailState(k), steps, AB()) && After(TailState(k), steps, AB()) == TailState(13)
    {
      TailStep(k);
      hide TailState, TailSteps, Allowed, Next, AB;
      Prepend(TailState(k), TailSteps()[k], steps, AB());
      steps := [TailSteps()[k]] + steps;
    }
    assert TailState(0) == Start();
  }
}
