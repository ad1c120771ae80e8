// What Cancel stops: the scan in progress goes on, and no other scan begins.
module StageCancels {
  import opened Basics
  import opened Jobs
  import opened StageScheduler
  import opened StageRuns

  /** The stages that the scan in progress has still to visit, or is checking. */
  function Pending(pc: Pc): set<string> {
    match pc
    case Scanning(unvisited) => unvisited
    case Checking(n, _, _, rest) => {n} + rest
    case _ => {}
  }

  /** The tasks that have begun, and those that may begin although nobody polls again. */
  ghost function Begun(s: Sys): set<string> {
    Elems(s.ran) + Pending(s.pc)
  }

  // With the flag set, a poll ends the loop, so nothing is added to what may begin.
  lemma CanceledStep(g: Graph, fails: set<string>, s: Sys, a: Action)
    requires Enabled(g, fails, s, a) && s.cancelled
    ensures var s' := Apply(g, fails, s, a); s'.cancelled && s.ran <= s'.ran && Begun(s') <= Begun(s)
  {
  }

  lemma {:induction false} CanceledRun(g: Graph, fails: set<string>, s: Sys, run: seq<Action>, s': Sys)
    requires Reaches(g, fails, s, run, s') && s.cancelled
    ensures s'.cancelled && s.ran <= s'.ran && Begun(s') <= Begun(s)
    decreases |run|
  {
    if run != [] {
      CanceledStep(g, fails, s, run[0]);
      CanceledRun(g, fails, Apply(g, fails, s, run[0]), run[1..], s');
    }
  }

  /**
   * Once canceled, whatever the goroutines do: between two scans no task is started any more, and during a scan
   * only stages that it has still to visit, each once.
   */
  lemma CancelStops(g: Graph, fails: set<string>, s: Sys, run: seq<Action>, s': Sys)
    requires Inv(g, s) && s.cancelled && Reaches(g, fails, s, run, s')
    ensures s.ran <= s'.ran && NoDup(s'.ran)
    ensures forall i | |s.ran| <= i < |s'.ran| :: s'.ran[i] in Pending(s.pc)
    ensures !s.pc.Scanning? && !s.pc.Checking? ==> s'.ran == s.ran
  {
    hide Inv;
    CanceledRun(g, fails, s, run, s');
    RunKeepsInv(g, fails, s, run, s');
    InvMeans(g, s');
    forall i | |s.ran| <= i < |s'.ran| ensures s'.ran[i] in Pending(s.pc) {
      assert s'.ran[i] in Elems(s'.ran);
      assert forall k | 0 <= k < |s.ran| :: s.ran[k] == s'.ran[k] && s'.ran[k] != s'.ran[i];
    }
    if |s'.ran| > |s.ran| {
      assert s'.ran[|s.ran|] in Pending(s.pc);
    }
  }

  /** The flag is set by Cancel and by nothing else, and stays. */
  lemma {:induction false} CanceledIff(g: Graph, fails: set<string>, s: Sys, run: seq<Action>, s': Sys)
    requires Reaches(g, fails, s, run, s')
    ensures s'.cancelled <==> s.cancelled || Cancel in run
    decreases |run|
  {
    if run != [] {
      assert run == [run[0]] + run[1..];
      CanceledIff(g, fails, Apply(g, fails, s, run[0]), run[1..], s');
    }
  }

  /** A loop that begins canceled starts nothing, fails nothing and leaves every stage waiting. */
  lemma BeginsCanceled(g: Graph, fails: set<string>, run: seq<Action>, s: Sys)
    requires Closed(g) && Acyclic(g) && Reaches(g, fails, Init(g).(cancelled := true), run, s)
    ensures s.ran == [] && !s.lastErr && forall n | n in s.st :: s.st[n] == Stage(Waiting, Idle)
  {
    hide Inv;
    var s0 := Init(g).(cancelled := true);
    assert Inv(g, s0) by { CanceledInit(g); }
    CancelStops(g, fails, s0, run, s);
    RunKeepsInv(g, fails, s0, run, s);
    NothingBegun(g, s);
  }

  lemma CanceledInit(g: Graph)
    requires Closed(g)
    ensures Inv(g, Init(g).(cancelled := true))
  {
  }

  // Where nothing has run, nothing has failed, and in an acyclic graph nothing is canceled then.
  lemma NothingBegun(g: Graph, s: Sys)
    requires Inv(g, s) && Acyclic(g) && s.ran == []
    ensures !s.lastErr && forall n | n in s.st :: s.st[n] == Stage(Waiting, Idle)
  {
    hide Inv, StageInv;
    InvMeans(g, s);
    var t :| TaskOrder.IsTopological(g.deps, t);
    forall n | n in s.st ensures s.st[n] == Stage(Waiting, Idle) || s.st[n] == Stage(Canceled, Idle) {
      assert n !in s.ran;
      assert StageInv(g, s.st, n);
      IdleStatus(g, s.st, n);
    }
    if n :| n in s.st && s.st[n].status == Canceled {
      assert n in Elems(t);
      var k :| 0 <= k < |t| && t[k] == n;
      CanceledHasError(g, s, t, k);
      assert false;
    }
  }

  // ---------------------------------------------------------------------------------------------
  // The bound is met
  // ---------------------------------------------------------------------------------------------

  // The dependencies are read one after the other, and all of them pass.
  lemma {:induction false} ReadsPass(g: Graph, fails: set<string>, s: Sys) returns (run: seq<Action>)
    requires s.pc.Checking? && forall d | d in s.pc.unreadDeps :: d in s.st && Passes(g, d, s.st[d].status)
    ensures Reaches(g, fails, s, run + [Decide], Apply(g, fails, s.(pc := s.pc.(unreadDeps := {})), Decide))
    decreases s.pc.unreadDeps
  {
    if s.pc.unreadDeps == {} {
      run := [];
      assert s.(pc := s.pc.(unreadDeps := {})) == s;
      assert [] + [Decide] == [Decide] && [Decide][1..] == [];
    } else {
      var d :| d in s.pc.unreadDeps;
      var s1 := Apply(g, fails, s, ReadDep(d));
      var rest := ReadsPass(g, fails, s1);
      run := [ReadDep(d)] + rest;
      assert (run + [Decide])[1..] == rest + [Decide];
    }
  }

  /** A cancellation during a scan does not keep the scan from starting a stage whose dependencies have passed. */
  lemma PendingMayStart(g: Graph, fails: set<string>, s: Sys, n: string) returns (run: seq<Action>, s': Sys)
    requires Inv(g, s) && s.cancelled && s.pc.Scanning? && n in s.pc.unvisited && s.st[n].status == Waiting
    requires DependenciesPassed(g, s.st, n)
    ensures Reaches(g, fails, s, run, s') && s'.ran == s.ran + [n] && s'.cancelled
  {
    var s1 := Apply(g, fails, s, Visit(n));
    var rest := ReadsPass(g, fails, s1);
    run := [Visit(n)] + (rest + [Decide]);
    assert run[1..] == rest + [Decide];
    s' := Apply(g, fails, s1.(pc := s1.pc.(unreadDeps := {})), Decide);
  }
}
