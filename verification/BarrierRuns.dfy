/** What the group-commit rounds guarantee in every run: order of the phases, messages of the own round only, and no
    deadlock. */
module BarrierRuns {
  import opened Barrier

  ghost predicate IsRun(run: seq<State>, acts: seq<Action>) {
    && |run| == |acts| + 1 && Init(run[0])
    && (forall i {:trigger acts[i]} :: 0 <= i < |acts| ==> Can(run[i], acts[i]) && run[i + 1] == After(run[i], acts[i]))
  }

  lemma {:induction false} RunInv(run: seq<State>, acts: seq<Action>, n: nat)
    requires IsRun(run, acts) && n < |run|
    ensures Inv(run[n])
  {
    if n == 0 {
      InitInv(run[0]);
    } else {
      RunInv(run, acts, n - 1);
      assert Can(run[n - 1], acts[n - 1]);
      StepInv(run[n - 1], acts[n - 1]);
    }
  }

  /** A coordinator whose workers have all stopped in round `r`, and not begun another. */
  ghost predicate StoppedIn(m: Mgr, r: nat) {
    m.round == r && In(m.workers, {WaitCleanup, Cleaning, WaitStart}) && m.status != START
      && (Stage(m.pc) >= 3 || m.pc == WaitSignal)
  }

  /** When a coordinator sets CLEANUP, the workers of every coordinator have stopped in the same round. */
  lemma CleanupAfterAllStopped(run: seq<State>, acts: seq<Action>, n: nat, c: nat, d: nat)
    requires IsRun(run, acts) && n < |run| && c < |run[n].mgrs| && d < |run[n].mgrs| && Stage(run[n].mgrs[c].pc) == 5
    ensures StoppedIn(run[n].mgrs[d], run[n].mgrs[c].round)
  {
    var s := run[n];
    RunInv(run, acts, n);
    InRound(s, c);
    HeardAll(s, c);
    assert MemberOk(s, d) && (d != c ==> HasSent(s, d, c));
  }

  /** When coordinator 0 begins the next round, every coordinator has finished the cleanup of the last one, every worker
      waits for the next start, and no message is on its way. */
  lemma StartAfterAllCleaned(run: seq<State>, acts: seq<Action>, n: nat, d: nat)
    requires IsRun(run, acts) && n < |run| && d < |run[n].mgrs| && run[n].mgrs[0].pc == Top
    ensures run[n].mgrs[d].round == run[n].mgrs[0].round && In(run[n].mgrs[d].workers, {WaitStart})
      && (d > 0 ==> run[n].mgrs[d].pc == WaitSignal)
    ensures run[n].stops == {} && run[n].acks == {} && run[n].signals == {}
  {
    RunInv(run, acts, n);
    assert MemberOk(run[n], d) && (d > 0 ==> Over(run[n], d));
  }

  /** Counting never mixes rounds: a message that is taken belongs to the taker's round, and nobody's is counted
      twice. */
  lemma OwnRoundOnly(run: seq<State>, acts: seq<Action>, n: nat)
    requires IsRun(run, acts) && n < |acts|
    ensures match acts[n]
            case TakeStop(x) =>
              x.to < |run[n].mgrs| && x.round == run[n].mgrs[x.to].round && x.from != x.to
              && x.from !in run[n].mgrs[x.to].heard
            case TakeAck(x) => |run[n].mgrs| > 0 && x.round == run[n].mgrs[0].round && x.from !in run[n].mgrs[0].acked
            case TakeSignal(x) =>
              x.to < |run[n].mgrs| && (x.status == START || x.status == EXIT)
              && x.round == run[n].mgrs[x.to].round + (if x.status == START then 1 else 0)
            case _ => true
  {
    var s := run[n];
    RunInv(run, acts, n);
    assert Can(s, acts[n]);
    match acts[n]
    case TakeStop(x) => InRound(s, x.to); assert StopOk(s, x);
    case _ =>
  }

  // ----- no deadlock -----

  ghost predicate Moves(s: State, a: Action) {
    Can(s, a) && After(s, a) != s
  }

  ghost predicate Live(s: State) {
    exists a :: Moves(s, a)
  }

  lemma {:induction false} FindOther(ws: seq<WorkerPc>, x: WorkerPc) returns (i: nat)
    requires Count(ws, x) < |ws|
    ensures i < |ws| && ws[i] != x
  {
    if ws[0] != x {
      i := 0;
    } else {
      var j := FindOther(ws[1..], x);
      i := j + 1;
    }
  }

  lemma WorkerMoves(s: State, c: nat, i: nat)
    requires c < |s.mgrs| && i < |s.mgrs[c].workers| && WorkerStep(s.mgrs[c], i).workers[i] != s.mgrs[c].workers[i]
    ensures Live(s)
  {
    var t := After(s, Work(c, i));
    assert t.mgrs[c].workers[i] != s.mgrs[c].workers[i];
    assert Moves(s, Work(c, i));
  }

  /** A coordinator that does not wait for a message moves, or one of its workers does. */
  lemma TeamLive(s: State, c: nat)
    requires Inv(s) && c < |s.mgrs|
    requires Passes(s, c) || s.mgrs[c].pc.WaitStarted? || s.mgrs[c].pc.WaitStopped? || s.mgrs[c].pc.WaitCleaned?
    ensures Live(s)
  {
    var m := s.mgrs[c];
    assert MemberOk(s, c);
    if Passes(s, c) {
      assert After(s, Manage(c)).mgrs[c].pc != m.pc;
      assert Moves(s, Manage(c));
    } else {
      var x := match m.pc case WaitStarted => Running case WaitStopped => WaitCleanup case _ => WaitStart;
      var i := FindOther(m.workers, x);
      assert m.workers[i] == m.workers[i];
      WorkerMoves(s, c, i);
    }
  }

  lemma SignalLive(s: State, d: nat)
    requires Inv(s) && Stage(s.mgrs[0].pc) >= 2 && 0 < d < |s.mgrs| && NotYet(s, d)
    ensures Live(s)
  {
    var x := Signal(d, START, R(s));
    assert x in s.signals && Can(s, TakeSignal(x));
    assert x !in After(s, TakeSignal(x)).signals;
    assert Moves(s, TakeSignal(x));
  }

  lemma StopLive(s: State, c: nat, d: nat)
    requires Inv(s) && Stage(s.mgrs[0].pc) > 0 && c < |s.mgrs| && d < |s.mgrs| && c != d && HasSent(s, c, d)
      && c !in HeardNow(s, d)
    requires s.mgrs[d].pc == WaitFirstStop || (s.mgrs[d].pc == WaitStops && !Passes(s, d))
    ensures Live(s)
  {
    var x := Stop(d, c, R(s));
    assert x in s.stops && Can(s, TakeStop(x));
    assert x !in After(s, TakeStop(x)).stops;
    assert Moves(s, TakeStop(x));
  }

  /** Coordinator 0 has sent its STOPs: whoever has not sent theirs can still get there. */
  lemma LaggardLive(s: State, c: nat, d: nat)
    requires Inv(s) && Stage(s.mgrs[0].pc) >= 4 && 0 < c < |s.mgrs| && !HasSent(s, c, d)
    ensures Live(s)
  {
    assert MemberOk(s, c);
    if NotYet(s, c) {
      SignalLive(s, c);
    } else {
      assert s.mgrs[c].round == R(s) && s.mgrs[c].pc != Done;
      if s.mgrs[c].pc == WaitFirstStop {
        assert TallyOk(s, c);
        StopLive(s, 0, c);
      } else {
        TeamLive(s, c);
      }
    }
  }

  lemma Missing(x: set<nat>, y: set<nat>) returns (c: nat)
    requires |x| < |y|
    ensures c in y && c !in x
  {
    assert x == (y * x) + (x - y) && y == (y * x) + (y - x);
    c :| c in y - x;
  }

  /** A coordinator still waiting for a STOP: one is there, or its sender can still get there. */
  lemma StopsLive(s: State, d: nat)
    requires Inv(s) && Stage(s.mgrs[0].pc) >= 4 && d < |s.mgrs| && s.mgrs[d].pc == WaitStops && !Passes(s, d)
    ensures Live(s)
  {
    InRound(s, d);
    assert TallyOk(s, d);
    var others := Others(|s.mgrs|, d);
    var heard := s.mgrs[d].heard;
    assert |others| == |s.mgrs| - 1 > |heard|;
    var c := Missing(heard, others);
    assert c !in HeardNow(s, d);
    if HasSent(s, c, d) {
      StopLive(s, c, d);
    } else {
      LaggardLive(s, c, d);
    }
  }

  lemma AcksLive(s: State)
    requires Inv(s) && s.mgrs[0].pc == WaitAcks && !Passes(s, 0)
    ensures Live(s)
  {
    var others, acked := Others(|s.mgrs|, 0), s.mgrs[0].acked;
    assert |others| == |s.mgrs| - 1 > |acked|;
    var d := Missing(acked, others);
    FollowerLive(s, d);
  }

  lemma FollowerLive(s: State, d: nat)
    requires Inv(s) && s.mgrs[0].pc == WaitAcks && !Passes(s, 0) && 0 < d < |s.mgrs| && d !in s.mgrs[0].acked
    ensures Live(s)
  {
    assert MemberOk(s, d);
    if Over(s, d) {
      var x := Ack(d, R(s));
      assert x in s.acks && Can(s, TakeAck(x));
      assert x !in After(s, TakeAck(x)).acks;
      assert Moves(s, TakeAck(x));
    } else if NotYet(s, d) {
      SignalLive(s, d);
    } else {
      assert s.mgrs[d].pc != Done && s.mgrs[d].round == R(s);
      if !HasSent(s, d, 0) {
        LaggardLive(s, d, 0);
      } else if s.mgrs[d].pc == WaitStops && !Passes(s, d) {
        StopsLive(s, d);
      } else {
        TeamLive(s, d);
      }
    }
  }

  lemma LeavingLive(s: State, d: nat)
    requires Inv(s) && s.mgrs[0].pc == Done && 0 < d < |s.mgrs| && s.mgrs[d].pc != Done
    ensures Live(s)
  {
    assert Over(s, d);
    var x := Signal(d, EXIT, R(s));
    assert x in s.signals && Can(s, TakeSignal(x));
    assert x !in After(s, TakeSignal(x)).signals;
    assert Moves(s, TakeSignal(x));
  }

  /** In every reachable state in which some coordinator has not exited, something can move. */
  lemma NoDeadlock(run: seq<State>, acts: seq<Action>, n: nat, d: nat)
    requires IsRun(run, acts) && n < |run| && d < |run[n].mgrs| && run[n].mgrs[d].pc != Done
    ensures Live(run[n])
  {
    var s := run[n];
    RunInv(run, acts, n);
    assert MemberOk(s, 0);
    if s.mgrs[0].pc == Done {
      LeavingLive(s, d);
    } else if s.mgrs[0].pc == WaitStops && !Passes(s, 0) {
      StopsLive(s, 0);
    } else if s.mgrs[0].pc == WaitAcks && !Passes(s, 0) {
      AcksLive(s);
    } else {
      TeamLive(s, 0);
    }
  }
}
