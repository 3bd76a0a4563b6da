/** Group-commit rounds: coordinator 0 and the other coordinators run rounds of start, stop and cleanup, counting
    anonymous STOP and ACK messages; the workers of every coordinator poll its status and bump shared counters.
    One step is one atomic access or one message sent or taken; messages may be taken in any order. */
module Barrier {

  datatype Status = START | STOP | CLEANUP | EXIT

  datatype WorkerPc = WaitStart | Begin | Running | Stopping | WaitCleanup | Cleaning | Gone

  datatype Pc =
    | Top
    | WaitSignal
    | ResetStarted
    | ResetCompleted
    | SetStart
    | SendSignal(j: nat)
    | WaitStarted
    | WaitFirstStop
    | SetStop
    | WaitStopped
    | SendStop(j: nat)
    | WaitStops
    | ResetAgain
    | SetCleanup
    | WaitCleaned
    | WaitAcks
    | SendAck
    | SetExit
    | SendExit(j: nat)
    | Done

  /** A coordinator.  `got` is the loop counter of the current wait; `round` and `heard` are auxiliary: the rounds begun
      so far and the senders whose STOP (at the end of the round of coordinator 0, whose ACK) has been taken. */
  datatype Mgr = Mgr(pc: Pc, status: Status, started: nat, completed: nat, got: nat, workers: seq<WorkerPc>,
                     round: nat, heard: set<nat>, acked: set<nat>)

  /** Messages carry no sender and no round; both are auxiliary tags. */
  datatype Stop = Stop(to: nat, from: nat, round: nat)
  datatype Ack = Ack(from: nat, round: nat)
  datatype Signal = Signal(to: nat, status: Status, round: nat)

  datatype State = State(mgrs: seq<Mgr>, workers: nat, stops: set<Stop>, acks: set<Ack>, signals: set<Signal>)

  datatype Action =
    | Manage(c: nat)
    | Quit
    | TakeSignal(sig: Signal)
    | TakeStop(stop: Stop)
    | TakeAck(ack: Ack)
    | Work(c: nat, i: nat)

  // ----- a worker's polling loop -----

  function WorkerStep(m: Mgr, i: nat): Mgr
    requires i < |m.workers|
  {
    match m.workers[i]
    case WaitStart =>
      if m.status == START then m.(workers := m.workers[i := Begin])
      else if m.status == EXIT then m.(workers := m.workers[i := Gone]) else m
    case Begin => m.(started := m.started + 1, workers := m.workers[i := Running])
    case Running => if m.status == STOP then m.(workers := m.workers[i := Stopping]) else m
    case Stopping => m.(completed := m.completed + 1, workers := m.workers[i := WaitCleanup])
    case WaitCleanup => if m.status == CLEANUP then m.(workers := m.workers[i := Cleaning]) else m
    case Cleaning => m.(completed := m.completed + 1, workers := m.workers[i := WaitStart])
    case Gone => m
  }

  // ----- a coordinator's steps that take no message -----

  /** A wait for the workers' counter lets the coordinator pass once all have counted. */
  predicate Passes(s: State, c: nat)
    requires c < |s.mgrs|
  {
    var m := s.mgrs[c];
    match m.pc
    case WaitStarted => m.started >= s.workers
    case WaitStopped => m.completed >= s.workers
    case WaitCleaned => m.completed >= s.workers
    case WaitStops => m.got >= StopsAwaited(s, c)
    case WaitAcks => m.got >= |s.mgrs| - 1
    case WaitSignal => false
    case WaitFirstStop => false
    case Done => false
    case _ => true
  }

  /** Coordinator 0 waits for everyone else's STOP; another one has taken one of them before. */
  function StopsAwaited(s: State, c: nat): int {
    if c == 0 then |s.mgrs| - 1 else |s.mgrs| - 2
  }

  function NextMgr(s: State, c: nat): Mgr
    requires c < |s.mgrs|
  {
    var m := s.mgrs[c];
    match m.pc
    case Top => m.(pc := ResetStarted, round := m.round + 1, heard := {}, acked := {})
    case ResetStarted => m.(started := 0, pc := if c == 0 then ResetCompleted else SetStart)
    case ResetCompleted => m.(completed := 0, pc := if c == 0 then SetStart else ResetStarted)
    case SetStart => m.(status := START, pc := if c == 0 then SendSignal(0) else WaitStarted)
    case SendSignal(j) => m.(pc := if j < |s.mgrs| then SendSignal(j + 1) else WaitStarted)
    case WaitStarted => m.(pc := if c == 0 then SetStop else WaitFirstStop)
    case SetStop => m.(status := STOP, pc := WaitStopped)
    case WaitStopped => m.(pc := SendStop(0))
    case SendStop(j) => if j < |s.mgrs| then m.(pc := SendStop(j + 1)) else m.(pc := WaitStops, got := 0)
    case WaitStops => m.(pc := ResetAgain)
    case ResetAgain => m.(completed := 0, pc := SetCleanup)
    case SetCleanup => m.(status := CLEANUP, pc := WaitCleaned)
    case WaitCleaned => if c == 0 then m.(pc := WaitAcks, got := 0) else m.(pc := SendAck)
    case WaitAcks => m.(pc := Top)
    case SendAck => m.(pc := WaitSignal)
    case SetExit => m.(status := EXIT, pc := SendExit(0))
    case SendExit(j) => m.(pc := if j < |s.mgrs| then SendExit(j + 1) else Done)
    case _ => m
  }

  function Sends(s: State, c: nat): State
    requires c < |s.mgrs|
  {
    var m := s.mgrs[c];
    match m.pc
    case SendSignal(j) => if j < |s.mgrs| && j != c then s.(signals := s.signals + {Signal(j, START, m.round)}) else s
    case SendExit(j) => if j < |s.mgrs| && j != c then s.(signals := s.signals + {Signal(j, EXIT, m.round)}) else s
    case SendStop(j) => if j < |s.mgrs| && j != c then s.(stops := s.stops + {Stop(j, c, m.round)}) else s
    case SendAck => s.(acks := s.acks + {Ack(c, m.round)})
    case _ => s
  }

  ghost predicate Can(s: State, a: Action) {
    match a
    case Manage(c) => c < |s.mgrs| && Passes(s, c)
    case Quit => |s.mgrs| > 0 && s.mgrs[0].pc == Top
    case TakeSignal(x) => x in s.signals && x.to < |s.mgrs| && s.mgrs[x.to].pc == WaitSignal
    case TakeStop(x) =>
      x in s.stops && x.to < |s.mgrs|
      && (s.mgrs[x.to].pc == WaitFirstStop || (s.mgrs[x.to].pc == WaitStops && !Passes(s, x.to)))
    case TakeAck(x) => x in s.acks && |s.mgrs| > 0 && s.mgrs[0].pc == WaitAcks && !Passes(s, 0)
    case Work(c, i) => c < |s.mgrs| && i < |s.mgrs[c].workers|
  }

  function SetMgr(s: State, c: nat, m: Mgr): State
    requires c < |s.mgrs|
  {
    s.(mgrs := s.mgrs[c := m])
  }

  ghost function After(s: State, a: Action): State
    requires Can(s, a)
  {
    match a
    case Manage(c) => SetMgr(Sends(s, c), c, NextMgr(s, c))
    case Quit => SetMgr(s, 0, s.mgrs[0].(pc := SetExit))
    case TakeSignal(x) =>
      var m := s.mgrs[x.to];
      SetMgr(s.(signals := s.signals - {x}), x.to,
             if x.status == EXIT then m.(status := EXIT, pc := Done)
             else m.(pc := ResetCompleted, round := m.round + 1, heard := {}))
    case TakeStop(x) =>
      var m := s.mgrs[x.to];
      SetMgr(s.(stops := s.stops - {x}), x.to,
             m.(heard := m.heard + {x.from}, pc := if m.pc == WaitFirstStop then SetStop else m.pc,
                got := if m.pc == WaitFirstStop then m.got else m.got + 1))
    case TakeAck(x) =>
      SetMgr(s.(acks := s.acks - {x}), 0, s.mgrs[0].(acked := s.mgrs[0].acked + {x.from}, got := s.mgrs[0].got + 1))
    case Work(c, i) => SetMgr(s, c, WorkerStep(s.mgrs[c], i))
  }

  ghost predicate Init(s: State) {
    && |s.mgrs| > 0 && s.stops == {} && s.acks == {} && s.signals == {}
    && (forall c :: 0 <= c < |s.mgrs| ==>
          s.mgrs[c] ==
            Mgr(if c == 0 then Top else WaitSignal, STOP, 0, 0, 0, seq(s.workers, _ => WaitStart), 0, {}, {}))
  }

  // ----- the workers of one coordinator -----

  ghost predicate In(ws: seq<WorkerPc>, allowed: set<WorkerPc>) {
    forall i :: 0 <= i < |ws| ==> ws[i] in allowed
  }

  function Count(ws: seq<WorkerPc>, x: WorkerPc): nat {
    if ws == [] then 0 else (if ws[0] == x then 1 else 0) + Count(ws[1..], x)
  }

  /** How the workers stand when the coordinator is at a given point, and what its counters count. */
  ghost predicate TeamOk(m: Mgr, n: nat, lead: bool) {
    && |m.workers| == n
    && match m.pc
       case SendSignal(_) =>
         m.status == START && In(m.workers, {WaitStart, Begin, Running}) && m.started == Count(m.workers, Running)
         && m.completed == 0
       case WaitStarted =>
         m.status == START && In(m.workers, {WaitStart, Begin, Running}) && m.started == Count(m.workers, Running)
         && m.completed == 0
       case SetStart =>
         m.status != START && m.status != EXIT && In(m.workers, {WaitStart}) && m.started == 0 && m.completed == 0
       case ResetStarted =>
         m.status != START && m.status != EXIT && In(m.workers, {WaitStart}) && (lead || m.completed == 0)
       case ResetCompleted =>
         m.status != START && m.status != EXIT && In(m.workers, {WaitStart}) && (lead ==> m.started == 0)
       case Top => m.status != START && m.status != EXIT && In(m.workers, {WaitStart})
       case WaitSignal => m.status != START && m.status != EXIT && In(m.workers, {WaitStart})
       case WaitFirstStop => m.status == START && In(m.workers, {Running}) && m.completed == 0
       case SetStop => m.status == START && In(m.workers, {Running}) && m.completed == 0
       case WaitStopped =>
         m.status == STOP && In(m.workers, {Running, Stopping, WaitCleanup})
         && m.completed == Count(m.workers, WaitCleanup)
       case SendStop(_) => m.status == STOP && In(m.workers, {WaitCleanup})
       case WaitStops => m.status == STOP && In(m.workers, {WaitCleanup})
       case ResetAgain => m.status == STOP && In(m.workers, {WaitCleanup})
       case SetCleanup => m.status == STOP && In(m.workers, {WaitCleanup}) && m.completed == 0
       case WaitCleaned =>
         m.status == CLEANUP && In(m.workers, {WaitCleanup, Cleaning, WaitStart})
         && m.completed == Count(m.workers, WaitStart)
       case WaitAcks => m.status == CLEANUP && In(m.workers, {WaitStart})
       case SendAck => m.status == CLEANUP && In(m.workers, {WaitStart})
       case SetExit => m.status != START && m.status != EXIT && In(m.workers, {WaitStart})
       case SendExit(_) => m.status == EXIT && In(m.workers, {WaitStart, Gone})
       case Done => m.status == EXIT && In(m.workers, {WaitStart, Gone})
  }

  lemma {:induction false} CountSet(ws: seq<WorkerPc>, i: nat, y: WorkerPc, x: WorkerPc)
    requires i < |ws|
    ensures Count(ws[i := y], x) == Count(ws, x) - (if ws[i] == x then 1 else 0) + (if y == x then 1 else 0)
    decreases |ws|
  {
    if i == 0 {
      assert ws[i := y][1..] == ws[1..];
    } else {
      assert ws[i := y][1..] == ws[1..][i - 1 := y];
      CountSet(ws[1..], i - 1, y, x);
    }
  }

  lemma {:induction false} CountAll(ws: seq<WorkerPc>, x: WorkerPc)
    ensures Count(ws, x) <= |ws|
    ensures Count(ws, x) == |ws| ==> In(ws, {x})
    ensures In(ws, {x}) ==> Count(ws, x) == |ws|
    ensures (forall i :: 0 <= i < |ws| ==> ws[i] != x) ==> Count(ws, x) == 0
  {
    if ws != [] {
      CountAll(ws[1..], x);
      assert forall i :: 1 <= i < |ws| ==> ws[i] == ws[1..][i - 1];
      assert In(ws, {x}) ==> In(ws[1..], {x});
      assert (forall i :: 0 <= i < |ws| ==> ws[i] != x) ==> forall i :: 0 <= i < |ws[1..]| ==> ws[1..][i] != x;
    }
  }

  lemma TeamWorks(m: Mgr, n: nat, lead: bool, i: nat)
    requires TeamOk(m, n, lead) && i < n
    ensures TeamOk(WorkerStep(m, i), n, lead)
    ensures var t := WorkerStep(m, i); t == m.(started := t.started, completed := t.completed, workers := t.workers)
  {
    forall y, x {:trigger Count(m.workers[i := y], x)}
      ensures Count(m.workers[i := y], x) ==
        Count(m.workers, x) - (if m.workers[i] == x then 1 else 0) + (if y == x then 1 else 0)
    {
      CountSet(m.workers, i, y, x);
    }
    assert m.workers[i] == m.workers[i];
  }

  lemma TeamMoves(s: State, c: nat)
    requires c < |s.mgrs| && TeamOk(s.mgrs[c], s.workers, c == 0) && Passes(s, c)
    requires c == 0 ==> !s.mgrs[c].pc.SendAck? && !s.mgrs[c].pc.WaitFirstStop?
    requires c != 0 ==> !s.mgrs[c].pc.Top? && !s.mgrs[c].pc.SendSignal? && !s.mgrs[c].pc.WaitAcks?
    ensures TeamOk(NextMgr(s, c), s.workers, c == 0)
  {
    var m := s.mgrs[c];
    forall x ensures Count(m.workers, x) <= |m.workers| && (Count(m.workers, x) == |m.workers| ==> In(m.workers, {x}))
                     && ((forall i :: 0 <= i < |m.workers| ==> m.workers[i] != x) ==> Count(m.workers, x) == 0) {
      CountAll(m.workers, x);
    }
  }

  // ----- the coordinators among each other -----

  function Stage(pc: Pc): nat {
    match pc
    case ResetStarted => 1
    case ResetCompleted => 1
    case SetStart => 1
    case SendSignal(_) => 1
    case WaitStarted => 1
    case WaitFirstStop => 1
    case SetStop => 2
    case WaitStopped => 2
    case SendStop(_) => 3
    case WaitStops => 4
    case ResetAgain => 5
    case SetCleanup => 5
    case WaitCleaned => 5
    case WaitAcks => 6
    case SendAck => 6
    case _ => 0
  }

  predicate RightPc(pc: Pc, lead: bool) {
    if lead then !pc.WaitSignal? && !pc.WaitFirstStop? && !pc.SendAck?
    else !pc.Top? && !pc.SendSignal? && !pc.WaitAcks? && !pc.SetExit? && !pc.SendExit?
  }

  /** The round of coordinator 0. */
  function R(s: State): nat
    requires |s.mgrs| > 0
  {
    s.mgrs[0].round
  }

  /** Coordinator `d` has not begun the round yet. */
  predicate NotYet(s: State, d: nat)
    requires |s.mgrs| > 0 && d < |s.mgrs|
  {
    s.mgrs[d].round + 1 == R(s) && s.mgrs[d].pc == WaitSignal
  }

  /** Coordinator `d` has finished the round. */
  predicate Over(s: State, d: nat)
    requires |s.mgrs| > 0 && d < |s.mgrs|
  {
    s.mgrs[d].round == R(s) && s.mgrs[d].pc == WaitSignal
  }

  predicate Signalled(s: State, d: nat)
    requires |s.mgrs| > 0
  {
    var pc := s.mgrs[0].pc;
    (pc.SendSignal? && d < pc.j) || pc.WaitStarted? || Stage(pc) >= 2
  }

  /** Coordinator `c` has sent its STOP of this round to `d`. */
  predicate HasSent(s: State, c: nat, d: nat)
    requires |s.mgrs| > 0 && c < |s.mgrs|
  {
    var m := s.mgrs[c];
    m.round == R(s) && ((m.pc.SendStop? && d < m.pc.j) || Stage(m.pc) >= 4 || m.pc == WaitSignal)
  }

  function HeardNow(s: State, d: nat): set<nat>
    requires |s.mgrs| > 0 && d < |s.mgrs|
  {
    if s.mgrs[d].round == R(s) then s.mgrs[d].heard else {}
  }

  /** A STOP on its way belongs to this round, was sent, and has not been taken. */
  ghost predicate StopOk(s: State, x: Stop)
    requires |s.mgrs| > 0
  {
    x.round == R(s) && x.to < |s.mgrs| && x.from < |s.mgrs| && x.to != x.from && HasSent(s, x.from, x.to)
      && x.from !in HeardNow(s, x.to)
  }

  ghost predicate StopsOk(s: State)
    requires |s.mgrs| > 0
  {
    && (forall x {:trigger x in s.stops} :: x in s.stops ==> StopOk(s, x))
    && (forall c, d {:trigger Stop(d, c, R(s)) in s.stops} {:trigger HasSent(s, c, d)} ::
       0 <= c < |s.mgrs| && 0 <= d < |s.mgrs| && c != d && HasSent(s, c, d) ==>
          Stop(d, c, R(s)) in s.stops || c in HeardNow(s, d))
    && (forall c, d {:trigger c in HeardNow(s, d)} ::
       0 <= d < |s.mgrs| && c in HeardNow(s, d) ==> c < |s.mgrs| && c != d && HasSent(s, c, d))
  }

  /** How many STOPs a coordinator in the round has taken. */
  ghost predicate TallyOk(s: State, d: nat)
    requires |s.mgrs| > 0 && d < |s.mgrs|
  {
    var m, first := s.mgrs[d], if d == 0 then 0 else 1;
    m.round == R(s) ==>
      if m.pc == WaitSignal || Stage(m.pc) >= 5 then |m.heard| == |s.mgrs| - 1
      else if Stage(m.pc) == 4 then |m.heard| == m.got + first && m.got <= StopsAwaited(s, d)
      else if Stage(m.pc) >= 2 then |m.heard| == first
      else m.heard == {}
  }

  /** Nobody stops before coordinator 0 has stopped. */
  ghost predicate LeadFirst(s: State, d: nat)
    requires 0 < d < |s.mgrs|
  {
    s.mgrs[d].round == R(s) && (Stage(s.mgrs[d].pc) >= 2 || s.mgrs[d].pc == WaitSignal) ==> Stage(s.mgrs[0].pc) >= 3
  }

  ghost predicate AcksOk(s: State)
    requires |s.mgrs| > 0
  {
    var acked := s.mgrs[0].acked;
    && (forall x {:trigger x in s.acks} ::
       x in s.acks ==> x.round == R(s) && 0 < x.from < |s.mgrs| && Over(s, x.from) && x.from !in acked)
    && (forall d {:trigger Over(s, d)} :: 0 < d < |s.mgrs| && Over(s, d) ==> Ack(d, R(s)) in s.acks || d in acked)
    && (forall d {:trigger d in acked} :: d in acked ==> 0 < d < |s.mgrs| && Over(s, d))
    && (if s.mgrs[0].pc == WaitAcks then s.mgrs[0].got == |acked| && |acked| <= |s.mgrs| - 1 else acked == {})
  }

  ghost predicate SignalsOk(s: State)
    requires |s.mgrs| > 0
  {
    && (forall x {:trigger x in s.signals} :: x in s.signals ==>
          x.status == START && x.round == R(s) && 0 < x.to < |s.mgrs| && NotYet(s, x.to) && Signalled(s, x.to))
    && (forall d {:trigger NotYet(s, d)} :: 0 < d < |s.mgrs| ==>
          if NotYet(s, d) then Signalled(s, d) ==> Signal(d, START, R(s)) in s.signals
          else s.mgrs[d].round == R(s) && Signalled(s, d) && s.mgrs[d].pc != Done)
  }

  ghost predicate RoundOk(s: State)
    requires |s.mgrs| > 0
  {
    && R(s) > 0 && StopsOk(s) && AcksOk(s) && SignalsOk(s)
    && (forall d {:trigger TallyOk(s, d)} :: 0 <= d < |s.mgrs| ==> TallyOk(s, d))
    && (forall d {:trigger LeadFirst(s, d)} :: 0 < d < |s.mgrs| ==> LeadFirst(s, d))
  }

  /** Between rounds: everyone is done and no message is on its way. */
  ghost predicate AtRest(s: State)
    requires |s.mgrs| > 0
  {
    && s.stops == {} && s.acks == {} && s.signals == {}
    && (forall d {:trigger Over(s, d)} :: 0 < d < |s.mgrs| ==> Over(s, d))
  }

  /** Coordinator 0 has told `d` to exit. */
  predicate Dismissed(s: State, d: nat)
    requires |s.mgrs| > 0
  {
    s.mgrs[0].pc.Done? || (s.mgrs[0].pc.SendExit? && d < s.mgrs[0].pc.j)
  }

  ghost predicate Leaving(s: State)
    requires |s.mgrs| > 0
  {
    && s.stops == {} && s.acks == {}
    && (forall x {:trigger x in s.signals} :: x in s.signals ==>
          x.status == EXIT && x.round == R(s) && 0 < x.to < |s.mgrs| && Over(s, x.to) && Dismissed(s, x.to))
    && (forall d {:trigger Over(s, d)} :: 0 < d < |s.mgrs| ==>
          if Over(s, d) then Dismissed(s, d) ==> Signal(d, EXIT, R(s)) in s.signals
            else s.mgrs[d].pc == Done && Dismissed(s, d))
  }

  ghost predicate MemberOk(s: State, c: nat)
    requires c < |s.mgrs|
  {
    RightPc(s.mgrs[c].pc, c == 0) && TeamOk(s.mgrs[c], s.workers, c == 0)
  }

  ghost predicate Teams(s: State) {
    forall c {:trigger MemberOk(s, c)} {:trigger s.mgrs[c]} :: 0 <= c < |s.mgrs| ==> MemberOk(s, c)
  }

  ghost predicate Inv(s: State) {
    && |s.mgrs| > 0 && Teams(s)
    && if Stage(s.mgrs[0].pc) > 0 then RoundOk(s) else if s.mgrs[0].pc == Top then AtRest(s) else Leaving(s)
  }

  lemma InitInv(s: State)
    requires Init(s)
    ensures Inv(s)
  {
    forall c | 0 <= c < |s.mgrs| ensures MemberOk(s, c) {
    }
  }

  // ----- workers and steps without messages -----

  /** What the coordinators' protocol sees of one of them. */
  predicate SameFace(a: Mgr, b: Mgr) {
    a.pc == b.pc && a.round == b.round && a.heard == b.heard && a.acked == b.acked && a.got == b.got
  }

  lemma WorkInv(s: State, c: nat, i: nat)
    requires Inv(s) && c < |s.mgrs| && i < |s.mgrs[c].workers|
    ensures Inv(After(s, Work(c, i)))
  {
    var t := After(s, Work(c, i));
    TeamWorks(s.mgrs[c], s.workers, c == 0, i);
    FaceInv(s, t);
  }

  /** A state that differs only in workers and counters. */
  lemma FaceInv(s: State, t: State)
    requires Inv(s) && |t.mgrs| == |s.mgrs| && t == s.(mgrs := t.mgrs)
    requires forall c {:trigger t.mgrs[c]} ::
      0 <= c < |s.mgrs| ==> SameFace(s.mgrs[c], t.mgrs[c]) && TeamOk(t.mgrs[c], s.workers, c == 0)
    ensures Inv(t)
  {
    assert forall c, d :: 0 <= c < |s.mgrs| ==> HasSent(t, c, d) == HasSent(s, c, d);
    assert forall d ::
      0 <= d < |s.mgrs| ==>
      HeardNow(t, d) == HeardNow(s, d) && NotYet(t, d) == NotYet(s, d) && Over(t, d) == Over(s, d);
    assert forall d :: Signalled(t, d) == Signalled(s, d);
    if Stage(s.mgrs[0].pc) > 0 {
      forall d | 0 <= d < |t.mgrs| ensures TallyOk(t, d) { assert TallyOk(s, d); }
      forall d | 0 < d < |t.mgrs| ensures LeadFirst(t, d) { assert LeadFirst(s, d); }
    }
  }

  /** One coordinator moves on within the round, and nothing that others rely on changes. */
  lemma QuietInv(s: State, c: nat, m: Mgr)
    requires Inv(s) && Stage(s.mgrs[0].pc) > 0 && c < |s.mgrs| && RightPc(m.pc, c == 0) && TeamOk(m, s.workers, c == 0)
    requires m.round == s.mgrs[c].round && m.heard == s.mgrs[c].heard && m.acked == s.mgrs[c].acked
    requires 0 < Stage(s.mgrs[c].pc) <= Stage(m.pc) && TallyOk(SetMgr(s, c, m), c)
    requires forall d :: HasSent(SetMgr(s, c, m), c, d) == HasSent(s, c, d)
    requires c == 0 ==>
      (forall d :: Signalled(SetMgr(s, c, m), d) == Signalled(s, d)) && !s.mgrs[0].pc.WaitAcks?
      && (m.pc.WaitAcks? ==> m.got == 0)
    requires c > 0 && Stage(m.pc) >= 2 ==> Stage(s.mgrs[c].pc) >= 2
    ensures Inv(SetMgr(s, c, m))
  {
    var t := SetMgr(s, c, m);
    assert forall a, d :: 0 <= a < |s.mgrs| ==> HasSent(t, a, d) == HasSent(s, a, d);
    assert forall d ::
      0 <= d < |s.mgrs| ==>
      HeardNow(t, d) == HeardNow(s, d) && NotYet(t, d) == NotYet(s, d) && Over(t, d) == Over(s, d);
    assert forall d :: Signalled(t, d) == Signalled(s, d);
    forall d | 0 <= d < |t.mgrs| ensures TallyOk(t, d) { assert TallyOk(s, d); }
    forall d | 0 < d < |t.mgrs| ensures LeadFirst(t, d) { assert LeadFirst(s, d); }
  }

  /** The tallies and the order of stopping, when one coordinator has moved. */
  lemma OthersKeep(s: State, t: State, c: nat)
    requires |s.mgrs| > 0 && RoundOk(s) && c < |s.mgrs| == |t.mgrs| && R(t) == R(s) && TallyOk(t, c)
    requires forall d {:trigger t.mgrs[d]} :: 0 <= d < |s.mgrs| && d != c ==> t.mgrs[d] == s.mgrs[d]
    requires if c > 0 then LeadFirst(t, c) else Stage(t.mgrs[0].pc) >= Stage(s.mgrs[0].pc)
    ensures forall d {:trigger TallyOk(t, d)} :: 0 <= d < |t.mgrs| ==> TallyOk(t, d)
    ensures forall d {:trigger LeadFirst(t, d)} :: 0 < d < |t.mgrs| ==> LeadFirst(t, d)
  {
    forall d | 0 <= d < |t.mgrs| ensures TallyOk(t, d) { assert TallyOk(s, d); }
    forall d | 0 < d < |t.mgrs| ensures LeadFirst(t, d) { assert LeadFirst(s, d); }
  }

  /** Acknowledgements and signals, when nobody has entered or left the round. */
  lemma MailKeeps(s: State, t: State)
    requires |s.mgrs| > 0 && RoundOk(s) && |s.mgrs| == |t.mgrs| && R(t) == R(s) && t.acks == s.acks
      && t.signals == s.signals
    requires forall d {:trigger t.mgrs[d]} :: 0 < d < |s.mgrs| ==>
               t.mgrs[d].round == s.mgrs[d].round && (t.mgrs[d].pc == WaitSignal) == (s.mgrs[d].pc == WaitSignal)
                 && t.mgrs[d].pc != Done
    requires forall d {:trigger Signalled(t, d)} :: Signalled(t, d) == Signalled(s, d)
    requires t.mgrs[0].acked == s.mgrs[0].acked && t.mgrs[0].pc.WaitAcks? == s.mgrs[0].pc.WaitAcks?
      && (t.mgrs[0].pc.WaitAcks? ==> t.mgrs[0].got == s.mgrs[0].got)
    ensures AcksOk(t) && SignalsOk(t)
  {
    assert forall d :: 0 < d < |s.mgrs| ==> NotYet(t, d) == NotYet(s, d) && Over(t, d) == Over(s, d);
  }

  predicate Quiet(pc: Pc) {
    match pc
    case ResetStarted => true
    case ResetCompleted => true
    case SetStart => true
    case WaitStarted => true
    case SetStop => true
    case WaitStopped => true
    case WaitStops => true
    case ResetAgain => true
    case SetCleanup => true
    case WaitCleaned => true
    case _ => false
  }

  lemma QuietStep(s: State, c: nat)
    requires Inv(s) && c < |s.mgrs| && Passes(s, c) && Quiet(s.mgrs[c].pc)
    ensures Inv(After(s, Manage(c)))
  {
    TeamMoves(s, c);
    InRound(s, c);
    assert TallyOk(s, c);
    assert Sends(s, c) == s;
    QuietInv(s, c, NextMgr(s, c));
  }

  /** Only while coordinator 0 is in a round is anyone else. */
  lemma InRound(s: State, c: nat)
    requires Inv(s) && c < |s.mgrs| && Stage(s.mgrs[c].pc) > 0
    ensures Stage(s.mgrs[0].pc) > 0 && s.mgrs[c].round == R(s)
  {
    var over, notYet := Over(s, c), NotYet(s, c);
  }

  // ----- a round begins -----

  lemma BeginRound(s: State)
    requires Inv(s) && s.mgrs[0].pc == Top
    ensures Inv(After(s, Manage(0)))
  {
    var t := After(s, Manage(0));
    TeamMoves(s, 0);
    assert Sends(s, 0) == s;
    forall d | 0 < d < |t.mgrs| ensures NotYet(t, d) && !Signalled(t, d) && !Over(t, d) { assert Over(s, d); }
    forall c, d | 0 <= c < |t.mgrs| && 0 <= d < |t.mgrs| ensures !HasSent(t, c, d) {
      if c > 0 { assert NotYet(t, c); }
    }
    forall d | 0 <= d < |t.mgrs| ensures HeardNow(t, d) == {} {
      if d > 0 { assert NotYet(t, d); }
    }
    forall d | 0 <= d < |t.mgrs| ensures TallyOk(t, d) { if d > 0 { assert NotYet(t, d); } }
    forall d | 0 < d < |t.mgrs| ensures LeadFirst(t, d) { assert NotYet(t, d); }
  }

  lemma SignalOne(s: State)
    requires Inv(s) && s.mgrs[0].pc.SendSignal?
    ensures Inv(After(s, Manage(0)))
  {
    var t, j := After(s, Manage(0)), s.mgrs[0].pc.j;
    TeamMoves(s, 0);
    assert forall a, d :: 0 <= a < |s.mgrs| ==> HasSent(t, a, d) == HasSent(s, a, d);
    assert forall d ::
      0 <= d < |s.mgrs| ==>
      HeardNow(t, d) == HeardNow(s, d) && NotYet(t, d) == NotYet(s, d) && Over(t, d) == Over(s, d);
    assert TallyOk(s, 0);
    OthersKeep(s, t, 0);
    forall d | 0 <= d < |s.mgrs| ensures Signalled(t, d) == (Signalled(s, d) || d == j) { }
    assert 0 < j < |s.mgrs| ==> NotYet(s, j);
  }

  lemma TakeStart(s: State, x: Signal)
    requires Inv(s) && Can(s, TakeSignal(x)) && Stage(s.mgrs[0].pc) > 0
    ensures Inv(After(s, TakeSignal(x)))
  {
    var t := After(s, TakeSignal(x));
    assert NotYet(s, x.to) && x.status == START;
    assert forall a, d :: 0 <= a < |s.mgrs| ==> HasSent(t, a, d) == HasSent(s, a, d);
    assert forall d :: 0 <= d < |s.mgrs| ==> HeardNow(t, d) == HeardNow(s, d) && Over(t, d) == Over(s, d);
    assert forall d :: 0 <= d < |s.mgrs| ==> NotYet(t, d) == (NotYet(s, d) && d != x.to);
    assert forall d :: Signalled(t, d) == Signalled(s, d);
    OthersKeep(s, t, x.to);
  }

  // ----- stopping -----

  lemma StopOneStops(s: State, c: nat)
    requires Inv(s) && Stage(s.mgrs[0].pc) > 0 && c < |s.mgrs| && s.mgrs[c].pc.SendStop? && s.mgrs[c].round == R(s)
    ensures StopsOk(After(s, Manage(c)))
  {
    var t, j := After(s, Manage(c)), s.mgrs[c].pc.j;
    assert R(t) == R(s) && |t.mgrs| == |s.mgrs|;
    forall a, d | 0 <= a < |s.mgrs| && 0 <= d < |s.mgrs|
      ensures HasSent(t, a, d) == (HasSent(s, a, d) || (a == c && d == j)) { }
    assert forall d :: 0 <= d < |s.mgrs| ==> HeardNow(t, d) == HeardNow(s, d);
    forall x | x in t.stops ensures StopOk(t, x) {
      if x in s.stops { assert StopOk(s, x); } else { assert !HasSent(s, c, j); }
    }
  }

  lemma StopOne(s: State, c: nat)
    requires Inv(s) && c < |s.mgrs| && s.mgrs[c].pc.SendStop?
    ensures Inv(After(s, Manage(c)))
  {
    var t := After(s, Manage(c));
    TeamMoves(s, c);
    InRound(s, c);
    StopOneStops(s, c);
    assert TallyOk(s, c) && (c > 0 ==> LeadFirst(s, c));
    OthersKeep(s, t, c);
    NoneDone(s);
    MailKeeps(s, t);
  }

  lemma NoneDone(s: State)
    requires |s.mgrs| > 0 && RoundOk(s)
    ensures forall d {:trigger s.mgrs[d]} :: 0 < d < |s.mgrs| ==> s.mgrs[d].pc != Done
  {
    forall d | 0 < d < |s.mgrs| ensures s.mgrs[d].pc != Done { var notYet := NotYet(s, d); }
  }

  lemma TakeStopStops(s: State, x: Stop)
    requires Inv(s) && Can(s, TakeStop(x)) && Stage(s.mgrs[0].pc) > 0 && s.mgrs[x.to].round == R(s)
    ensures StopsOk(After(s, TakeStop(x)))
  {
    var t := After(s, TakeStop(x));
    assert StopOk(s, x);
    assert R(t) == R(s) && |t.mgrs| == |s.mgrs|;
    assert forall a, d :: 0 <= a < |s.mgrs| ==> HasSent(t, a, d) == HasSent(s, a, d);
    assert forall d :: 0 <= d < |s.mgrs| ==> HeardNow(t, d) == HeardNow(s, d) + if d == x.to then {x.from} else {};
    forall y | y in t.stops ensures StopOk(t, y) {
      assert StopOk(s, y);
    }
  }

  lemma TakeStopInv(s: State, x: Stop)
    requires Inv(s) && Can(s, TakeStop(x))
    ensures Inv(After(s, TakeStop(x)))
  {
    var t := After(s, TakeStop(x));
    InRound(s, x.to);
    TakeStopStops(s, x);
    assert StopOk(s, x);
    TakeStopTally(s, x);
    OthersKeep(s, t, x.to);
    NoneDone(s);
    MailKeeps(s, t);
  }

  lemma TakeStopTally(s: State, x: Stop)
    requires Inv(s) && Can(s, TakeStop(x)) && Stage(s.mgrs[0].pc) > 0 && s.mgrs[x.to].round == R(s) && StopOk(s, x)
    ensures TallyOk(After(s, TakeStop(x)), x.to) && (x.to > 0 ==> LeadFirst(After(s, TakeStop(x)), x.to))
  {
    assert TallyOk(s, x.to) && (x.to > 0 ==> LeadFirst(s, x.to)) && (x.from > 0 ==> LeadFirst(s, x.from));
    assert x.from !in s.mgrs[x.to].heard;
  }

  // ----- the end of a round -----

  lemma AckOne(s: State, c: nat)
    requires Inv(s) && 0 < c < |s.mgrs| && s.mgrs[c].pc.SendAck?
    ensures Inv(After(s, Manage(c)))
  {
    var t := After(s, Manage(c));
    TeamMoves(s, c);
    InRound(s, c);
    assert forall a, d :: 0 <= a < |s.mgrs| ==> HasSent(t, a, d) == HasSent(s, a, d);
    assert forall d :: 0 <= d < |s.mgrs| ==> HeardNow(t, d) == HeardNow(s, d) && NotYet(t, d) == NotYet(s, d);
    assert forall d :: 0 <= d < |s.mgrs| ==> Over(t, d) == (Over(s, d) || d == c);
    assert !Over(s, c);
    assert forall d :: Signalled(t, d) == Signalled(s, d);
    assert TallyOk(s, c) && LeadFirst(s, c);
    OthersKeep(s, t, c);
  }

  lemma TakeAckInv(s: State, x: Ack)
    requires Inv(s) && Can(s, TakeAck(x))
    ensures Inv(After(s, TakeAck(x)))
  {
    var t := After(s, TakeAck(x));
    assert TallyOk(s, 0);
    OthersKeep(s, t, 0);
    assert StopsOk(t) by { SameStops(s, t); }
    assert forall d :: 0 < d < |s.mgrs| ==> NotYet(t, d) == NotYet(s, d) && Over(t, d) == Over(s, d);
    assert forall d :: Signalled(t, d) == Signalled(s, d);
  }

  lemma SameStops(s: State, t: State)
    requires |s.mgrs| > 0 && StopsOk(s) && |t.mgrs| == |s.mgrs| && t.stops == s.stops
    requires forall d {:trigger t.mgrs[d]} :: 0 <= d < |s.mgrs| ==>
               t.mgrs[d].round == s.mgrs[d].round && t.mgrs[d].heard == s.mgrs[d].heard && t.mgrs[d].pc == s.mgrs[d].pc
    ensures StopsOk(t)
  {
    assert forall a, d :: 0 <= a < |s.mgrs| ==> HasSent(t, a, d) == HasSent(s, a, d);
    assert forall d :: 0 <= d < |s.mgrs| ==> HeardNow(t, d) == HeardNow(s, d);
  }

  function Upto(n: nat): (x: set<nat>)
    ensures |x| == n && forall c: nat {:trigger c in x} :: c in x <==> c < n
  {
    if n == 0 then {} else Upto(n - 1) + {n - 1}
  }

  function Others(n: nat, d: nat): set<nat> {
    Upto(n) - {d}
  }

  /** A set of other coordinators as large as their number is all of them. */
  lemma AllOthers(n: nat, d: nat, x: set<nat>)
    requires d < n && x <= Others(n, d) && |x| == n - 1
    ensures x == Others(n, d)
  {
    assert |Others(n, d)| == n - 1;
    if x != Others(n, d) {
      SmallerSet(x, Others(n, d));
    }
  }

  lemma SmallerSet(x: set<nat>, y: set<nat>)
    requires x < y
    ensures |x| < |y|
  {
    assert y == x + (y - x) && y - x != {};
  }

  lemma EndRound(s: State)
    requires Inv(s) && s.mgrs[0].pc == WaitAcks && Passes(s, 0)
    ensures Inv(After(s, Manage(0)))
  {
    var t := After(s, Manage(0));
    TeamMoves(s, 0);
    AllOthers(|s.mgrs|, 0, s.mgrs[0].acked);
    forall d | 0 < d < |s.mgrs| ensures Over(s, d) && Over(t, d) && !NotYet(s, d) { assert d in s.mgrs[0].acked; }
    assert s.signals == {} by {
      forall x | x in s.signals ensures false { }
    }
    assert s.acks == {} by {
      forall x | x in s.acks ensures false { }
    }
    assert s.stops == {} by {
      forall x | x in s.stops ensures false {
        assert StopOk(s, x) && (x.to == 0 || Over(s, x.to));
        HeardAll(s, x.to);
      }
    }
  }

  /** Once past the STOP wait, a coordinator has taken the STOP of every other. */
  lemma HeardAll(s: State, d: nat)
    requires Inv(s) && Stage(s.mgrs[0].pc) > 0 && d < |s.mgrs| && s.mgrs[d].round == R(s)
      && (Stage(s.mgrs[d].pc) >= 5 || s.mgrs[d].pc == WaitSignal)
    ensures s.mgrs[d].heard == Others(|s.mgrs|, d)
    ensures forall c :: 0 <= c < |s.mgrs| && c != d ==> HasSent(s, c, d)
  {
    assert TallyOk(s, d);
    forall c | c in s.mgrs[d].heard ensures c in Others(|s.mgrs|, d) { assert c in HeardNow(s, d); }
    AllOthers(|s.mgrs|, d, s.mgrs[d].heard);
    forall c | 0 <= c < |s.mgrs| && c != d ensures HasSent(s, c, d) { assert c in HeardNow(s, d); }
  }

  // ----- leaving -----

  lemma QuitInv(s: State)
    requires Inv(s) && Can(s, Quit)
    ensures Inv(After(s, Quit))
  {
    var t := After(s, Quit);
    assert forall d :: 0 < d < |s.mgrs| ==> Over(t, d) == Over(s, d);
  }

  lemma ExitStep(s: State)
    requires Inv(s) && (s.mgrs[0].pc.SetExit? || s.mgrs[0].pc.SendExit?)
    ensures Inv(After(s, Manage(0)))
  {
    var t := After(s, Manage(0));
    TeamMoves(s, 0);
    assert forall d :: 0 < d < |s.mgrs| ==> Over(t, d) == Over(s, d);
  }

  lemma TakeExit(s: State, x: Signal)
    requires Inv(s) && Can(s, TakeSignal(x)) && Stage(s.mgrs[0].pc) == 0
    ensures Inv(After(s, TakeSignal(x)))
  {
    var t := After(s, TakeSignal(x));
    assert forall d :: 0 < d < |s.mgrs| ==> Over(t, d) == (Over(s, d) && d != x.to);
  }

  lemma StepInv(s: State, a: Action)
    requires Inv(s) && Can(s, a)
    ensures Inv(After(s, a))
  {
    match a
    case Manage(c) =>
      var pc := s.mgrs[c].pc;
      if Quiet(pc) { QuietStep(s, c); }
      else if pc.Top? { BeginRound(s); }
      else if pc.SendSignal? { SignalOne(s); }
      else if pc.SendStop? { StopOne(s, c); }
      else if pc.SendAck? { AckOne(s, c); }
      else if pc.WaitAcks? { EndRound(s); }
      else { ExitStep(s); }
    case Quit => QuitInv(s);
    case TakeSignal(x) => if Stage(s.mgrs[0].pc) > 0 { TakeStart(s, x); } else { TakeExit(s, x); }
    case TakeStop(x) => TakeStopInv(s, x);
    case TakeAck(x) => TakeAckInv(s, x);
    case Work(c, i) => WorkInv(s, c, i);
  }
}
