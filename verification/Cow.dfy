/** Copy-on-write checkpoint of a partition's table: the dump walks the table and then the shadow copy while updates go
    on between its visits.  `dump` and `snap` are auxiliary: the entries handed to the dump processor, in order, and the
    table as it was when the checkpoint was switched on. */
module Cow {
  import opened SeqOps

  type Key = int
  type Value = int

  datatype Entry = Entry(key: Key, value: Value)

  /** How far the dump has come: `want` holds the shadow entries present when the walk over the shadow began. */
  datatype Phase = Quiet | Main(seen: set<Key>) | Shadow(want: set<Key>, seen: set<Key>) | Finished

  datatype State = State(main: map<Key, Value>, shadow: Option<map<Key, Value>>, cow: bool, dumpFinished: bool,
                         phase: Phase, dump: seq<Entry>, snap: map<Key, Value>)

  datatype Action =
    | TurnOn
    | Update(key: Key, value: Value)
    | BeginDump
    | Visit(key: Key)
    | EndMain
    | EndShadow
    | TurnOff

  /** Later entries win. */
  function Replay(dump: seq<Entry>): map<Key, Value> {
    if dump == [] then map[] else Replay(dump[..|dump| - 1])[dump[|dump| - 1].key := dump[|dump| - 1].value]
  }

  lemma ReplayAdd(dump: seq<Entry>, e: Entry)
    ensures Replay(dump + [e]) == Replay(dump)[e.key := e.value]
  {
    assert (dump + [e])[..|dump|] == dump;
  }

  predicate Can(s: State, a: Action) {
    match a
    case TurnOn => !s.cow && s.shadow.None?
    case Update(k, _) => k in s.main && (!s.dumpFinished ==> s.shadow.Some?)
    case BeginDump => s.cow && !s.dumpFinished && s.shadow.Some? && s.phase == Quiet
    case Visit(k) => (s.phase.Main? && k in s.main) || (s.phase.Shadow? && s.shadow.Some? && k in s.shadow.value)
    case EndMain => s.phase.Main? && s.main.Keys <= s.phase.seen && s.shadow.Some?
    case EndShadow => s.phase.Shadow? && s.phase.want <= s.phase.seen
    case TurnOff => s.cow && s.dumpFinished
  }

  function After(s: State, a: Action): State
    requires Can(s, a)
  {
    match a
    case TurnOn => s.(shadow := Some(map[]), dumpFinished := false, cow := true, phase := Quiet, dump := [],
      snap := s.main)
    case Update(k, v) =>
      s.(main := s.main[k := v],
         shadow := if !s.dumpFinished && k !in s.shadow.value then Some(s.shadow.value[k := s.main[k]]) else s.shadow)
    case BeginDump => s.(phase := Main({}))
    case Visit(k) =>
      if s.phase.Main? then s.(dump := s.dump + [Entry(k, s.main[k])], phase := Main(s.phase.seen + {k}))
      else s.(dump := s.dump + [Entry(k, s.shadow.value[k])], phase := s.phase.(seen := s.phase.seen + {k}))
    case EndMain => s.(phase := Shadow(s.shadow.value.Keys, {}))
    case EndShadow => s.(phase := Finished, dumpFinished := true)
    case TurnOff => s.(shadow := None, cow := false)
  }

  // ----- the table as an object -----

  /** The table's own fields; the dump is cut at its visits, between which other calls run. */
  class CowTable {
    var main: map<Key, Value>
    var shadow: Option<map<Key, Value>>
    var cow: bool
    var dumpFinished: bool
    ghost var phase: Phase
    ghost var dump: seq<Entry>
    ghost var snap: map<Key, Value>

    ghost function S(): State
      reads this
    {
      State(main, shadow, cow, dumpFinished, phase, dump, snap)
    }

    constructor (table: map<Key, Value>)
      ensures Init(S()) && main == table
    {
      main, shadow, cow, dumpFinished := table, None, false, true;
      phase, dump, snap := Quiet, [], map[];
    }

    method TurnOnCow()
      requires Can(S(), TurnOn)
      modifies this
      ensures S() == After(old(S()), TurnOn)
    {
      shadow, dumpFinished, cow := Some(map[]), false, true;
      phase, dump, snap := Quiet, [], main;
    }

    method UpdateRow(k: Key, v: Value)
      requires Can(S(), Update(k, v))
      modifies this
      ensures S() == After(old(S()), Update(k, v))
    {
      if !dumpFinished {
        if k !in shadow.value {
          shadow := Some(shadow.value[k := main[k]]);
        }
      }
      main := main[k := v];
    }

    /** One call of the dump processor during the walk over the table. */
    method VisitMain(k: Key) returns (e: Entry)
      requires Can(S(), Visit(k)) && phase.Main?
      modifies this`phase, this`dump
      ensures S() == After(old(S()), Visit(k)) && dump == old(dump) + [e]
    {
      e := Entry(k, main[k]);
      dump, phase := dump + [e], Main(phase.seen + {k});
    }

    /** One call of the dump processor during the walk over the shadow copy. */
    method VisitShadow(k: Key) returns (e: Entry)
      requires Can(S(), Visit(k)) && phase.Shadow?
      modifies this`phase, this`dump
      ensures S() == After(old(S()), Visit(k)) && dump == old(dump) + [e]
    {
      e := Entry(k, shadow.value[k]);
      dump, phase := dump + [e], phase.(seen := phase.seen + {k});
    }

    method FinishDump()
      requires Can(S(), EndShadow) && Inv(S())
      modifies this`phase, this`dumpFinished
      ensures S() == After(old(S()), EndShadow) && Replay(dump) == snap
    {
      StepInv(S(), EndShadow);
      dumpFinished := true;
      phase := Finished;
    }

    method TurnOffCow()
      requires Can(S(), TurnOff)
      modifies this`shadow, this`cow
      ensures S() == After(old(S()), TurnOff)
    {
      shadow, cow := None, false;
    }
  }

  ghost predicate Init(s: State) {
    s.shadow == None && !s.cow && s.dumpFinished && s.phase == Quiet && s.dump == []
  }

  // ----- the invariant -----

  /** While the dump is on, the value a key had at the start is in the shadow copy or still in the table. */
  ghost predicate SnapKept(s: State) {
    && s.cow && s.shadow.Some? && s.shadow.value.Keys <= s.main.Keys == s.snap.Keys
    && (forall k :: k in s.snap ==> s.snap[k] == if k in s.shadow.value then s.shadow.value[k] else s.main[k])
  }

  ghost predicate DumpOk(s: State) {
    var r := Replay(s.dump);
    match s.phase
    case Quiet => r == map[]
    case Main(seen) =>
      s.shadow.Some? && r.Keys == seen <= s.snap.Keys && forall k ::
        k in seen ==> r[k] == s.snap[k] || k in s.shadow.value
    case Shadow(want, seen) =>
      r.Keys == s.snap.Keys && forall k :: k in r ==> r[k] == s.snap[k] || (k in want && k !in seen)
    case Finished => r == s.snap
  }

  ghost predicate Inv(s: State) {
    && DumpOk(s) && (s.shadow.Some? <==> s.cow)
    && if s.dumpFinished then s.phase == Finished || (s.phase == Quiet && !s.cow)
       else SnapKept(s) && s.phase != Finished
  }

  lemma StepInv(s: State, a: Action)
    requires Inv(s) && Can(s, a)
    ensures Inv(After(s, a))
  {
    if a.Visit? {
      ReplayAdd(s.dump, After(s, a).dump[|s.dump|]);
    } else if a == EndShadow {
      var r := Replay(s.dump);
      assert forall k :: k in r ==> r[k] == s.snap[k];
      assert r == s.snap;
    }
  }

  // ----- whole runs -----

  ghost predicate IsRun(run: seq<State>, acts: seq<Action>) {
    && |run| == |acts| + 1 && Init(run[0])
    && (forall i {:trigger acts[i]} :: 0 <= i < |acts| ==> Can(run[i], acts[i]) && run[i + 1] == After(run[i], acts[i]))
  }

  lemma {:induction false} RunInv(run: seq<State>, acts: seq<Action>, n: nat)
    requires IsRun(run, acts) && n < |run|
    ensures Inv(run[n])
  {
    if n > 0 {
      RunInv(run, acts, n - 1);
      assert Can(run[n - 1], acts[n - 1]);
      StepInv(run[n - 1], acts[n - 1]);
    }
  }

  lemma {:induction false} SnapStays(run: seq<State>, acts: seq<Action>, i: nat, n: nat)
    requires IsRun(run, acts) && i < n < |run| && acts[i] == TurnOn && forall j :: i < j < n ==> acts[j] != TurnOn
    ensures run[n].snap == run[i].main
    decreases n - i
  {
    assert run[i + 1] == After(run[i], acts[i]);
    if i + 1 < n {
      SnapStays(run, acts, i, n - 1);
      assert acts[n - 1] != TurnOn && run[n] == After(run[n - 1], acts[n - 1]);
    }
  }

  /** Whatever updates come between its visits, a finished dump replays to the table as it was at `turn_on_cow`. */
  lemma DumpIsSnapshot(run: seq<State>, acts: seq<Action>, i: nat, n: nat)
    requires IsRun(run, acts) && i < n < |run| && acts[i] == TurnOn && (forall j :: i < j < n ==> acts[j] != TurnOn)
    requires run[n].phase == Finished
    ensures Replay(run[n].dump) == run[i].main
  {
    RunInv(run, acts, n);
    SnapStays(run, acts, i, n);
  }
}
