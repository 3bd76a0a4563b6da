/** The grace period does not extend to threads ahead of the retirer: an object can be freed while a thread that was one
    epoch ahead at retirement has not entered again. */
module EbrAhead {
  import opened Ebr

  /** Running a list of actions. */
  ghost predicate Runs(s: State, acts: seq<Action>, t: State)
    decreases |acts|
  {
    if acts == [] then t == s
    else Shape(s) && Can(s, acts[0]) && Runs(After(s, acts[0]), acts[1..], t)
  }

  ghost predicate OnlyBy(u: Tid, acts: seq<Action>) {
    forall i :: 0 <= i < |acts| ==> acts[i].u == u
  }

  /** `t` is reached from `s` by actions of `u` alone. */
  ghost predicate Alone(u: Tid, s: State, t: State) {
    exists acts :: Runs(s, acts, t) && OnlyBy(u, acts)
  }

  lemma {:induction false} RunsJoin(s: State, a: seq<Action>, m: State, b: seq<Action>, t: State)
    requires Runs(s, a, m) && Runs(m, b, t)
    ensures Runs(s, a + b, t)
    decreases |a|
  {
    if a == [] {
      assert a + b == b;
    } else {
      RunsJoin(After(s, a[0]), a[1..], m, b, t);
      assert (a + b)[1..] == a[1..] + b;
    }
  }

  lemma AloneJoin(u: Tid, s: State, m: State, t: State)
    requires Alone(u, s, m) && Alone(u, m, t)
    ensures Alone(u, s, t)
  {
    var a :| Runs(s, a, m) && OnlyBy(u, a);
    var b :| Runs(m, b, t) && OnlyBy(u, b);
    RunsJoin(s, a, m, b, t);
    assert OnlyBy(u, a + b);
  }

  lemma AloneOne(s: State, a: Action)
    requires Shape(s) && Can(s, a)
    ensures Alone(a.u, s, After(s, a))
  {
    var acts := [a];
    assert acts[1..] == [];
    assert Runs(After(s, a), acts[1..], After(s, a));
    assert Runs(s, acts, After(s, a)) && OnlyBy(a.u, acts);
  }

  /** `t` is `s` after `u` has retired some more. */
  ghost predicate Grown(s: State, t: State, u: Tid, n: nat) {
    && Shape(s) && Shape(t) && u in s.mine && t.hosts == s.hosts && t.perHost == s.perHost && t.g == s.g
    && t.local == s.local
    && t.freed == s.freed && |t.retired| == |s.retired| + n && s.retired <= t.retired
    && (forall v {:trigger t.mine[v]} :: v in s.mine && v != u ==> t.mine[v] == s.mine[v])
    && t.mine[u].pc == s.mine[u].pc && t.mine[u].lastFreed == s.mine[u].lastFreed
    && (forall r {:trigger t.mine[u].lists[r]} ::
       0 <= r < EPOCH_LISTS && r != s.local[u] % EPOCH_LISTS ==> t.mine[u].lists[r] == s.mine[u].lists[r])
    && |t.mine[u].lists[s.local[u] % EPOCH_LISTS]| == |s.mine[u].lists[s.local[u] % EPOCH_LISTS]| + n
  }

  lemma {:induction false} RetireMany(s: State, u: Tid, n: nat) returns (t: State)
    requires Shape(s) && u in s.local && s.mine[u].pc == Idle
    ensures Alone(u, s, t) && Grown(s, t, u, n)
  {
    if n == 0 {
      t := s;
      assert Runs(s, [], s) && OnlyBy(u, []);
    } else {
      var m := RetireMany(s, u, n - 1);
      AloneOne(m, Retire(u));
      t := After(m, Retire(u));
      AloneJoin(u, s, m, t);
    }
  }

  /** A step that only moves the program counter of `u`, seen from any earlier counter. */
  lemma Move(s: State, u: Tid, from: Pc, pc: Pc)
    requires Shape(s) && u in s.local && Alone(u, s, SetPc(s, u, from))
    requires StepOf(SetPc(s, u, from), u) == SetPc(SetPc(s, u, from), u, pc)
    ensures Alone(u, s, SetPc(s, u, pc))
  {
    var m := SetPc(s, u, from);
    AloneOne(m, Step(u));
    assert SetPc(m, u, pc) == SetPc(s, u, pc);
    AloneJoin(u, s, m, SetPc(s, u, pc));
  }

  lemma Stay(s: State, u: Tid)
    requires u in s.mine
    ensures Alone(u, s, s) && SetPc(s, u, s.mine[u].pc) == s
  {
    assert Runs(s, [], s) && OnlyBy(u, []);
  }

  /** Two workers on one host: the scan of the one at the global epoch with a full list, while nobody is behind. */
  lemma ScanAll(s: State, u: Tid)
    requires Shape(s) && s.hosts == 1 && s.perHost == 2 && u in s.local && s.mine[u].pc == Idle
    requires s.local[u] == s.g && (forall v :: v in s.local ==> s.g <= s.local[v])
    requires |s.mine[u].lists[s.g % EPOCH_LISTS]| >= ADVANCE_THRESHOLD
    ensures Alone(u, s, SetPc(s, u, Cas(s.g, s.g)))
  {
    var g := s.g;
    Stay(s, u);
    Move(s, u, Idle, Loaded(g));
    Move(s, u, Loaded(g), Scan(g, g, 0, 0, true));
    Move(s, u, Scan(g, g, 0, 0, true), Scan(g, g, 0, 1, true));
    Move(s, u, Scan(g, g, 0, 1, true), Scan(g, g, 0, 2, true));
    Move(s, u, Scan(g, g, 0, 2, true), Scan(g, g, 1, 0, true));
    Move(s, u, Scan(g, g, 1, 0, true), Cas(g, g));
  }

  /** From the reload on, a worker one epoch behind catches up. */
  lemma CatchUp(s: State, u: Tid)
    requires Shape(s) && u in s.local && s.mine[u].pc == Reload(s.local[u]) && s.local[u] + 1 == s.g
    ensures Alone(u, s, SetPc(s, u, Reclaim(s.g)).(local := s.local[u := s.g]))
  {
    var l, g := s.local[u], s.g;
    Stay(s, u);
    Move(s, u, Reload(l), Store(l, g));
    var m, t := SetPc(s, u, Store(l, g)), SetPc(s, u, Reclaim(g)).(local := s.local[u := g]);
    AloneOne(m, Step(u));
    assert After(m, Step(u)) == t;
    AloneJoin(u, s, m, t);
  }

  lemma ScanAndSwap(s: State, u: Tid)
    requires Shape(s) && s.hosts == 1 && s.perHost == 2 && u in s.local && s.mine[u].pc == Idle
    requires s.local[u] == s.g && (forall v :: v in s.local ==> s.g <= s.local[v])
    requires |s.mine[u].lists[s.g % EPOCH_LISTS]| >= ADVANCE_THRESHOLD
    ensures Alone(u, s, SetPc(s, u, Reload(s.g)).(g := s.g + 1))
  {
    ScanAll(s, u);
    var m, w := SetPc(s, u, Cas(s.g, s.g)), SetPc(s, u, Reload(s.g)).(g := s.g + 1);
    AloneOne(m, Step(u));
    assert After(m, Step(u)) == w;
    AloneJoin(u, s, m, w);
  }

  lemma Advance(s: State, u: Tid)
    requires Shape(s) && s.hosts == 1 && s.perHost == 2 && u in s.local && s.mine[u].pc == Idle
    requires s.local[u] == s.g && (forall v :: v in s.local ==> s.g <= s.local[v])
    requires |s.mine[u].lists[s.g % EPOCH_LISTS]| >= ADVANCE_THRESHOLD
    ensures Alone(u, s, SetPc(s, u, Reclaim(s.g + 1)).(g := s.g + 1, local := s.local[u := s.g + 1]))
  {
    ScanAndSwap(s, u);
    var w := SetPc(s, u, Reload(s.g)).(g := s.g + 1);
    CatchUp(w, u);
    SamePc(s, u, Reload(s.g), Reclaim(s.g + 1));
    AloneJoin(u, s, w, SetPc(w, u, Reclaim(w.g)).(local := w.local[u := w.g]));
  }

  lemma SamePc(s: State, u: Tid, a: Pc, b: Pc)
    requires u in s.mine
    ensures SetPc(SetPc(s, u, a), u, b) == SetPc(s, u, b)
  {
  }

  lemma Follow(s: State, u: Tid)
    requires Shape(s) && u in s.local && s.mine[u].pc == Idle && s.local[u] + 1 == s.g
    ensures Alone(u, s, SetPc(s, u, Reclaim(s.g)).(local := s.local[u := s.g]))
  {
    var l := s.local[u];
    Stay(s, u);
    Move(s, u, Idle, Loaded(l));
    Move(s, u, Loaded(l), Reload(l));
    var w, t := SetPc(s, u, Reload(l)), SetPc(s, u, Reclaim(s.g)).(local := s.local[u := s.g]);
    CatchUp(w, u);
    assert SetPc(w, u, Reclaim(s.g)).(local := s.local[u := s.g]) == t;
    AloneJoin(u, s, w, t);
  }

  const A := Tid(0, 0)
  const B := Tid(0, 1)

  ghost predicate Pair(s: State) {
    Shape(s) && s.hosts == 1 && s.perHost == 2 && A in s.local && B in s.local && s.mine[A].lastFreed == 0
      && s.mine[B].lastFreed == 0
  }

  /** From epoch `g`, `u` fills its list, advances the epoch and returns to idle. */
  lemma Push(s: State, u: Tid) returns (t: State)
    requires Pair(s) && u in s.local && s.mine[u].pc == Idle && s.g <= 1
    requires s.local[u] == s.g && (forall v :: v in s.local ==> s.g <= s.local[v])
    ensures Alone(u, s, t) && Pair(t) && t.g == s.g + 1 && t.local == s.local[u := t.g] && t.mine[u].pc == Idle
      && t.freed == s.freed
    ensures forall v :: v in s.local && v != u ==> t.mine[v] == s.mine[v]
  {
    var m := RetireMany(s, u, ADVANCE_THRESHOLD);
    Advance(m, u);
    var w := SetPc(m, u, Reclaim(m.g + 1)).(g := m.g + 1, local := m.local[u := m.g + 1]);
    AloneJoin(u, s, m, w);
    AloneOne(w, Step(u));
    t := After(w, Step(u));
    AloneJoin(u, s, w, t);
  }

  /** `u` catches up with epoch `g`. */
  lemma Pull(s: State, u: Tid) returns (t: State)
    requires Pair(s) && u in s.local && s.mine[u].pc == Idle && s.local[u] + 1 == s.g <= 2
    ensures Alone(u, s, t) && Pair(t) && t.g == s.g && t.local == s.local[u := s.g] && t.mine[u] == s.mine[u]
    ensures t.retired == s.retired && t.freed == s.freed && forall v ::
      v in s.local && v != u ==> t.mine[v] == s.mine[v]
  {
    Follow(s, u);
    var w := SetPc(s, u, Reclaim(s.g)).(local := s.local[u := s.g]);
    AloneOne(w, Step(u));
    t := After(w, Step(u));
    AloneJoin(u, s, w, t);
  }

  /** `u`, at epoch 2 with one object of epoch 1, advances to epoch 3 and frees it. */
  lemma Sweep(s: State, u: Tid, id: nat) returns (t: State)
    requires Pair(s) && u in s.local && s.mine[u].pc == Idle && s.g == 2
      && (forall v :: v in s.local ==> s.local[v] == 2)
    requires s.mine[u].lists[1] == [id]
    ensures Alone(u, s, t) && IsFreed(t, id) && t.local == s.local[u := 3]
  {
    var m := RetireMany(s, u, ADVANCE_THRESHOLD);
    Advance(m, u);
    var w := SetPc(m, u, Reclaim(3)).(g := 3, local := m.local[u := 3]);
    AloneJoin(u, s, m, w);
    assert m.mine[u].lists[1] == s.mine[u].lists[1];
    t := FreeFirst(w, u, id);
    AloneJoin(u, s, w, t);
  }

  lemma FreeFirst(s: State, u: Tid, id: nat) returns (t: State)
    requires Pair(s) && u in s.local && s.mine[u].pc == Reclaim(3) && s.mine[u].lists[1] == [id]
    ensures Alone(u, s, t) && IsFreed(t, id) && t.local == s.local
  {
    Stay(s, u);
    Move(s, u, Reclaim(3), Freeing(1, 0));
    var w := SetPc(s, u, Freeing(1, 0));
    AloneOne(w, Step(u));
    t := After(w, Step(u));
    assert t.freed[|w.freed|] == Free(id, u, w.local);
    AloneJoin(u, s, w, t);
  }

  lemma Forget(u: Tid, s: State, t: State) returns (acts: seq<Action>)
    requires Alone(u, s, t)
    ensures Runs(s, acts, t) && OnlyBy(u, acts)
  {
    acts :| Runs(s, acts, t) && OnlyBy(u, acts);
  }

  lemma Chain(s: State, acts: seq<Action>, m: State, u: Tid, t: State) returns (all: seq<Action>)
    requires Runs(s, acts, m) && Alone(u, m, t)
    ensures Runs(s, all, t)
  {
    var more := Forget(u, m, t);
    RunsJoin(s, acts, m, more, t);
    all := acts + more;
  }

  lemma Two() returns (init: State)
    ensures Init(init) && Pair(init) && init.local == map[A := 0, B := 0] && init.mine[A].pc == Idle
    ensures init.mine[B] == Meta(0, [[], [], []], Idle) && init.g == 0 && init.freed == []
  {
    var idle := Meta(0, [[], [], []], Idle);
    init := State(1, 2, 0, map[A := 0, B := 0], map[A := idle, B := idle], [], []);
  }

  /** A reachable state in which both are at epoch 1. */
  lemma Level() returns (init: State, acts: seq<Action>, s: State)
    ensures Init(init) && Runs(init, acts, s) && Pair(s) && s.g == 1 && s.local == map[A := 1, B := 1]
    ensures s.mine[A].pc == Idle && s.mine[B] == Meta(0, [[], [], []], Idle) && s.freed == []
  {
    init := Two();
    assert Runs(init, [], init);
    var s1 := Push(init, A);
    var a1 := Chain(init, [], init, A, s1);
    s := Pull(s1, B);
    acts := Chain(init, a1, s1, B, s);
  }

  /** A reachable state in which `A` is one epoch ahead of `B`. */
  lemma Apart() returns (init: State, acts: seq<Action>, s: State)
    ensures Init(init) && Runs(init, acts, s) && Pair(s) && s.g == 2 && s.local == map[A := 2, B := 1]
    ensures s.mine[B] == Meta(0, [[], [], []], Idle) && s.freed == []
  {
    var before, s1;
    init, before, s1 := Level();
    s := Push(s1, A);
    acts := Chain(init, before, s1, A, s);
  }

  /** `B` retires an object and frees it again without any step of `A`, which was one epoch ahead. */
  lemma AheadIsNotCovered() returns (init: State, acts: seq<Action>, s: State, more: seq<Action>, t: State)
    ensures Init(init) && Runs(init, acts, s) && Shape(s) && Can(s, Retire(B)) && A in s.local
    ensures Runs(After(s, Retire(B)), more, t) && OnlyBy(B, more) && IsFreed(t, |s.retired|)
    ensures s.local[A] == s.local[B] + 1 && A in t.local && t.local[A] == s.local[A]
  {
    init, acts, s := Apart();
    var s1 := After(s, Retire(B));
    assert s1.mine[B].lists[1] == [|s.retired|];
    var s2 := Pull(s1, B);
    t := Sweep(s2, B, |s.retired|);
    AloneJoin(B, s1, s2, t);
    more := Forget(B, s1, t);
  }
}
