/** The multi-producer single-consumer ring in shared memory.  Every access to a shared word is one step; `tickets` and
    `received` are auxiliary: the payloads in the order in which producers drew from `tail`, and those dequeued. */
module Ring {
  import opened ByteOrder
  import opened Arith

  type Pid = nat

  datatype Slot = Slot(data: seq<Byte>, remaining: nat, offset: nat, ready: bool)

  datatype ProdPc =
    | Off
    | Entering
    | BackOff
    | Admitted
    | CopyData(t: nat)
    | StoreSize(t: nat)
    | StoreOffset(t: nat)
    | SetReady(t: nat)

  datatype Prod = Prod(pc: ProdPc, payload: seq<Byte>)

  datatype ConsPc =
    | Resting
    | SizeHead(buf: nat)
    | SizeTail(buf: nat, h: nat)
    | LoadHead(buf: nat)
    | Waiting(buf: nat, h: nat)
    | Taking(buf: nat, h: nat)
    | ClearReady(h: nat)
    | StoreHead(h: nat)
    | DropCount
    | CheckFailed

  datatype Ticket = Ticket(who: Pid, payload: seq<Byte>)

  datatype State = State(max: nat, head: nat, tail: nat, count: nat, slots: seq<Slot>,
                         prods: map<Pid, Prod>, cons: ConsPc, tickets: seq<Ticket>, received: seq<seq<Byte>>)

  datatype Action = Send(p: Pid, payload: seq<Byte>) | Produce(p: Pid) | Recv(buf: nat) | Consume

  function At(s: State, t: nat): Slot
    requires |s.slots| > 0
  {
    s.slots[t % |s.slots|]
  }

  function PutSlot(s: State, t: nat, x: Slot): State
    requires |s.slots| > 0
  {
    s.(slots := s.slots[t % |s.slots| := x])
  }

  function SetPc(s: State, p: Pid, pc: ProdPc): State
    requires p in s.prods
  {
    s.(prods := s.prods[p := s.prods[p].(pc := pc)])
  }

  /** memcpy of the payload over the start of the slot. */
  function Copied(data: seq<Byte>, payload: seq<Byte>): seq<Byte> {
    if |payload| <= |data| then payload + data[|payload|..] else payload
  }

  function ProduceStep(s: State, p: Pid): State
    requires p in s.prods && |s.slots| > 0
  {
    var x := s.prods[p].payload;
    match s.prods[p].pc
    case Off => s
    case Entering => SetPc(s, p, if s.count >= |s.slots| then BackOff else Admitted).(count := s.count + 1)
    case BackOff => SetPc(s, p, Off).(count := if s.count > 0 then s.count - 1 else 0)
    case Admitted => SetPc(s, p, CopyData(s.tail)).(tail := s.tail + 1, tickets := s.tickets + [Ticket(p, x)])
    case CopyData(t) => PutSlot(SetPc(s, p, StoreSize(t)), t, At(s, t).(data := Copied(At(s, t).data, x)))
    case StoreSize(t) => PutSlot(SetPc(s, p, StoreOffset(t)), t, At(s, t).(remaining := |x|))
    case StoreOffset(t) => PutSlot(SetPc(s, p, SetReady(t)), t, At(s, t).(offset := 0))
    case SetReady(t) => PutSlot(SetPc(s, p, Off), t, At(s, t).(ready := true))
  }

  function ConsumeStep(s: State): State
    requires |s.slots| > 0
  {
    match s.cons
    case Resting => s
    case SizeHead(buf) => s.(cons := SizeTail(buf, s.head))
    case SizeTail(buf, h) => s.(cons := if s.tail == h then Resting else LoadHead(buf))
    case LoadHead(buf) => s.(cons := Waiting(buf, s.head))
    case Waiting(buf, h) => if At(s, h).ready then s.(cons := Taking(buf, h)) else s
    case Taking(buf, h) =>
      var x := At(s, h);
      if buf < x.remaining || x.remaining > |x.data| then s.(cons := CheckFailed)
      else PutSlot(s, h, x.(remaining := 0, offset := x.offset + x.remaining)).(cons := ClearReady(h),
        received := s.received + [x.data[..x.remaining]])
    case ClearReady(h) => PutSlot(s, h, At(s, h).(offset := 0, ready := false)).(cons := StoreHead(h))
    case StoreHead(h) => s.(head := h + 1, cons := DropCount)
    case DropCount => s.(count := if s.count > 0 then s.count - 1 else 0, cons := Resting)
    case CheckFailed => s
  }

  ghost predicate Can(s: State, a: Action) {
    && |s.slots| > 0
    && match a
       case Send(p, payload) => p in s.prods && s.prods[p].pc == Off && |payload| <= s.max
       case Produce(p) => p in s.prods
       case Recv(_) => s.cons == Resting
       case Consume => true
  }

  function After(s: State, a: Action): State
    requires |s.slots| > 0 && (a.Send? || a.Produce? ==> a.p in s.prods)
  {
    match a
    case Send(p, payload) => s.(prods := s.prods[p := Prod(Entering, payload)])
    case Produce(p) => ProduceStep(s, p)
    case Recv(buf) => if buf == 0 then s else s.(cons := SizeHead(buf))
    case Consume => ConsumeStep(s)
  }

  ghost predicate Init(s: State) {
    && |s.slots| > 0 && s.head == s.tail == s.count == 0 && s.cons == Resting && s.tickets == [] && s.received == []
    && (forall i :: 0 <= i < |s.slots| ==> |s.slots[i].data| == s.max && !s.slots[i].ready)
    && (forall p :: p in s.prods ==> s.prods[p] == Prod(Off, []))
  }

  // ----- slot arithmetic -----

  /** Tickets less than one lap apart have different slots. */
  lemma OtherSlot(n: nat, t: nat, u: nat)
    requires n > 0 && t < u < t + n
    ensures t % n != u % n
  {
    var d := u / n - t / n;
    assert u - t == d * n + (u % n - t % n);
    MulSign(d, n);
  }

  lemma NextLap(n: nat, t: nat)
    requires n > 0
    ensures (t + n) % n == t % n
  {
    var d := (t + n) / n - t / n - 1;
    assert t % n - (t + n) % n == d * n;
    MulSign(d, n);
  }

  // ----- the invariant -----

  ghost function InState(prods: map<Pid, Prod>, pc: ProdPc): set<Pid> {
    set p | p in prods && prods[p].pc == pc
  }

  function Pending(s: State): nat {
    if s.cons == DropCount then 1 else 0
  }

  /** Admitted producers and tickets not released never exceed the slots; `count` also counts the rejected. */
  ghost predicate Counts(s: State) {
    && s.head <= s.tail == |s.tickets|
    && s.tail - s.head + |InState(s.prods, Admitted)| + Pending(s) <= |s.slots|
    && s.count == s.tail - s.head + |InState(s.prods, Admitted)| + |InState(s.prods, BackOff)| + Pending(s)
  }

  /** The ticket a producer is working on, or -1. */
  function Held(pc: ProdPc): int {
    match pc
    case CopyData(t) => t
    case StoreSize(t) => t
    case StoreOffset(t) => t
    case SetReady(t) => t
    case _ => -1
  }

  /** A producer that holds ticket `t` and how much of the slot it has filled. */
  ghost predicate Filling(s: State, x: Prod, t: nat)
    requires |s.slots| > 0
  {
    var sl := At(s, t);
    && !sl.ready
    && (!x.pc.CopyData? ==> |x.payload| <= |sl.data| && sl.data[..|x.payload|] == x.payload)
    && (x.pc.StoreOffset? || x.pc.SetReady? ==> sl.remaining == |x.payload|)
    && (x.pc.SetReady? ==> sl.offset == 0)
  }

  ghost predicate ProdOk(s: State, p: Pid)
    requires p in s.prods && |s.slots| > 0
  {
    var x := s.prods[p];
    && |x.payload| <= s.max
    && (Held(x.pc) >= 0 ==>
          && s.head <= Held(x.pc) < |s.tickets| && s.tickets[Held(x.pc)] == Ticket(p, x.payload)
          && Filling(s, x, Held(x.pc))
          && !(s.cons.StoreHead? && s.cons.h == Held(x.pc)))
  }

  /** The slot of a ticket not released yet: being filled by its producer, ready, or being emptied. */
  ghost predicate TicketOk(s: State, t: nat)
    requires |s.slots| > 0 && t < |s.tickets|
  {
    var sl, x := At(s, t), s.tickets[t];
    && |x.payload| <= s.max
    && (s.cons != ClearReady(t) && s.cons != StoreHead(t) ==>
          if sl.ready then sl.remaining == |x.payload| <= |sl.data| && sl.data[..|x.payload|] == x.payload
          else x.who in s.prods && Held(s.prods[x.who].pc) == t)
  }

  ghost predicate ConsOk(s: State)
    requires |s.slots| > 0
  {
    && s.head <= |s.tickets|
    && match s.cons
       case Resting => Received(s, s.head)
       case SizeHead(_) => Received(s, s.head)
       case SizeTail(_, h) => h == s.head && Received(s, s.head)
       case LoadHead(_) => s.head < s.tail && Received(s, s.head)
       case Waiting(_, h) => h == s.head < s.tail && Received(s, s.head)
       case Taking(_, h) => h == s.head < s.tail && At(s, h).ready && Received(s, s.head)
       case ClearReady(h) => h == s.head < s.tail == |s.tickets| && At(s, h).ready && Received(s, s.head + 1)
       case StoreHead(h) => h == s.head < s.tail == |s.tickets| && !At(s, h).ready && Received(s, s.head + 1)
       case DropCount => Received(s, s.head)
       case CheckFailed => Received(s, s.head)
  }

  /** The consumer has the payloads of the first `n` tickets, in ticket order. */
  ghost predicate Received(s: State, n: nat) {
    n == |s.received| <= |s.tickets| && forall i {:trigger s.received[i]} ::
      0 <= i < n ==> s.received[i] == s.tickets[i].payload
  }

  ghost predicate Inv(s: State) {
    && |s.slots| > 0 && Counts(s) && ConsOk(s)
    && (forall i {:trigger s.slots[i]} :: 0 <= i < |s.slots| ==> |s.slots[i].data| == s.max)
    && (forall p {:trigger ProdOk(s, p)} :: p in s.prods ==> ProdOk(s, p))
    && (forall t {:trigger TicketOk(s, t)} :: s.head <= t < |s.tickets| ==> TicketOk(s, t))
    && (forall t {:trigger At(s, t)} :: s.tail <= t < s.head + |s.slots| ==> !At(s, t).ready)
  }

  lemma InitInv(s: State)
    requires Init(s)
    ensures Inv(s)
  {
    assert InState(s.prods, Admitted) == {} && InState(s.prods, BackOff) == {};
    assert forall t :: At(s, t) in s.slots;
  }

  // ----- producers -----

  lemma InStateSet(prods: map<Pid, Prod>, p: Pid, x: Prod, pc: ProdPc)
    requires p in prods
    ensures InState(prods[p := x], pc) == if x.pc == pc then InState(prods, pc) + {p} else InState(prods, pc) - {p}
    ensures p in InState(prods, pc) <==> prods[p].pc == pc
  {
  }

  lemma Tally(prods: map<Pid, Prod>, p: Pid, x: Prod, pc: ProdPc)
    requires p in prods
    ensures |InState(prods[p := x], pc)| ==
      |InState(prods, pc)| - (if prods[p].pc == pc then 1 else 0) + (if x.pc == pc then 1 else 0)
  {
    InStateSet(prods, p, x, pc);
  }

  /** A producer moves without a ticket before or after. */
  lemma OutsideStep(s: State, p: Pid, x: Prod, count: nat)
    requires Inv(s) && p in s.prods && |x.payload| <= s.max && Held(x.pc) < 0 && Held(s.prods[p].pc) < 0
    requires Counts(s.(prods := s.prods[p := x], count := count))
    ensures Inv(s.(prods := s.prods[p := x], count := count))
  {
    var t := s.(prods := s.prods[p := x], count := count);
    forall q | q in t.prods ensures ProdOk(t, q) {
      if q != p { assert ProdOk(s, q); }
    }
    forall k | t.head <= k < |t.tickets| ensures TicketOk(t, k) {
      assert TicketOk(s, k);
    }
    forall k | t.tail <= k < t.head + |t.slots| ensures !At(t, k).ready {
      assert !At(s, k).ready;
    }
  }

  lemma SendStep(s: State, p: Pid, payload: seq<Byte>)
    requires Inv(s) && Can(s, Send(p, payload))
    ensures Inv(After(s, Send(p, payload)))
  {
    var x := Prod(Entering, payload);
    Tally(s.prods, p, x, Admitted);
    Tally(s.prods, p, x, BackOff);
    OutsideStep(s, p, x, s.count);
  }

  /** A rejected producer inflates the count and takes its share back. */
  lemma EnterStep(s: State, p: Pid)
    requires Inv(s) && p in s.prods && (s.prods[p].pc == Entering || s.prods[p].pc == BackOff)
    ensures Inv(ProduceStep(s, p))
  {
    var t := ProduceStep(s, p);
    assert ProdOk(s, p);
    Tally(s.prods, p, t.prods[p], Admitted);
    Tally(s.prods, p, t.prods[p], BackOff);
    assert s.prods[p].pc == BackOff ==> p in InState(s.prods, BackOff);
    OutsideStep(s, p, t.prods[p], t.count);
  }

  /** Drawing a ticket: its slot is free. */
  lemma AdmitStep(s: State, p: Pid)
    requires Inv(s) && p in s.prods && s.prods[p].pc == Admitted
    ensures Inv(ProduceStep(s, p))
  {
    var t := ProduceStep(s, p);
    assert ProdOk(s, p);
    Tally(s.prods, p, t.prods[p], Admitted);
    Tally(s.prods, p, t.prods[p], BackOff);
    assert p in InState(s.prods, Admitted);
    assert !At(s, s.tail).ready;
    forall q | q in t.prods ensures ProdOk(t, q) {
      if q != p { assert ProdOk(s, q); }
    }
    forall k | t.head <= k < |t.tickets| ensures TicketOk(t, k) {
      if k < |s.tickets| { assert TicketOk(s, k); }
    }
    forall k | t.tail <= k < t.head + |t.slots| ensures !At(t, k).ready {
      assert !At(s, k).ready;
    }
  }

  /** Writing the slot of one ticket leaves the slots of all others in the lap alone. */
  lemma SlotsApart(s: State, t: nat, x: Slot)
    requires |s.slots| > 0 && s.head <= t < s.head + |s.slots|
    ensures At(PutSlot(s, t, x), t) == x
    ensures forall u {:trigger At(PutSlot(s, t, x), u)} ::
      s.head <= u < s.head + |s.slots| && u != t ==> At(PutSlot(s, t, x), u) == At(s, u)
  {
    forall u | s.head <= u < s.head + |s.slots| && u != t ensures At(PutSlot(s, t, x), u) == At(s, u) {
      if u < t { OtherSlot(|s.slots|, u, t); } else { OtherSlot(|s.slots|, t, u); }
    }
  }

  /** A producer that holds ticket `k` writes into its slot, and keeps the ticket or marks the slot ready. */
  ghost predicate GoodWrite(s: State, p: Pid, k: nat, sl: Slot, x: Prod) {
    && |s.slots| > 0 && p in s.prods && Held(s.prods[p].pc) == k && x.payload == s.prods[p].payload
    && |sl.data| == s.max
    && x.pc != Admitted && x.pc != BackOff
    && if sl.ready then Held(x.pc) < 0 && sl.remaining == |x.payload| <= |sl.data|
       && sl.data[..|x.payload|] == x.payload
       else Held(x.pc) == k && Filling(PutSlot(s, k, sl), x, k)
  }

  ghost function Written(s: State, p: Pid, k: nat, sl: Slot, x: Prod): State
    requires |s.slots| > 0
  {
    PutSlot(s, k, sl).(prods := s.prods[p := x])
  }

  lemma WriteProds(s: State, p: Pid, k: nat, sl: Slot, x: Prod, q: Pid)
    requires Inv(s) && GoodWrite(s, p, k, sl, x) && q in s.prods
    ensures ProdOk(Written(s, p, k, sl, x), q)
  {
    var t := Written(s, p, k, sl, x);
    assert ProdOk(s, p) && ProdOk(s, q);
    SlotsApart(s, k, sl);
    var h := Held(t.prods[q].pc);
    if h >= 0 { assert At(t, h) == At(PutSlot(s, k, sl), h); }
  }

  lemma WriteTickets(s: State, p: Pid, k: nat, sl: Slot, x: Prod, u: nat)
    requires Inv(s) && GoodWrite(s, p, k, sl, x) && s.head <= u < |s.tickets|
    ensures TicketOk(Written(s, p, k, sl, x), u)
  {
    var t := Written(s, p, k, sl, x);
    assert ProdOk(s, p) && TicketOk(s, u);
    SlotsApart(s, k, sl);
    assert At(t, u) == At(PutSlot(s, k, sl), u);
  }

  lemma SlotStep(s: State, p: Pid, k: nat, sl: Slot, x: Prod)
    requires Inv(s) && GoodWrite(s, p, k, sl, x)
    ensures Inv(Written(s, p, k, sl, x))
  {
    var t := Written(s, p, k, sl, x);
    assert ProdOk(s, p);
    SlotsApart(s, k, sl);
    Tally(s.prods, p, x, Admitted);
    Tally(s.prods, p, x, BackOff);
    assert !At(s, k).ready;
    forall q | q in t.prods ensures ProdOk(t, q) {
      WriteProds(s, p, k, sl, x, q);
    }
    forall u | t.head <= u < |t.tickets| ensures TicketOk(t, u) {
      WriteTickets(s, p, k, sl, x, u);
    }
    forall u | t.tail <= u < t.head + |t.slots| ensures !At(t, u).ready {
      assert At(t, u) == At(PutSlot(s, k, sl), u) && !At(s, u).ready;
    }
    assert ConsOk(t) by { assert forall u :: At(t, u) == At(PutSlot(s, k, sl), u); }
  }

  lemma FillStep(s: State, p: Pid)
    requires Inv(s) && p in s.prods && Held(s.prods[p].pc) >= 0
    ensures Inv(ProduceStep(s, p))
  {
    var t, k := ProduceStep(s, p), Held(s.prods[p].pc);
    assert ProdOk(s, p);
    var sl, x := At(t, k), t.prods[p];
    SlotsApart(s, k, sl);
    assert At(s, k) in s.slots;
    assert t == Written(s, p, k, sl, x);
    SlotStep(s, p, k, sl, x);
  }

  // ----- the consumer -----

  lemma LoadStep(s: State)
    requires Inv(s) && (s.cons.SizeHead? || s.cons.SizeTail? || s.cons.LoadHead? || s.cons.Waiting?
      || s.cons.DropCount?)
    ensures Inv(ConsumeStep(s))
  {
    var t := ConsumeStep(s);
    ConsMoves(s, t);
  }

  /** The consumer moves and touches no slot. */
  lemma ConsMoves(s: State, t: State)
    requires Inv(s) && t == s.(cons := t.cons, count := t.count) && ConsOk(t) && Counts(t)
    requires forall k ::
      s.cons != ClearReady(k) && t.cons != ClearReady(k) && s.cons != StoreHead(k) && t.cons != StoreHead(k)
    ensures Inv(t)
  {
    forall q | q in t.prods ensures ProdOk(t, q) { assert ProdOk(s, q); }
    forall u | t.head <= u < |t.tickets| ensures TicketOk(t, u) { assert TicketOk(s, u); }
    forall u | t.tail <= u < t.head + |t.slots| ensures !At(t, u).ready { assert !At(s, u).ready; }
  }

  /** Emptying the slot at the head: nobody else is in it. */
  lemma ReleaseProds(s: State, t: State, sl: Slot)
    requires Inv(s) && s.head < s.tail && At(s, s.head).ready && t.slots == PutSlot(s, s.head, sl).slots
    requires t == s.(slots := t.slots, cons := t.cons, received := t.received)
      && (t.cons.StoreHead? ==> t.cons.h == s.head)
    ensures forall q {:trigger ProdOk(t, q)} :: q in t.prods ==> ProdOk(t, q)
  {
    SlotsApart(s, s.head, sl);
    forall q | q in t.prods ensures ProdOk(t, q) {
      assert ProdOk(s, q);
      var u := Held(s.prods[q].pc);
      if u >= 0 { assert At(t, u) == At(PutSlot(s, s.head, sl), u); }
    }
  }

  lemma ReleaseTickets(s: State, t: State, sl: Slot)
    requires Inv(s) && s.head < s.tail && t.slots == PutSlot(s, s.head, sl).slots && At(s, s.head).ready
    requires t == s.(slots := t.slots, cons := t.cons, received := t.received)
      && (t.cons == ClearReady(s.head) || t.cons == StoreHead(s.head))
    requires s.cons.Taking? || s.cons == ClearReady(s.head)
    ensures forall u {:trigger TicketOk(t, u)} :: t.head <= u < |t.tickets| ==> TicketOk(t, u)
    ensures forall u {:trigger At(t, u)} :: t.tail <= u < t.head + |t.slots| ==> !At(t, u).ready
  {
    SlotsApart(s, s.head, sl);
    forall u | t.head <= u < |t.tickets| ensures TicketOk(t, u) {
      assert TicketOk(s, u);
      assert At(t, u) == At(PutSlot(s, s.head, sl), u);
    }
    forall u | t.tail <= u < t.head + |t.slots| ensures !At(t, u).ready {
      assert !At(s, u).ready;
      assert At(t, u) == At(PutSlot(s, s.head, sl), u);
    }
  }

  lemma ReleaseStep(s: State)
    requires Inv(s) && (s.cons.Taking? || s.cons.ClearReady?)
    ensures Inv(ConsumeStep(s))
  {
    var t, h := ConsumeStep(s), s.head;
    assert TicketOk(s, h);
    if t.cons.CheckFailed? {
      ConsMoves(s, t);
    } else {
      var sl := At(t, h);
      assert At(s, h) in s.slots;
      ReleaseProds(s, t, sl);
      ReleaseTickets(s, t, sl);
    }
  }

  lemma HeadStep(s: State)
    requires Inv(s) && s.cons.StoreHead?
    ensures Inv(ConsumeStep(s))
  {
    var t := ConsumeStep(s);
    assert TicketOk(s, s.head);
    forall q | q in t.prods ensures ProdOk(t, q) { assert ProdOk(s, q); }
    forall u | t.head <= u < |t.tickets| ensures TicketOk(t, u) { assert TicketOk(s, u); }
    forall u | t.tail <= u < t.head + |t.slots| ensures !At(t, u).ready {
      if u < s.head + |s.slots| { assert !At(s, u).ready; } else { NextLap(|s.slots|, s.head); }
    }
  }

  lemma StepInv(s: State, a: Action)
    requires Inv(s) && Can(s, a)
    ensures Inv(After(s, a))
  {
    match a
    case Send(p, payload) => SendStep(s, p, payload);
    case Produce(p) =>
      if Held(s.prods[p].pc) >= 0 { FillStep(s, p); }
      else if s.prods[p].pc == Admitted { AdmitStep(s, p); }
      else if s.prods[p].pc != Off { EnterStep(s, p); }
    case Recv(buf) => if buf > 0 { ConsMoves(s, After(s, a)); }
    case Consume =>
      if s.cons.Taking? || s.cons.ClearReady? { ReleaseStep(s); }
      else if s.cons.StoreHead? { HeadStep(s); }
      else if s.cons != Resting && s.cons != CheckFailed { LoadStep(s); }
  }

  // ----- whole runs -----

  ghost predicate IsRun(run: seq<State>, acts: seq<Action>) {
    && |run| == |acts| + 1 && Init(run[0])
    && (forall i {:trigger acts[i]} :: 0 <= i < |acts| ==> Can(run[i], acts[i]) && run[i + 1] == After(run[i], acts[i]))
  }

  lemma {:induction false} RunInv(run: seq<State>, acts: seq<Action>, n: nat)
    requires IsRun(run, acts) && n < |run|
    ensures Inv(run[n])
  {
    if n == 0 {
      InitInv(run[0]);
    } else {
      RunInv(run, acts, n - 1);
      assert Can(run[n - 1], acts[n - 1]);
      StepInv(run[n - 1], acts[n - 1]);
    }
  }

  /** No two producers fill the same slot, and no slot that is being filled holds a payload still to be dequeued. */
  lemma SlotExclusive(run: seq<State>, acts: seq<Action>, n: nat, p: Pid, q: Pid)
    requires IsRun(run, acts) && n < |run| && p in run[n].prods && q in run[n].prods && p != q
    requires Held(run[n].prods[p].pc) >= 0 && Held(run[n].prods[q].pc) >= 0
    ensures |run[n].slots| > 0
    ensures Held(run[n].prods[p].pc) % |run[n].slots| != Held(run[n].prods[q].pc) % |run[n].slots|
    ensures !At(run[n], Held(run[n].prods[p].pc)).ready
  {
    var s := run[n];
    RunInv(run, acts, n);
    assert ProdOk(s, p) && ProdOk(s, q);
    var t, u := Held(s.prods[p].pc), Held(s.prods[q].pc);
    if t < u { OtherSlot(|s.slots|, t, u); } else { OtherSlot(|s.slots|, u, t); }
  }

  /** The consumer gets the payloads in ticket order, each once: what it has received is the payloads of the first
      tickets, and all but the one it is releasing are counted by `head`. */
  lemma InTicketOrder(run: seq<State>, acts: seq<Action>, n: nat, i: nat)
    requires IsRun(run, acts) && n < |run|
    ensures run[n].head <= |run[n].received| <= run[n].head + 1 && |run[n].received| <= |run[n].tickets| == run[n].tail
    ensures i < |run[n].received| ==> run[n].received[i] == run[n].tickets[i].payload
  {
    RunInv(run, acts, n);
  }

  /** No payload is lost: until it is received, the producer of a ticket is still filling its slot, or the slot is
      ready and holds exactly the payload. */
  lemma NothingLost(run: seq<State>, acts: seq<Action>, n: nat, t: nat)
    requires IsRun(run, acts) && n < |run| && |run[n].received| <= t < |run[n].tickets|
    ensures |run[n].slots| > 0
    ensures var s, x := run[n], run[n].tickets[t];
            if At(s, t).ready
            then At(s, t).remaining == |x.payload| <= |At(s, t).data| && At(s, t).data[..|x.payload|] == x.payload
            else x.who in s.prods && Held(s.prods[x.who].pc) == t && s.prods[x.who].payload == x.payload
  {
    RunInv(run, acts, n);
    assert TicketOk(run[n], t);
    if run[n].tickets[t].who in run[n].prods { assert ProdOk(run[n], run[n].tickets[t].who); }
  }

  /** Admission: at most as many producers as slots hold or are about to draw a ticket, however far rejected ones
      push the count. */
  lemma Admission(run: seq<State>, acts: seq<Action>, n: nat)
    requires IsRun(run, acts) && n < |run|
    ensures run[n].tail - run[n].head + |InState(run[n].prods, Admitted)| <= |run[n].slots|
    ensures run[n].count >= run[n].tail - run[n].head + |InState(run[n].prods, Admitted)| + |InState(run[n].prods,
      BackOff)|
    ensures run[n].count <= |run[n].slots| + |InState(run[n].prods, BackOff)|
  {
    RunInv(run, acts, n);
  }

  /** The consumer's check fails exactly when the buffer it was given is too small for the payload at the head. */
  lemma CheckFailsExactly(run: seq<State>, acts: seq<Action>, n: nat)
    requires IsRun(run, acts) && n < |acts| && acts[n] == Consume && run[n].cons.Taking?
    ensures run[n].head < |run[n].tickets|
    ensures run[n + 1].cons == CheckFailed <==> run[n].cons.buf < |run[n].tickets[run[n].head].payload|
    ensures run[n + 1].cons != CheckFailed ==>
      run[n + 1].received == run[n].received + [run[n].tickets[run[n].head].payload]
  {
    RunInv(run, acts, n);
    assert TicketOk(run[n], run[n].head);
    assert run[n + 1] == After(run[n], acts[n]);
  }
}
