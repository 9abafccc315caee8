/**
 Closing the bounded ring. A close sets a mark in the tail word, and the plain tail store of a
 force_push overwrites that word, mark and all. This module says exactly when that can happen.
 */
module BoundedClose {
  import opened Basics
  import opened Laps
  import opened BoundedRing

  /** A thread that can still get to a tail store although the ring is closed: a force_push
      that has moved the head, or that loaded the full ring's tail before the close and finds
      the head where it was. */
  predicate CanReopen(m: Mem, pc: Pc) {
    match pc
    case FTail(_, _) => true
    case PForce(_, t) => t == m.head
    case PTail(_, force, t, closed) => force && !closed && t == m.tail && m.tail == m.head + m.cap
    case _ => false
  }

  ghost predicate SomeoneCanReopen(s: State) {
    exists p :: 0 <= p < |s.pcs| && CanReopen(s.m, s.pcs[p])
  }

  ghost predicate ClosedForGood(s: State) {
    s.m.closed && !SomeoneCanReopen(s)
  }

  // ---------- nobody can reopen it: it stays closed ----------

  /** What a step may do to a ring that is closed for good. */
  predicate StillClosed(m: Mem, m': Mem) {
    m'.closed && m'.cap == m.cap && m'.tail == m.tail && m.head <= m'.head
  }

  lemma ActorCannot(m: Mem, p: nat, pc: Pc, a: Action)
    requires BoundsInv(m) && ThreadInv(m, p, pc) && PcEnabled(pc, a) && m.closed && !CanReopen(m, pc)
    ensures var (m', pc') := Effect(m, pc, a); StillClosed(m, m') && !CanReopen(m', pc')
  {
    ThreadPoint(m, p, pc);
  }

  lemma OthersCannot(m: Mem, m': Mem, q: nat, qc: Pc)
    requires BoundsInv(m) && ThreadInv(m, q, qc) && StillClosed(m, m') && !CanReopen(m, qc)
    ensures !CanReopen(m', qc)
  {
    ThreadPoint(m, q, qc);
  }

  lemma ClosedStep(s: State, a: Action)
    requires Inv(s) && Enabled(s, a) && ClosedForGood(s)
    ensures ClosedForGood(Apply(s, a)) && StillClosed(s.m, Apply(s, a).m)
  {
    var t := Apply(s, a);
    MayAct(s, a);
    ActorCannot(s.m, a.p, s.pcs[a.p], a);
    forall q | 0 <= q < |t.pcs| ensures !CanReopen(t.m, t.pcs[q]) {
      if q != a.p { OthersCannot(s.m, t.m, q, s.pcs[q]); }
    }
  }

  /** The states that lie ahead of s. */
  ghost predicate Reaches(s: State, t: State, path: seq<Action>)
    decreases |path|
  {
    if path == [] then s == t
    else Enabled(s, path[0]) && Reaches(Apply(s, path[0]), t, path[1..])
  }

  lemma {:induction false} StaysClosed(s: State, t: State, path: seq<Action>)
    requires Inv(s) && ClosedForGood(s) && Reaches(s, t, path)
    ensures Inv(t) && ClosedForGood(t) && StillClosed(s.m, t.m)
    decreases |path|
  {
    if path != [] {
      InvStep(s, path[0]);
      ClosedStep(s, path[0]);
      StaysClosed(Apply(s, path[0]), t, path[1..]);
    }
  }

  /** Once closed for good, the ring takes no further value; once it is also drained, no pop
      ever claims another one. */
  lemma ClosedIsFinal(r: seq<State>, i: nat, t: State, path: seq<Action>)
    requires Run(r) && i < |r| && ClosedForGood(r[i]) && Reaches(r[i], t, path)
    ensures ClosedForGood(t) && t.m.tail == r[i].m.tail
    ensures r[i].m.head == r[i].m.tail ==> t.m.head == r[i].m.head
  {
    RunKeepsInv(r, i);
    StaysClosed(r[i], t, path);
  }

  /** With no value in the ring, a force_push that could reopen it would have its value there. */
  lemma EmptyCannotReopen(m: Mem, p: nat, pc: Pc)
    requires BoundsInv(m) && ThreadInv(m, p, pc) && m.head == m.tail && m.forcing == None
    ensures !CanReopen(m, pc)
  {
    ThreadPoint(m, p, pc);
  }

  /** A pop that reports Closed, force_push and all: from then on the ring stays closed, no value
      enters it and no pop ever claims one. */
  lemma ClosedVerdictIsFinal(r: seq<State>, i: nat, p: nat, t: State, path: seq<Action>)
    requires Run(r) && i < |r| && Enabled(r[i], EmptyCheck(p)) && Apply(r[i], EmptyCheck(p)).pcs[p] == Idle
    requires r[i].m.closed && Reaches(r[i], t, path)
    ensures t.m.closed && t.m.tail == r[i].m.tail && t.m.head == t.m.tail
  {
    RunKeepsInv(r, i);
    EmptyVerdictIsTrue(r, i, p);
    forall q | 0 <= q < |r[i].pcs| ensures !CanReopen(r[i].m, r[i].pcs[q]) {
      EmptyCannotReopen(r[i].m, q, r[i].pcs[q]);
    }
    ClosedIsFinal(r, i, t, path);
  }

  // ---------- somebody can: the mark can be lost ----------

  /** The thread a force_push has to wait for before it finds the oldest value in its slot. */
  predicate Finishes(pc: Pc, head: nat, cap: nat) {
    match pc
    case PWrite(_, t) => t == head
    case PStore(t) => t == head
    case FSwap(_, t) => t + cap == head
    case FStore(t) => t + cap == head
    case _ => false
  }

  /** In a full ring with no force_push between its two stores, the slot of the head holds the
      oldest value or is about to. */
  lemma HeadSlot(s: State)
    requires Inv(s) && s.m.tail == s.m.head + s.m.cap && s.m.stamps[s.m.Slot(s.m.head)] != Holds(s.m.head)
    ensures exists q :: 0 <= q < |s.pcs| && Finishes(s.pcs[q], s.m.head, s.m.cap)
  {
    var m, k := s.m, s.m.Slot(s.m.head);
    var u := m.stamps[k].t;
    assert SlotInv(m.cap, m.head, m.tail, k, m.stamps[k], m.own[k]);
    if u < m.head { SameSlot(u, m.head, m.cap); }
    if m.head < u { SameSlot(m.head, u, m.cap); }
    var q := m.own[k].value;
    ThreadPoint(m, q, s.pcs[q]);
    assert Finishes(s.pcs[q], m.head, m.cap);
  }

  /** Some continuation of s loses the closed mark. */
  ghost predicate CanBeReopened(s: State) {
    exists t, path :: Reaches(s, t, path) && !t.m.closed
  }

  lemma Later(s: State, a: Action)
    requires Enabled(s, a) && CanBeReopened(Apply(s, a))
    ensures CanBeReopened(s)
  {
    var t, path :| Reaches(Apply(s, a), t, path) && !t.m.closed;
    assert ([a] + path)[1..] == path;
    assert Reaches(s, t, [a] + path);
  }

  lemma StoreReopens(s: State, p: nat)
    requires s.m.WellFormed() && p < |s.pcs| && s.pcs[p].FTail?
    ensures CanBeReopened(s)
  {
    var t := Apply(s, StoreTail(p));
    assert Reaches(t, t, []);
    Later(s, StoreTail(p));
  }

  lemma DisplaceReopens(s: State, p: nat)
    requires s.m.WellFormed() && p < |s.pcs| && s.pcs[p].PForce? && s.pcs[p].t == s.m.head
    ensures CanBeReopened(s)
  {
    StoreReopens(Apply(s, CasHeadForce(p, false)), p);
    Later(s, CasHeadForce(p, false));
  }

  predicate Forcing(s: State, p: nat) {
    s.m.WellFormed() && p < |s.pcs| && s.pcs[p].PTail? && CanReopen(s.m, s.pcs[p])
  }

  predicate HeadReady(m: Mem) {
    m.WellFormed() && m.stamps[m.Slot(m.head)] == Holds(m.head)
  }

  lemma ForceReopens(s: State, p: nat)
    requires Forcing(s, p) && HeadReady(s.m)
    ensures CanBeReopened(s)
  {
    DisplaceReopens(Apply(s, PushStamp(p)), p);
    Later(s, PushStamp(p));
  }

  /** A force_push waits for the thread q that finishes the slot of the head. */
  lemma StampThenForce(s: State, p: nat, q: nat)
    requires Forcing(s, p) && q < |s.pcs| && Finishes(s.pcs[q], s.m.head, s.m.cap)
    requires s.pcs[q].PStore? || s.pcs[q].FStore?
    ensures CanBeReopened(s)
  {
    var a := if s.pcs[q].PStore? then StoreStamp(q) else StoreForced(q);
    ForceReopens(Apply(s, a), p);
    Later(s, a);
  }

  lemma WriteThenForce(s: State, p: nat, q: nat)
    requires Forcing(s, p) && q < |s.pcs| && Finishes(s.pcs[q], s.m.head, s.m.cap)
    requires s.pcs[q].PWrite? || s.pcs[q].FSwap?
    ensures CanBeReopened(s)
  {
    var a := if s.pcs[q].PWrite? then WriteCell(q) else SwapCell(q);
    StampThenForce(Apply(s, a), p, q);
    Later(s, a);
  }

  lemma CanReopenReopens(s: State, p: nat)
    requires Inv(s) && p < |s.pcs| && CanReopen(s.m, s.pcs[p])
    ensures CanBeReopened(s)
  {
    if s.pcs[p].FTail? { StoreReopens(s, p); }
    else if s.pcs[p].PForce? { DisplaceReopens(s, p); }
    else if HeadReady(s.m) { ForceReopens(s, p); }
    else {
      HeadSlot(s);
      var q :| 0 <= q < |s.pcs| && Finishes(s.pcs[q], s.m.head, s.m.cap);
      if s.pcs[q].PWrite? || s.pcs[q].FSwap? { WriteThenForce(s, p, q); } else { StampThenForce(s, p, q); }
    }
  }

  /** The exact condition: in a reachable closed state, some continuation loses the mark if and
      only if some force_push in flight can reopen the ring. */
  lemma ReopensIff(r: seq<State>, i: nat)
    requires Run(r) && i < |r| && r[i].m.closed
    ensures CanBeReopened(r[i]) <==> SomeoneCanReopen(r[i])
  {
    RunKeepsInv(r, i);
    var s := r[i];
    if SomeoneCanReopen(s) {
      var p :| 0 <= p < |s.pcs| && CanReopen(s.m, s.pcs[p]);
      CanReopenReopens(s, p);
    } else {
      forall t, path | Reaches(s, t, path) ensures t.m.closed {
        StaysClosed(s, t, path);
      }
    }
  }

  // ---------- both cases occur ----------

  lemma OneLooked() returns (r: seq<State>)
    ensures Run(r)
    ensures Last(r) == State(Mem(1, 0, 0, false, [Ready(0)], [None], [], map[], [None], None),
                             [PCas(5, false, 0), Idle])
  {
    r := [Initial(1, 2)];
    r := Extend(r, StartPush(0, 5, false));
    r := Extend(r, LoadTail(0));
    r := Extend(r, PushStamp(0));
  }

  lemma OneReserved() returns (r: seq<State>)
    ensures Run(r)
    ensures Last(r) == State(Mem(1, 0, 1, false, [Ready(0)], [None], [5], map[], [Some(0)], None), [PWrite(5, 0), Idle])
  {
    r := OneLooked();
    r := Extend(r, CasTail(0, false));
  }

  /** A close can be lost: the ring is full, a force_push has loaded the tail, and then the
      ring is closed. */
  lemma ForcePushCanReopen()
    ensures exists r :: Run(r) && Last(r).m.closed && CanBeReopened(Last(r))
  {
    var r := OneReserved();
    r := Extend(r, WriteCell(0));
    r := Extend(r, StoreStamp(0));
    r := Extend(r, StartPush(0, 6, true));
    r := Extend(r, LoadTail(0));
    r := Extend(r, Close(1));
    assert Last(r).m.closed && Last(r).pcs[0] == PTail(6, true, 1, false);
    RunKeepsInv(r, |r| - 1);
    CanReopenReopens(Last(r), 0);
  }
}
