/**
 The calls of the bounded ring: what a push, a force_push and a pop have done when they return,
 against what they were asked for. A call is observed from outside, by what its thread's steps
 change in the shared memory.
 */
module BoundedCalls {
  import opened Basics
  import opened Laps
  import opened BoundedRing
  import BoundedClose

  /** A run and the actions it took. */
  ghost predicate Trace(r: seq<State>, acts: seq<Action>) {
    && |r| == |acts| + 1 && r[0].m.cap > 0 && r[0] == Initial(r[0].m.cap, |r[0].pcs|)
    && forall i :: 0 <= i < |acts| ==> Enabled(r[i], acts[i]) && r[i + 1] == Apply(r[i], acts[i])
  }

  /** The current or last call of a thread: how it began, the tickets it added and claimed, and
      whether the ring was closed at one of its steps. */
  datatype Call = NoCall | Call(asked: Action, added: seq<nat>, claimed: seq<nat>, closed: bool)

  predicate Starts(a: Action) {
    a.StartPush? || a.StartPop? || a.StartLen? || a.Close?
  }

  function Observe(c: Call, a: Action, m: Mem, m': Mem): Call {
    if Starts(a) then Call(a, [], [], m.closed)
    else if c.NoCall? then c
    else
      c.(added := if |m'.log| > |m.log| then c.added + [|m.log|] else c.added,
         claimed := if m'.head > m.head then c.claimed + [m.head] else c.claimed,
         closed := c.closed || m.closed)
  }

  /** The call of thread p after the first k actions. */
  ghost function CallOf(r: seq<State>, acts: seq<Action>, k: nat, p: nat): Call
    requires Trace(r, acts) && k <= |acts|
  {
    if k == 0 then NoCall
    else if acts[k - 1].p != p then CallOf(r, acts, k - 1, p)
    else Observe(CallOf(r, acts, k - 1, p), acts[k - 1], r[k - 1].m, r[k].m)
  }

  predicate Nothing(c: Call) {
    c.Call? && c.added == [] && c.claimed == []
  }

  /** Ticket t was added with the value asked for, and nothing else. */
  predicate Added(m: Mem, c: Call, t: nat) {
    c.Call? && c.asked.StartPush? && c.added == [t] && t < |m.log| && m.log[t] == c.asked.v
  }

  /** A push has done nothing yet. */
  predicate Pushing(c: Call, v: Value) {
    Nothing(c) && c.asked.StartPush? && c.asked.v == v
  }

  /** How far the call of a thread at pc got. */
  predicate CallFacts(m: Mem, pc: Pc, c: Call) {
    match pc
    case Idle => true
    case PLoad(v, force) => Pushing(c, v) && c.asked.force == force
    case PTail(v, force, _, closed) => Pushing(c, v) && c.asked.force == force && (closed ==> c.closed)
    case PCas(v, force, _) => Pushing(c, v) && c.asked.force == force
    case PFull(v, _) => Pushing(c, v) && !c.asked.force
    case PForce(v, _) => Pushing(c, v) && c.asked.force
    case PWrite(_, t) => Added(m, c, t) && c.claimed == []
    case PStore(t) => Added(m, c, t) && c.claimed == []
    case FTail(_, t) => Added(m, c, t + m.cap) && c.asked.force && c.claimed == [t]
    case FSwap(_, t) => Added(m, c, t + m.cap) && c.asked.force && c.claimed == [t]
    case FStore(t) => Added(m, c, t + m.cap) && c.asked.force && c.claimed == [t] && t in m.out
    case QRead(t) => c.Call? && c.asked.StartPop? && c.added == [] && c.claimed == [t]
    case QStore(t) => c.Call? && c.asked.StartPop? && c.added == [] && c.claimed == [t] && t in m.out
    case LLoad => Nothing(c) && c.asked.StartLen?
    case LTail(_, _) => Nothing(c) && c.asked.StartLen?
    case LHead(_, _, _, _) => Nothing(c) && c.asked.StartLen?
    case _ => Nothing(c) && c.asked.StartPop?
  }

  ghost predicate CallInv(m: Mem, pc: Pc, c: Call) {
    forall x :: x == pc ==> CallFacts(m, x, c)
  }

  lemma CallPoint(m: Mem, pc: Pc, c: Call)
    requires CallInv(m, pc, c)
    ensures CallFacts(m, pc, c)
  {
  }

  /** Nothing logged or taken out is changed. */
  predicate Keeps(m: Mem, m': Mem) {
    && m'.cap == m.cap && |m.log| <= |m'.log| && m'.log[..|m.log|] == m.log
    && forall t :: t in m.out ==> t in m'.out
  }

  lemma StepKeeps(m: Mem, m': Mem, pc: Pc, a: Action)
    requires m.WellFormed() && PcEnabled(pc, a) && m' == Effect(m, pc, a).0
    ensures Keeps(m, m')
  {
  }

  lemma OtherCall(m: Mem, m': Mem, pc: Pc, c: Call)
    requires Keeps(m, m') && CallInv(m, pc, c)
    ensures CallInv(m', pc, c)
  {
    CallPoint(m, pc, c);
  }

  lemma OwnLook(m: Mem, m': Mem, pc: Pc, a: Action, c: Call)
    requires m.WellFormed() && PcEnabled(pc, a) && !Writes(m, pc, a) && CallInv(m, pc, c) && m' == Effect(m, pc, a).0
    ensures CallInv(m', Effect(m, pc, a).1, Observe(c, a, m, m'))
  {
    CallPoint(m, pc, c);
  }

  lemma OwnReserve(m: Mem, m': Mem, p: nat, pc: Pc, c: Call)
    requires m.WellFormed() && pc.PCas? && m.tail == pc.t && |m.log| == m.tail && CallInv(m, pc, c)
    requires m' == Reserve(m, p, pc.t, pc.v)
    ensures CallInv(m', PWrite(pc.v, pc.t), Observe(c, CasTail(p, false), m, m'))
  {
    CallPoint(m, pc, c);
  }

  lemma OwnDisplace(m: Mem, m': Mem, p: nat, pc: Pc, c: Call)
    requires m.WellFormed() && pc.PForce? && m.head == pc.t && |m.log| == pc.t + m.cap && CallInv(m, pc, c)
    requires m' == Displace(m, p, pc.t, pc.v)
    ensures CallInv(m', FTail(pc.v, pc.t), Observe(c, CasHeadForce(p, false), m, m'))
  {
    CallPoint(m, pc, c);
  }

  lemma OwnClaim(m: Mem, m': Mem, p: nat, pc: Pc, c: Call)
    requires m.WellFormed() && pc.QCas? && m.head == pc.t && CallInv(m, pc, c) && m' == Claim(m, p, pc.t)
    ensures CallInv(m', QRead(pc.t), Observe(c, CasHead(p, false), m, m'))
  {
    CallPoint(m, pc, c);
  }

  lemma OwnTail(m: Mem, m': Mem, p: nat, pc: Pc, c: Call)
    requires pc.FTail? && CallInv(m, pc, c) && m' == MoveTail(m, pc.t)
    ensures CallInv(m', FSwap(pc.v, pc.t), Observe(c, StoreTail(p), m, m'))
  {
    CallPoint(m, pc, c);
  }

  lemma OwnMove(m: Mem, m': Mem, p: nat, pc: Pc, a: Action, c: Call)
    requires CanAct(m, p, pc, a) && Writes(m, pc, a) && CallInv(m, pc, c) && m' == Effect(m, pc, a).0
    requires a.CasTail? || a.CasHeadForce? || a.CasHead? || a.StoreTail?
    ensures CallInv(m', Effect(m, pc, a).1, Observe(c, a, m, m'))
  {
    match a
    case CasTail(_, _) => OwnReserve(m, m', p, pc, c);
    case CasHeadForce(_, _) => OwnDisplace(m, m', p, pc, c);
    case CasHead(_, _) => OwnClaim(m, m', p, pc, c);
    case StoreTail(_) => OwnTail(m, m', p, pc, c);
  }

  lemma OwnStore(m: Mem, m': Mem, p: nat, pc: Pc, a: Action, c: Call)
    requires CanAct(m, p, pc, a) && Writes(m, pc, a) && CallInv(m, pc, c) && m' == Effect(m, pc, a).0
    requires !a.CasTail? && !a.CasHeadForce? && !a.CasHead? && !a.StoreTail?
    ensures CallInv(m', Effect(m, pc, a).1, Observe(c, a, m, m'))
  {
    CallPoint(m, pc, c);
  }

  lemma OwnCall(m: Mem, m': Mem, p: nat, pc: Pc, a: Action, c: Call)
    requires CanAct(m, p, pc, a) && CallInv(m, pc, c) && m' == Effect(m, pc, a).0
    ensures CallInv(m', Effect(m, pc, a).1, Observe(c, a, m, m'))
  {
    if !Writes(m, pc, a) { OwnLook(m, m', pc, a, c); }
    else if a.CasTail? || a.CasHeadForce? || a.CasHead? || a.StoreTail? { OwnMove(m, m', p, pc, a, c); }
    else { OwnStore(m, m', p, pc, a, c); }
  }

  lemma {:induction false} TraceInv(r: seq<State>, acts: seq<Action>, k: nat)
    requires Trace(r, acts) && k <= |acts|
    ensures Inv(r[k])
    ensures forall p :: 0 <= p < |r[k].pcs| ==> CallInv(r[k].m, r[k].pcs[p], CallOf(r, acts, k, p))
    decreases k
  {
    if k == 0 {
      InitInv(r[0].m.cap, |r[0].pcs|);
    } else {
      TraceInv(r, acts, k - 1);
      var s, a := r[k - 1], acts[k - 1];
      InvStep(s, a);
      MayAct(s, a);
      StepKeeps(s.m, r[k].m, s.pcs[a.p], a);
      forall p | 0 <= p < |r[k].pcs| ensures CallInv(r[k].m, r[k].pcs[p], CallOf(r, acts, k, p)) {
        if p == a.p { OwnCall(s.m, r[k].m, p, s.pcs[p], a, CallOf(r, acts, k - 1, p)); }
        else { OtherCall(s.m, r[k].m, s.pcs[p], CallOf(r, acts, k - 1, p)); }
      }
    }
  }

  // ---------- what a call adds and claims ----------

  /** Only a push adds a value, and it is the one it was given; only a force_push claims a ticket
      with it, and only a pop claims one without. */
  predicate Asked(m: Mem, m': Mem, c: Call) {
    && (m'.log != m.log ==> c.Call? && c.asked.StartPush? && m'.log == m.log + [c.asked.v])
    && (m'.head != m.head ==>
          m'.head == m.head + 1 && c.Call? && if m'.log != m.log then c.asked.StartPush? && c.asked.force
                                              else c.asked.StartPop?)
  }

  lemma AskedStep(m: Mem, m': Mem, p: nat, pc: Pc, a: Action, c: Call)
    requires CanAct(m, p, pc, a) && CallInv(m, pc, c) && m' == Effect(m, pc, a).0
    ensures Asked(m, m', c)
  {
    if Moves(m, pc, a) { CallPoint(m, pc, c); } else { QueueSame(m, pc, a); }
  }

  /** In every run. */
  lemma AddsWhatWasAsked(r: seq<State>, acts: seq<Action>, k: nat)
    requires Trace(r, acts) && k < |acts|
    ensures Asked(r[k].m, r[k + 1].m, CallOf(r, acts, k, acts[k].p))
  {
    TraceInv(r, acts, k);
    MayAct(r[k], acts[k]);
    AskedStep(r[k].m, r[k + 1].m, acts[k].p, r[k].pcs[acts[k].p], acts[k], CallOf(r, acts, k, acts[k].p));
  }

  // ---------- what a call has done when it returns ----------

  /** Its one ticket carries the value given and can be popped; a force_push has displaced and
      taken out at most the ticket one lap before. */
  predicate Pushed(m: Mem, c: Call, t: nat) {
    && m.WellFormed() && Added(m, c, t) && m.own[m.Slot(t)] == None && m.stamps[m.Slot(t)] == Holds(t)
    && (c.claimed == [] || (c.asked.force && t >= m.cap && c.claimed == [t - m.cap] && t - m.cap in m.out))
  }

  predicate Popped(m: Mem, c: Call, t: nat) {
    c.Call? && c.added == [] && c.claimed == [t] && t in m.out && t < |m.log| && m.out[t] == Some(m.log[t])
  }

  /** m: the memory at the last access; m': after it. */
  ghost predicate Returned(m: Mem, m': Mem, c: Call) {
    && m.head <= |m.log| && c.Call?
    && match c.asked
       case StartPush(_, _, force) =>
         || (exists t :: Pushed(m', c, t))
         || (Nothing(c) && (c.closed || (!force && |m.Queue()| == m.cap)))
       case StartPop(_) => (exists t :: Popped(m', c, t)) || (Nothing(c) && m.Queue() == [])
       case Close(_) => Nothing(c) && m' == m.(closed := true)
       case _ => Nothing(c)
  }

  lemma PushReturns(m: Mem, m': Mem, p: nat, pc: Pc, c: Call)
    requires MemInv(m) && ThreadInv(m, p, pc) && pc.PStore? && CallInv(m, pc, c)
    requires m' == Release(m, pc.t, Holds(pc.t))
    ensures Returned(m, m', Observe(c, StoreStamp(p), m, m'))
  {
    CallPoint(m, pc, c);
    ThreadPoint(m, p, pc);
    assert Pushed(m', Observe(c, StoreStamp(p), m, m'), pc.t);
  }

  lemma ForceReturns(m: Mem, m': Mem, p: nat, pc: Pc, c: Call)
    requires MemInv(m) && ThreadInv(m, p, pc) && pc.FStore? && CallInv(m, pc, c)
    requires m' == Release(m, pc.t, Holds(pc.t + m.cap))
    ensures Returned(m, m', Observe(c, StoreForced(p), m, m'))
  {
    CallPoint(m, pc, c);
    ThreadPoint(m, p, pc);
    assert m.Slot(pc.t + m.cap) == m.Slot(pc.t);
    assert Pushed(m', Observe(c, StoreForced(p), m, m'), pc.t + m.cap);
  }

  lemma PopReturns(m: Mem, m': Mem, p: nat, pc: Pc, c: Call)
    requires MemInv(m) && ThreadInv(m, p, pc) && pc.QStore? && CallInv(m, pc, c)
    requires m' == Release(m, pc.t, Ready(pc.t + m.cap))
    ensures Returned(m, m', Observe(c, StoreFree(p), m, m'))
  {
    CallPoint(m, pc, c);
    ThreadPoint(m, p, pc);
    assert Popped(m', Observe(c, StoreFree(p), m, m'), pc.t);
  }

  lemma ReturnStores(m: Mem, m': Mem, p: nat, pc: Pc, a: Action, c: Call)
    requires CanAct(m, p, pc, a) && CallInv(m, pc, c) && m' == Effect(m, pc, a).0
    requires a.StoreStamp? || a.StoreForced? || a.StoreFree?
    ensures Returned(m, m', Observe(c, a, m, m'))
  {
    match a
    case StoreStamp(_) => PushReturns(m, m', p, pc, c);
    case StoreForced(_) => ForceReturns(m, m', p, pc, c);
    case StoreFree(_) => PopReturns(m, m', p, pc, c);
  }

  lemma ReturnLooks(m: Mem, m': Mem, p: nat, pc: Pc, a: Action, c: Call)
    requires CanAct(m, p, pc, a) && CallInv(m, pc, c) && m' == Effect(m, pc, a).0 && Effect(m, pc, a).1 == Idle
    requires !a.StoreStamp? && !a.StoreForced? && !a.StoreFree? && (a.EmptyCheck? ==> m.forcing == None)
    ensures Returned(m, m', Observe(c, a, m, m'))
  {
    CallPoint(m, pc, c);
    ThreadPoint(m, p, pc);
  }

  lemma NotForcingAtEmpty(s: State, a: Action)
    requires Inv(s) && Enabled(s, a) && a.EmptyCheck? && s.m.tail == s.pcs[a.p].t
    ensures s.m.forcing == None
  {
    ThreadPoint(s.m, a.p, s.pcs[a.p]);
    if s.m.forcing.Some? {
      ThreadPoint(s.m, s.m.forcing.value, s.pcs[s.m.forcing.value]);
      assert false;
    }
  }

  /** Whatever else goes on: a push that returns has put exactly its value into the ring, or has
      done nothing and found the ring closed or full; a pop has taken exactly one ticket out, with
      its value, or has found the ring empty; a close leaves the ring closed. */
  lemma EveryCallReturnsWhatItShould(r: seq<State>, acts: seq<Action>, k: nat)
    requires Trace(r, acts) && k < |acts| && r[k + 1].pcs[acts[k].p] == Idle
    ensures Returned(r[k].m, r[k + 1].m, CallOf(r, acts, k + 1, acts[k].p))
  {
    var s, a := r[k], acts[k];
    TraceInv(r, acts, k);
    TraceInv(r, acts, k + 1);
    MayAct(s, a);
    var c := CallOf(r, acts, k, a.p);
    if a.StoreStamp? || a.StoreForced? || a.StoreFree? { ReturnStores(s.m, r[k + 1].m, a.p, s.pcs[a.p], a, c); }
    else {
      if a.EmptyCheck? { NotForcingAtEmpty(s, a); }
      ReturnLooks(s.m, r[k + 1].m, a.p, s.pcs[a.p], a, c);
    }
  }

  // ---------- a call alone ----------

  /** Nobody is in a call. */
  predicate Quiet(s: State) {
    forall p :: 0 <= p < |s.pcs| ==> s.pcs[p] == Idle
  }

  /** Steps of thread p alone lead from s to the end of its call, with memory m. */
  ghost predicate Finishes(s: State, p: nat, m: Mem) {
    exists t: State, path: seq<Action> ::
      && BoundedClose.Reaches(s, t, path) && (forall i :: 0 <= i < |path| ==> path[i].p == p)
      && |t.pcs| == |s.pcs| && p < |t.pcs| && t.pcs == s.pcs[p := Idle] && t.m == m
  }

  lemma Finished(s: State, p: nat)
    requires p < |s.pcs| && s.pcs[p] == Idle
    ensures Finishes(s, p, s.m)
  {
    assert s.pcs == s.pcs[p := Idle];
    assert BoundedClose.Reaches(s, s, []);
  }

  lemma Before(s: State, a: Action, m: Mem)
    requires Enabled(s, a) && Finishes(Apply(s, a), a.p, m)
    ensures Finishes(s, a.p, m)
  {
    var t: State, path: seq<Action> :|
      && BoundedClose.Reaches(Apply(s, a), t, path) && (forall i :: 0 <= i < |path| ==> path[i].p == a.p)
      && |t.pcs| == |Apply(s, a).pcs| && a.p < |t.pcs| && t.pcs == Apply(s, a).pcs[a.p := Idle] && t.m == m;
    assert ([a] + path)[1..] == path;
    assert BoundedClose.Reaches(s, t, [a] + path);
    assert t.pcs == s.pcs[a.p := Idle];
  }

  /** In a quiet ring the slot of the tail is free, or holds the oldest value of a full ring; that
      of the head holds the oldest value, or is free in an empty ring. */
  lemma QuietSlots(s: State)
    requires Inv(s) && Quiet(s)
    ensures var m := s.m;
            && m.forcing == None && |m.log| == m.tail && (forall i :: 0 <= i < m.cap ==> m.own[i] == None)
            && m.stamps[m.Slot(m.tail)] == (if m.tail < m.head + m.cap then Ready(m.tail) else Holds(m.tail - m.cap))
            && m.stamps[m.Slot(m.head)] == (if m.head < m.tail then Holds(m.head) else Ready(m.head))
            && (m.head < m.tail ==> m.cells[m.Slot(m.head)] == Some(m.log[m.head]))
  {
    var m := s.m;
    assert forall i :: 0 <= i < m.cap ==> m.own[i] == None;
    TailSlot(m);
    HeadSlot(m);
  }

  lemma TailSlot(m: Mem)
    requires MemInv(m) && forall i :: 0 <= i < m.cap ==> m.own[i] == None
    ensures m.stamps[m.Slot(m.tail)] == (if m.tail < m.head + m.cap then Ready(m.tail) else Holds(m.tail - m.cap))
  {
    var k := m.Slot(m.tail);
    var u := m.stamps[k].t;
    assert SlotInv(m.cap, m.head, m.tail, k, m.stamps[k], m.own[k]);
    if u < m.tail { SameSlot(u, m.tail, m.cap); }
    if m.tail < u { SameSlot(m.tail, u, m.cap); }
  }

  lemma HeadSlot(m: Mem)
    requires MemInv(m) && forall i :: 0 <= i < m.cap ==> m.own[i] == None
    ensures m.stamps[m.Slot(m.head)] == (if m.head < m.tail then Holds(m.head) else Ready(m.head))
    ensures m.head < m.tail ==> m.head < |m.log| && m.cells[m.Slot(m.head)] == Some(m.log[m.head])
  {
    var k := m.Slot(m.head);
    var u := m.stamps[k].t;
    assert SlotInv(m.cap, m.head, m.tail, k, m.stamps[k], m.own[k]);
    if m.head < u { SameSlot(m.head, u, m.cap); }
  }

  /** The ring after a push of v alone, after a force_push into a full ring, and after a pop. */
  function WithPushed(m: Mem, v: Value): Mem
    requires m.WellFormed()
  {
    var k := m.Slot(m.tail);
    m.(tail := m.tail + 1, log := m.log + [v], cells := m.cells[k := Some(v)], stamps := m.stamps[k := Holds(m.tail)])
  }

  function WithForced(m: Mem, v: Value): Mem
    requires m.WellFormed()
  {
    var k := m.Slot(m.head);
    m.(head := m.head + 1, tail := m.tail + 1, log := m.log + [v], cells := m.cells[k := Some(v)],
       stamps := m.stamps[k := Holds(m.tail)], out := m.out[m.head := m.cells[k]])
  }

  function WithPopped(m: Mem): Mem
    requires m.WellFormed()
  {
    var k := m.Slot(m.head);
    m.(head := m.head + 1, cells := m.cells[k := None], stamps := m.stamps[k := Ready(m.head + m.cap)],
       out := m.out[m.head := m.cells[k]])
  }

  /** What a call of p, begun by a in a quiet ring and left alone, does. */
  function Alone(m: Mem, a: Action): Mem
    requires m.WellFormed()
  {
    match a
    case StartPush(_, v, force) =>
      if m.closed then m
      else if m.tail < m.head + m.cap then WithPushed(m, v)
      else if force then WithForced(m, v)
      else m
    case StartPop(_) => if m.head < m.tail then WithPopped(m) else m
    case Close(_) => m.(closed := true)
    case _ => m
  }

  /** Thread p is at pc. */
  predicate About(s: State, p: nat, pc: Pc) {
    s.m.WellFormed() && p < |s.pcs| && s.pcs[p] == pc
  }

  lemma StoreAlone(s: State, p: nat, t: nat)
    requires About(s, p, PStore(t))
    ensures Finishes(s, p, Release(s.m, t, Holds(t)))
  {
    var s' := Apply(s, StoreStamp(p));
    Finished(s', p);
    Before(s, StoreStamp(p), s'.m);
  }

  lemma WriteAlone(s: State, p: nat, v: Value, t: nat)
    requires About(s, p, PWrite(v, t))
    ensures Finishes(s, p, Release(WriteAt(s.m, t, v), t, Holds(t)))
  {
    StoreAlone(Apply(s, WriteCell(p)), p, t);
    Before(s, WriteCell(p), Release(WriteAt(s.m, t, v), t, Holds(t)));
  }

  lemma ReserveAlone(s: State, p: nat, v: Value, force: bool)
    requires About(s, p, PCas(v, force, s.m.tail)) && !s.m.closed && s.m.own[s.m.Slot(s.m.tail)] == None
    ensures Finishes(s, p, WithPushed(s.m, v))
  {
    var a := CasTail(p, false);
    var t := Apply(s, a);
    WriteAlone(t, p, v, s.m.tail);
    assert Release(WriteAt(t.m, s.m.tail, v), s.m.tail, Holds(s.m.tail)) == WithPushed(s.m, v);
    Before(s, a, WithPushed(s.m, v));
  }

  lemma FreeAlone(s: State, p: nat, t: nat)
    requires About(s, p, QStore(t))
    ensures Finishes(s, p, Release(s.m, t, Ready(t + s.m.cap)))
  {
    var s' := Apply(s, StoreFree(p));
    Finished(s', p);
    Before(s, StoreFree(p), s'.m);
  }

  lemma ReadAlone(s: State, p: nat, t: nat)
    requires About(s, p, QRead(t))
    ensures Finishes(s, p, Release(TakeAt(s.m, t), t, Ready(t + s.m.cap)))
  {
    FreeAlone(Apply(s, ReadCell(p)), p, t);
    Before(s, ReadCell(p), Release(TakeAt(s.m, t), t, Ready(t + s.m.cap)));
  }

  lemma ClaimAlone(s: State, p: nat)
    requires About(s, p, QCas(s.m.head)) && s.m.own[s.m.Slot(s.m.head)] == None
    ensures Finishes(s, p, WithPopped(s.m))
  {
    var a := CasHead(p, false);
    var t := Apply(s, a);
    ReadAlone(t, p, s.m.head);
    assert Release(TakeAt(t.m, s.m.head), s.m.head, Ready(s.m.head + s.m.cap)) == WithPopped(s.m);
    Before(s, a, WithPopped(s.m));
  }

  lemma ForcedAlone(s: State, p: nat, t: nat)
    requires About(s, p, FStore(t))
    ensures Finishes(s, p, Release(s.m, t, Holds(t + s.m.cap)))
  {
    var s' := Apply(s, StoreForced(p));
    Finished(s', p);
    Before(s, StoreForced(p), s'.m);
  }

  lemma SwapAlone(s: State, p: nat, v: Value, t: nat)
    requires About(s, p, FSwap(v, t))
    ensures Finishes(s, p, Release(SwapAt(s.m, t, v), t, Holds(t + s.m.cap)))
  {
    ForcedAlone(Apply(s, SwapCell(p)), p, t);
    Before(s, SwapCell(p), Release(SwapAt(s.m, t, v), t, Holds(t + s.m.cap)));
  }

  lemma TailAlone(s: State, p: nat, v: Value, t: nat)
    requires About(s, p, FTail(v, t))
    ensures Finishes(s, p, Release(SwapAt(MoveTail(s.m, t), t, v), t, Holds(t + s.m.cap)))
  {
    SwapAlone(Apply(s, StoreTail(p)), p, v, t);
    Before(s, StoreTail(p), Release(SwapAt(MoveTail(s.m, t), t, v), t, Holds(t + s.m.cap)));
  }

  lemma DisplaceAlone(s: State, p: nat, v: Value)
    requires About(s, p, PForce(v, s.m.head)) && !s.m.closed && s.m.own[s.m.Slot(s.m.head)] == None
    requires s.m.forcing == None && s.m.tail == s.m.head + s.m.cap
    ensures Finishes(s, p, WithForced(s.m, v))
  {
    var a, h := CasHeadForce(p, false), s.m.head;
    var t := Apply(s, a);
    TailAlone(t, p, v, h);
    assert Release(SwapAt(MoveTail(t.m, h), h, v), h, Holds(h + s.m.cap)) == WithForced(s.m, v);
    Before(s, a, WithForced(s.m, v));
  }

  /** After its first load a push decides by the stamp of the tail's slot. */
  lemma PushAlone(s: State, p: nat, v: Value, force: bool)
    requires Inv(s) && About(s, p, PTail(v, force, s.m.tail, s.m.closed)) && Quiet(s.(pcs := s.pcs[p := Idle]))
    ensures Finishes(s, p, Alone(s.m, StartPush(p, v, force)))
  {
    QuietAgain(s, p);
    QuietSlots(s.(pcs := s.pcs[p := Idle]));
    var t := Apply(s, PushStamp(p));
    if s.m.closed { Finished(t, p); }
    else if s.m.tail < s.m.head + s.m.cap { ReserveAlone(t, p, v, force); }
    else if force { DisplaceAlone(t, p, v); }
    else {
      Finished(Apply(t, FullCheck(p)), p);
      Before(t, FullCheck(p), t.m);
    }
    Before(s, PushStamp(p), Alone(s.m, StartPush(p, v, force)));
  }

  lemma QuietAgain(s: State, p: nat)
    requires Inv(s) && p < |s.pcs| && Owned(s.pcs[p]) == None
    ensures Inv(s.(pcs := s.pcs[p := Idle]))
  {
    OwnersLook(s.m, s.pcs, p, Idle);
  }

  lemma PopAlone(s: State, p: nat)
    requires Inv(s) && p < |s.pcs| && s.pcs[p] == QHead(s.m.head) && Quiet(s.(pcs := s.pcs[p := Idle]))
    ensures Finishes(s, p, Alone(s.m, StartPop(p)))
  {
    QuietAgain(s, p);
    QuietSlots(s.(pcs := s.pcs[p := Idle]));
    var t := Apply(s, PopStamp(p));
    if s.m.head < s.m.tail { ClaimAlone(t, p); }
    else {
      Finished(Apply(t, EmptyCheck(p)), p);
      Before(t, EmptyCheck(p), t.m);
    }
    Before(s, PopStamp(p), Alone(s.m, StartPop(p)));
  }

  lemma LenAlone(s: State, p: nat)
    requires About(s, p, LLoad)
    ensures Finishes(s, p, s.m)
  {
    var s1 := Apply(s, LenTail(p));
    var s2 := Apply(s1, LenHead(p));
    Finished(Apply(s2, LenCheck(p)), p);
    Before(s2, LenCheck(p), s.m);
    Before(s1, LenHead(p), s.m);
    Before(s, LenTail(p), s.m);
  }

  /** On the queue of values. */
  lemma AloneOnQueue(m: Mem, a: Action)
    requires BoundsInv(m) && m.forcing == None
    ensures var m' := Alone(m, a);
            && m'.head <= |m'.log|
            && match a
               case StartPush(_, v, force) =>
                 m'.Queue() == if m.closed then m.Queue()
                               else if |m.Queue()| < m.cap then m.Queue() + [v]
                               else if force then m.Queue()[1..] + [v]
                               else m.Queue()
               case StartPop(_) => m'.Queue() == if m.Queue() == [] then [] else m.Queue()[1..]
               case _ => m'.Queue() == m.Queue()
  {
  }

  /** Left alone, every call of a quiet ring comes to its end and does exactly what it does on a
      sequential ring: a push adds its value, unless the ring is closed, or full and it is not a
      force_push; then a force_push replaces the oldest value; a pop takes the oldest one out. */
  lemma AloneIsSequential(r: seq<State>, i: nat, a: Action)
    requires Run(r) && i < |r| && Quiet(r[i]) && Enabled(r[i], a) && Starts(a)
    ensures r[i].m.WellFormed() && Finishes(Apply(r[i], a), a.p, Alone(r[i].m, a))
  {
    RunKeepsInv(r, i);
    var s, t := r[i], Apply(r[i], a);
    InvStep(s, a);
    match a
    case StartPush(p, v, force) =>
      InvStep(t, LoadTail(p));
      PushAlone(Apply(t, LoadTail(p)), p, v, force);
      Before(t, LoadTail(p), Alone(s.m, a));
    case StartPop(p) =>
      InvStep(t, LoadHead(p));
      PopAlone(Apply(t, LoadHead(p)), p);
      Before(t, LoadHead(p), Alone(s.m, a));
    case StartLen(p) => LenAlone(t, p);
    case Close(p) => Finished(t, p);
  }
}
