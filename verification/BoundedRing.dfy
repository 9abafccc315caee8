/**
 The bounded ring, at the level of tickets. Every push reserves the next tail ticket, every
 pop claims the next head ticket, and each slot carries a stamp that names the ticket it is
 ready for or the ticket whose value it holds. One action is one atomic access, or one access
 to a value cell; BoundedWords shows that the packed words of the code do exactly this.
 */
module BoundedRing {
  import opened Basics
  import opened Laps

  type Value = int

  datatype Stamp =
    | Ready(t: nat)    // free for ticket t
    | Holds(t: nat)    // written by ticket t

  datatype Pc =
    | Idle
    // push and force_push
    | PLoad(v: Value, force: bool)
    | PTail(v: Value, force: bool, t: nat, closed: bool)  // loaded the tail
    | PCas(v: Value, force: bool, t: nat)                 // saw Ready(t): about to CAS the tail
    | PFull(v: Value, t: nat)                             // push saw Holds(t - cap): about to load the head
    | PForce(v: Value, t: nat)                            // force_push saw Holds(t): about to CAS the head
    | PWrite(v: Value, t: nat)                            // owns the slot of t: about to write the cell
    | PStore(t: nat)                                      // about to store the stamp
    | FTail(v: Value, t: nat)                             // displaced t, pushes t + cap: about to store the tail
    | FSwap(v: Value, t: nat)                             // about to swap the cell
    | FStore(t: nat)                                      // about to store the stamp
    // pop
    | QLoad
    | QHead(t: nat)                                       // loaded the head
    | QCas(t: nat)                                        // saw Holds(t): about to CAS the head
    | QTail(t: nat)                                       // saw Ready(t): about to load the tail
    | QRead(t: nat)                                       // owns the slot of t: about to read the cell
    | QStore(t: nat)                                      // about to store the stamp
    // len
    | LLoad
    | LTail(t: nat, closed: bool)
    | LHead(t: nat, closed: bool, h: nat, diff: int)      // diff: tail minus head when the head was loaded

  /** The shared memory of the ring, with its history. */
  datatype Mem = Mem(
    cap: nat,
    head: nat,
    tail: nat,
    closed: bool,
    stamps: seq<Stamp>,
    cells: seq<Option<Value>>,
    // history
    log: seq<Value>,              // log[t]: the value ticket t was reserved for
    out: map<nat, Option<Value>>, // out[t]: what was read out of the slot when ticket t left
    own: seq<Option<nat>>,        // which thread has a slot to itself
    forcing: Option<nat>)         // the thread between its head CAS and its tail store
  {
    predicate WellFormed() {
      cap > 0 && |stamps| == |cells| == |own| == cap
    }

    /** The abstract queue: the values of the outstanding tickets, oldest first. */
    function Queue(): seq<Value>
      requires head <= |log|
    {
      log[head..]
    }

    function Slot(t: nat): (i: nat)
      requires WellFormed()
      ensures i < cap
    {
      Idx(t, cap)
    }
  }

  datatype State = State(m: Mem, pcs: seq<Pc>)

  datatype Action =
    | StartPush(p: nat, v: Value, force: bool) | LoadTail(p: nat) | PushStamp(p: nat) | CasTail(p: nat, spurious: bool)
    | WriteCell(p: nat) | StoreStamp(p: nat) | FullCheck(p: nat) | CasHeadForce(p: nat, spurious: bool)
    | StoreTail(p: nat) | SwapCell(p: nat) | StoreForced(p: nat)
    | StartPop(p: nat) | LoadHead(p: nat) | PopStamp(p: nat) | CasHead(p: nat, spurious: bool) | EmptyCheck(p: nat)
    | ReadCell(p: nat) | StoreFree(p: nat)
    | StartLen(p: nat) | LenTail(p: nat) | LenHead(p: nat) | LenCheck(p: nat)
    | Close(p: nat)

  function Initial(cap: nat, threads: nat): State
    requires cap > 0
  {
    State(Mem(cap, 0, 0, false, seq(cap, (i: nat) => Ready(i)), seq(cap, _ => None),
              [], map[], seq(cap, _ => None), None),
          seq(threads, _ => Idle))
  }

  predicate Enabled(s: State, a: Action) {
    && s.m.WellFormed() && a.p < |s.pcs|
    && var pc := s.pcs[a.p];
       PcEnabled(pc, a)
  }

  predicate PcEnabled(pc: Pc, a: Action) {
    match a
    case StartPush(_, _, _) => pc == Idle
    case LoadTail(_) => pc.PLoad?
    case PushStamp(_) => pc.PTail?
    case CasTail(_, _) => pc.PCas?
    case WriteCell(_) => pc.PWrite?
    case StoreStamp(_) => pc.PStore?
    case FullCheck(_) => pc.PFull?
    case CasHeadForce(_, _) => pc.PForce?
    case StoreTail(_) => pc.FTail?
    case SwapCell(_) => pc.FSwap?
    case StoreForced(_) => pc.FStore?
    case StartPop(_) => pc == Idle
    case LoadHead(_) => pc.QLoad?
    case PopStamp(_) => pc.QHead?
    case CasHead(_, _) => pc.QCas?
    case EmptyCheck(_) => pc.QTail?
    case ReadCell(_) => pc.QRead?
    case StoreFree(_) => pc.QStore?
    case StartLen(_) => pc == Idle
    case LenTail(_) => pc.LLoad?
    case LenHead(_) => pc.LTail?
    case LenCheck(_) => pc.LHead?
    case Close(_) => pc == Idle
  }

  /** After loading the stamp of the tail's slot. */
  function AfterPushStamp(cap: nat, pc: Pc, stamp: Stamp): Pc
    requires pc.PTail?
  {
    if pc.closed then Idle                                             // PushError::Closed
    else if stamp == Ready(pc.t) then PCas(pc.v, pc.force, pc.t)
    else if pc.t >= cap && stamp == Holds(pc.t - cap) then
      if pc.force then PForce(pc.v, pc.t - cap) else PFull(pc.v, pc.t)
    else PLoad(pc.v, pc.force)
  }

  function AfterPopStamp(pc: Pc, stamp: Stamp): Pc
    requires pc.QHead?
  {
    if stamp == Holds(pc.t) then QCas(pc.t)
    else if stamp == Ready(pc.t) then QTail(pc.t)
    else QLoad
  }

  // ---------- the effects on the shared memory ----------

  /** The tail CAS of push. */
  function Reserve(m: Mem, p: nat, t: nat, v: Value): Mem
    requires m.WellFormed()
  {
    m.(tail := m.tail + 1, log := m.log + [v], own := m.own[m.Slot(t) := Some(p)])
  }

  function WriteAt(m: Mem, t: nat, v: Value): Mem
    requires m.WellFormed()
  {
    m.(cells := m.cells[m.Slot(t) := Some(v)])
  }

  /** Storing the stamp gives the slot up. */
  function Release(m: Mem, t: nat, stamp: Stamp): Mem
    requires m.WellFormed()
  {
    m.(stamps := m.stamps[m.Slot(t) := stamp], own := m.own[m.Slot(t) := None])
  }

  /** The stamp a thread stores when it is done with its slot. */
  function FinalStamp(cap: nat, pc: Pc): Stamp
    requires pc.PStore? || pc.FStore? || pc.QStore?
  {
    if pc.PStore? then Holds(pc.t) else if pc.FStore? then Holds(pc.t + cap) else Ready(pc.t + cap)
  }

  /** The head CAS of force_push: the oldest ticket is displaced, the new one logged. */
  function Displace(m: Mem, p: nat, t: nat, v: Value): Mem
    requires m.WellFormed()
  {
    m.(head := m.head + 1, log := m.log + [v], own := m.own[m.Slot(t) := Some(p)], forcing := Some(p))
  }

  /** The tail store of force_push; it also clears the closed mark. */
  function MoveTail(m: Mem, t: nat): Mem {
    m.(tail := t + m.cap + 1, closed := false, forcing := None)
  }

  function SwapAt(m: Mem, t: nat, v: Value): Mem
    requires m.WellFormed()
  {
    m.(cells := m.cells[m.Slot(t) := Some(v)], out := m.out[t := m.cells[m.Slot(t)]])
  }

  /** The head CAS of pop. */
  function Claim(m: Mem, p: nat, t: nat): Mem
    requires m.WellFormed()
  {
    m.(head := m.head + 1, own := m.own[m.Slot(t) := Some(p)])
  }

  function TakeAt(m: Mem, t: nat): Mem
    requires m.WellFormed()
  {
    m.(cells := m.cells[m.Slot(t) := None], out := m.out[t := m.cells[m.Slot(t)]])
  }

  /** Memory and program counter of the acting thread after the action. */
  function Effect(m: Mem, pc: Pc, a: Action): (Mem, Pc)
    requires m.WellFormed() && PcEnabled(pc, a)
  {
    match a
    case StartPush(_, v, force) => (m, PLoad(v, force))
    case LoadTail(_) => (m, PTail(pc.v, pc.force, m.tail, m.closed))
    case PushStamp(_) => (m, AfterPushStamp(m.cap, pc, m.stamps[m.Slot(pc.t)]))
    case CasTail(_, spurious) =>
      if m.tail == pc.t && !m.closed && !spurious then (Reserve(m, a.p, pc.t, pc.v), PWrite(pc.v, pc.t))
      else (m, PTail(pc.v, pc.force, m.tail, m.closed))
    case WriteCell(_) => (WriteAt(m, pc.t, pc.v), PStore(pc.t))
    case StoreStamp(_) => (Release(m, pc.t, FinalStamp(m.cap, pc)), Idle)
    case FullCheck(_) => (m, if m.head + m.cap == pc.t then Idle else PLoad(pc.v, false))
    case CasHeadForce(_, spurious) =>
      if m.head == pc.t && !spurious then (Displace(m, a.p, pc.t, pc.v), FTail(pc.v, pc.t))
      else (m, PLoad(pc.v, true))
    case StoreTail(_) => (MoveTail(m, pc.t), FSwap(pc.v, pc.t))
    case SwapCell(_) => (SwapAt(m, pc.t, pc.v), FStore(pc.t))
    case StoreForced(_) => (Release(m, pc.t, FinalStamp(m.cap, pc)), Idle)
    case StartPop(_) => (m, QLoad)
    case LoadHead(_) => (m, QHead(m.head))
    case PopStamp(_) => (m, AfterPopStamp(pc, m.stamps[m.Slot(pc.t)]))
    case CasHead(_, spurious) =>
      if m.head == pc.t && !spurious then (Claim(m, a.p, pc.t), QRead(pc.t)) else (m, QHead(m.head))
    case EmptyCheck(_) => (m, if m.tail == pc.t then Idle else QLoad)
    case ReadCell(_) => (TakeAt(m, pc.t), QStore(pc.t))
    case StoreFree(_) => (Release(m, pc.t, FinalStamp(m.cap, pc)), Idle)
    case StartLen(_) => (m, LLoad)
    case LenTail(_) => (m, LTail(m.tail, m.closed))
    case LenHead(_) => (m, LHead(pc.t, pc.closed, m.head, m.tail - m.head))
    case LenCheck(_) => (m, if m.tail == pc.t && m.closed == pc.closed then Idle else LLoad)
    case Close(_) => (m.(closed := true), Idle)
  }

  function Apply(s: State, a: Action): State
    requires Enabled(s, a)
  {
    var (m, pc) := Effect(s.m, s.pcs[a.p], a);
    State(m, s.pcs[a.p := pc])
  }

  ghost predicate Next(s: State, t: State) {
    exists a :: Enabled(s, a) && t == Apply(s, a)
  }

  ghost predicate Run(r: seq<State>) {
    && |r| > 0 && r[0].m.cap > 0 && r[0] == Initial(r[0].m.cap, |r[0].pcs|)
    && forall i :: 0 <= i < |r| - 1 ==> Next(r[i], r[i + 1])
  }

  // ---------- the inductive invariant ----------

  predicate BoundsInv(m: Mem) {
    && m.WellFormed()
    && m.head <= m.tail <= m.head + m.cap
    && |m.log| == m.tail + (if m.forcing.Some? then 1 else 0)
    && |m.log| <= m.head + m.cap
  }

  /** The ticket whose slot a thread has to itself (for force_push, the displaced one). */
  function Owned(pc: Pc): Option<nat> {
    if pc.PWrite? || pc.PStore? || pc.FTail? || pc.FSwap? || pc.FStore? || pc.QRead? || pc.QStore? then Some(pc.t)
    else None
  }

  /** The stamp of a slot, against head and tail, says who may use it. */
  predicate SlotInv(cap: nat, head: nat, tail: nat, i: nat, stamp: Stamp, own: Option<nat>)
    requires cap > 0
  {
    && Idx(stamp.t, cap) == i
    && match stamp
       case Ready(t) => if own.None? then tail <= t < head + cap else head <= t < tail
       case Holds(t) => if own.None? then head <= t < tail else t < head && head <= t + cap && tail <= t + cap + cap
  }

  predicate SlotsInv(m: Mem)
    requires m.WellFormed()
  {
    forall i :: 0 <= i < m.cap ==> SlotInv(m.cap, m.head, m.tail, i, m.stamps[i], m.own[i])
  }

  /** Slot i holds the value of ticket t, which has not left yet. */
  predicate HasValue(m: Mem, i: nat, t: nat)
    requires m.WellFormed() && i < m.cap
  {
    t < |m.log| && m.cells[i] == Some(m.log[t]) && t !in m.out
  }

  predicate CellsInv(m: Mem)
    requires m.WellFormed()
  {
    forall i :: 0 <= i < m.cap && m.stamps[i].Holds? && m.own[i].None? ==> HasValue(m, i, m.stamps[i].t)
  }

  predicate OutInv(m: Mem) {
    forall t :: t in m.out ==> t < m.head && t < |m.log| && m.out[t] == Some(m.log[t])
  }

  /** A claimed ticket has left, or a thread is about to take its value. */
  predicate ClaimedInv(m: Mem)
    requires m.WellFormed()
  {
    forall t: nat :: t < m.head && t !in m.out ==> m.stamps[m.Slot(t)] == Holds(t) && m.own[m.Slot(t)].Some?
  }

  predicate MemInv(m: Mem) {
    BoundsInv(m) && SlotsInv(m) && CellsInv(m) && OutInv(m) && ClaimedInv(m)
  }

  predicate OwnersInv(m: Mem, pcs: seq<Pc>)
    requires m.WellFormed()
  {
    && (forall i :: 0 <= i < m.cap && m.own[i].Some? ==>
          m.own[i].value < |pcs| && Owned(pcs[m.own[i].value]) == Some(m.stamps[i].t))
    && (m.forcing.Some? ==> m.forcing.value < |pcs| && pcs[m.forcing.value].FTail?)
  }

  predicate OwnSlot(m: Mem, p: nat, t: nat, stamp: Stamp)
    requires m.WellFormed()
  {
    m.own[m.Slot(t)] == Some(p) && m.stamps[m.Slot(t)] == stamp
  }

  /** What thread p relies on at pc. */
  predicate ThreadFacts(m: Mem, p: nat, pc: Pc)
    requires m.WellFormed()
  {
    match pc
    case PTail(_, _, t, _) => t <= m.tail
    case PCas(_, _, t) => t <= m.tail && (t == m.tail ==> m.stamps[m.Slot(t)] == Ready(t))
    case PFull(_, t) => t <= m.tail
    case PForce(_, t) => t + m.cap <= m.tail && (m.head <= t ==> m.stamps[m.Slot(t)] == Holds(t))
    case PWrite(v, t) => OwnSlot(m, p, t, Ready(t)) && t < |m.log| && m.log[t] == v
    case PStore(t) => OwnSlot(m, p, t, Ready(t)) && HasValue(m, m.Slot(t), t)
    case FTail(v, t) =>
      && OwnSlot(m, p, t, Holds(t)) && m.forcing == Some(p) && m.tail == t + m.cap
      && HasValue(m, m.Slot(t), t) && t + m.cap < |m.log| && m.log[t + m.cap] == v
    case FSwap(v, t) =>
      && OwnSlot(m, p, t, Holds(t)) && t + m.cap < m.tail
      && HasValue(m, m.Slot(t), t) && t + m.cap < |m.log| && m.log[t + m.cap] == v
    case FStore(t) =>
      && OwnSlot(m, p, t, Holds(t)) && t + m.cap < m.tail && t in m.out
      && HasValue(m, m.Slot(t), t + m.cap)
    case QHead(t) => t <= m.head
    case QCas(t) => t <= m.head && (t == m.head ==> m.stamps[m.Slot(t)] == Holds(t))
    case QTail(t) => t <= m.head && m.stamps[m.Slot(t)].t >= t
    case QRead(t) => OwnSlot(m, p, t, Holds(t)) && m.tail <= t + m.cap && HasValue(m, m.Slot(t), t)
    case QStore(t) => OwnSlot(m, p, t, Holds(t)) && m.tail <= t + m.cap && t in m.out
    case LTail(t, _) => t <= m.tail
    case LHead(t, _, h, diff) => t <= h + diff <= m.tail && 0 <= diff <= m.cap
    case _ => true
  }

  // The facts of all points make a long formula. The invariant quantifies over it, so that it
  // comes into a proof only where ThreadPoint is called.

  ghost predicate ThreadInv(m: Mem, p: nat, pc: Pc)
    requires m.WellFormed()
  {
    forall x :: x == pc ==> ThreadFacts(m, p, x)
  }

  lemma ThreadPoint(m: Mem, p: nat, pc: Pc)
    requires m.WellFormed() && ThreadInv(m, p, pc)
    ensures ThreadFacts(m, p, pc)
  {
  }

  ghost predicate ThreadsInv(m: Mem, pcs: seq<Pc>)
    requires m.WellFormed()
  {
    forall p :: 0 <= p < |pcs| ==> ThreadInv(m, p, pcs[p])
  }

  ghost predicate Inv(s: State) {
    MemInv(s.m) && OwnersInv(s.m, s.pcs) && ThreadsInv(s.m, s.pcs)
  }

  // ---------- each effect keeps the memory invariant ----------

  lemma ReserveMem(m: Mem, p: nat, t: nat, v: Value)
    requires MemInv(m) && m.forcing.None? && t == m.tail && m.stamps[m.Slot(t)] == Ready(t)
    ensures MemInv(Reserve(m, p, t, v))
  {
  }

  lemma DisplaceMem(m: Mem, p: nat, t: nat, v: Value)
    requires MemInv(m) && m.forcing.None? && t == m.head && m.tail == t + m.cap && m.stamps[m.Slot(t)] == Holds(t)
    ensures MemInv(Displace(m, p, t, v))
  {
  }

  lemma MoveTailMem(m: Mem, p: nat, v: Value, t: nat)
    requires MemInv(m) && ThreadInv(m, p, FTail(v, t))
    ensures MemInv(MoveTail(m, t))
  {
    ThreadPoint(m, p, FTail(v, t));
  }

  lemma ClaimMem(m: Mem, p: nat, t: nat)
    requires MemInv(m) && t == m.head && m.stamps[m.Slot(t)] == Holds(t)
    ensures MemInv(Claim(m, p, t))
  {
  }

  lemma WriteMem(m: Mem, p: nat, t: nat, v: Value)
    requires MemInv(m) && ThreadInv(m, p, PWrite(v, t))
    ensures MemInv(WriteAt(m, t, v))
  {
    ThreadPoint(m, p, PWrite(v, t));
  }

  lemma SwapMem(m: Mem, p: nat, t: nat, v: Value)
    requires MemInv(m) && ThreadInv(m, p, FSwap(v, t))
    ensures MemInv(SwapAt(m, t, v))
  {
    ThreadPoint(m, p, FSwap(v, t));
  }

  lemma TakeMem(m: Mem, p: nat, t: nat)
    requires MemInv(m) && ThreadInv(m, p, QRead(t))
    ensures MemInv(TakeAt(m, t))
  {
    ThreadPoint(m, p, QRead(t));
  }

  lemma StoreMem(m: Mem, m': Mem, p: nat, t: nat)
    requires MemInv(m) && ThreadInv(m, p, PStore(t))
    requires m' == Release(m, t, Holds(t))
    ensures MemInv(m')
  {
    ThreadPoint(m, p, PStore(t));
  }

  lemma ForcedMem(m: Mem, m': Mem, p: nat, t: nat)
    requires MemInv(m) && ThreadInv(m, p, FStore(t))
    requires m' == Release(m, t, Holds(t + m.cap))
    ensures MemInv(m')
  {
    ThreadPoint(m, p, FStore(t));
    var k := m.Slot(t);
    assert SlotInv(m.cap, m.head, m.tail, k, m.stamps[k], m.own[k]) && m.Slot(t + m.cap) == k;
    assert SlotInv(m.cap, m.head, m.tail, k, m'.stamps[k], m'.own[k]);
  }

  lemma FreeMem(m: Mem, m': Mem, p: nat, t: nat)
    requires MemInv(m) && ThreadInv(m, p, QStore(t))
    requires m' == Release(m, t, Ready(t + m.cap))
    ensures MemInv(m')
  {
    ThreadPoint(m, p, QStore(t));
  }

  // ---------- and what every other thread relies on ----------

  lemma ReserveOther(m: Mem, p: nat, t: nat, v: Value, q: nat, pc: Pc)
    requires MemInv(m) && m.forcing.None? && t == m.tail && m.stamps[m.Slot(t)] == Ready(t)
    requires q != p && ThreadInv(m, q, pc)
    ensures ThreadInv(Reserve(m, p, t, v), q, pc)
  {
    ThreadPoint(m, q, pc);
  }

  lemma DisplaceOther(m: Mem, p: nat, t: nat, v: Value, q: nat, pc: Pc)
    requires MemInv(m) && m.forcing.None? && t == m.head && m.tail == t + m.cap && m.stamps[m.Slot(t)] == Holds(t)
    requires q != p && ThreadInv(m, q, pc)
    ensures ThreadInv(Displace(m, p, t, v), q, pc)
  {
    ThreadPoint(m, q, pc);
  }

  lemma MoveTailOther(m: Mem, p: nat, v: Value, t: nat, q: nat, pc: Pc)
    requires MemInv(m) && ThreadInv(m, p, FTail(v, t))
    requires q != p && ThreadInv(m, q, pc)
    ensures ThreadInv(MoveTail(m, t), q, pc)
  {
    ThreadPoint(m, q, pc);
    ThreadPoint(m, p, FTail(v, t));
  }

  lemma ClaimOther(m: Mem, p: nat, t: nat, q: nat, pc: Pc)
    requires MemInv(m) && t == m.head && m.stamps[m.Slot(t)] == Holds(t)
    requires q != p && ThreadInv(m, q, pc)
    ensures ThreadInv(Claim(m, p, t), q, pc)
  {
    ThreadPoint(m, q, pc);
  }

  lemma WriteOther(m: Mem, p: nat, t: nat, v: Value, q: nat, pc: Pc)
    requires MemInv(m) && ThreadInv(m, p, PWrite(v, t))
    requires q != p && ThreadInv(m, q, pc)
    ensures ThreadInv(WriteAt(m, t, v), q, pc)
  {
    ThreadPoint(m, q, pc);
    ThreadPoint(m, p, PWrite(v, t));
  }

  lemma SwapOther(m: Mem, p: nat, t: nat, v: Value, q: nat, pc: Pc)
    requires MemInv(m) && ThreadInv(m, p, FSwap(v, t))
    requires q != p && ThreadInv(m, q, pc)
    ensures ThreadInv(SwapAt(m, t, v), q, pc)
  {
    ThreadPoint(m, q, pc);
    ThreadPoint(m, p, FSwap(v, t));
  }

  lemma TakeOther(m: Mem, p: nat, t: nat, q: nat, pc: Pc)
    requires MemInv(m) && ThreadInv(m, p, QRead(t))
    requires q != p && ThreadInv(m, q, pc)
    ensures ThreadInv(TakeAt(m, t), q, pc)
  {
    ThreadPoint(m, q, pc);
    ThreadPoint(m, p, QRead(t));
  }

  lemma StoreOther(m: Mem, m': Mem, p: nat, t: nat, q: nat, qc: Pc)
    requires MemInv(m) && ThreadInv(m, p, PStore(t)) && q != p && ThreadInv(m, q, qc)
    requires m' == Release(m, t, Holds(t))
    ensures m'.WellFormed() && ThreadInv(m', q, qc)
  {
    ThreadPoint(m, q, qc);
    ThreadPoint(m, p, PStore(t));
  }

  lemma ForcedOther(m: Mem, m': Mem, p: nat, t: nat, q: nat, qc: Pc)
    requires MemInv(m) && ThreadInv(m, p, FStore(t)) && q != p && ThreadInv(m, q, qc)
    requires m' == Release(m, t, Holds(t + m.cap))
    ensures m'.WellFormed() && ThreadInv(m', q, qc)
  {
    ThreadPoint(m, q, qc);
    ThreadPoint(m, p, FStore(t));
  }

  lemma FreeOther(m: Mem, m': Mem, p: nat, t: nat, q: nat, qc: Pc)
    requires MemInv(m) && ThreadInv(m, p, QStore(t)) && q != p && ThreadInv(m, q, qc)
    requires m' == Release(m, t, Ready(t + m.cap))
    ensures m'.WellFormed() && ThreadInv(m', q, qc)
  {
    ThreadPoint(m, q, qc);
    ThreadPoint(m, p, QStore(t));
  }

  // ---------- every action keeps the invariant ----------

  /** The action changes the shared memory (and is not a close). */
  predicate Writes(m: Mem, pc: Pc, a: Action)
    requires m.WellFormed() && PcEnabled(pc, a)
  {
    match a
    case CasTail(_, spurious) => m.tail == pc.t && !m.closed && !spurious
    case CasHeadForce(_, spurious) => m.head == pc.t && !spurious
    case CasHead(_, spurious) => m.head == pc.t && !spurious
    case WriteCell(_) => true
    case StoreStamp(_) => true
    case StoreTail(_) => true
    case SwapCell(_) => true
    case StoreForced(_) => true
    case ReadCell(_) => true
    case StoreFree(_) => true
    case _ => false
  }

  lemma NotForcing(s: State, a: Action)
    requires Inv(s) && Enabled(s, a) && (a.CasTail? || a.CasHeadForce?) && Writes(s.m, s.pcs[a.p], a)
    ensures s.m.forcing.None?
    ensures a.CasHeadForce? ==> s.m.tail == s.pcs[a.p].t + s.m.cap
  {
    ThreadPoint(s.m, a.p, s.pcs[a.p]);
    var m := s.m;
    if m.forcing.Some? {
      ThreadPoint(m, m.forcing.value, s.pcs[m.forcing.value]);
      assert false;
    }
  }

  /** What a thread may rely on when it acts. */
  ghost predicate CanAct(m: Mem, p: nat, pc: Pc, a: Action) {
    && MemInv(m) && PcEnabled(pc, a) && a.p == p && ThreadInv(m, p, pc)
    && ((a.CasTail? || a.CasHeadForce?) && Writes(m, pc, a) ==> m.forcing.None?)
    && (a.CasHeadForce? && Writes(m, pc, a) ==> m.tail == pc.t + m.cap)
  }

  lemma MayAct(s: State, a: Action)
    requires Inv(s) && Enabled(s, a)
    ensures CanAct(s.m, a.p, s.pcs[a.p], a)
  {
    assert ThreadInv(s.m, a.p, s.pcs[a.p]);
    if (a.CasTail? || a.CasHeadForce?) && Writes(s.m, s.pcs[a.p], a) { NotForcing(s, a); }
  }

  lemma MemMove(m: Mem, m': Mem, p: nat, pc: Pc, a: Action)
    requires CanAct(m, p, pc, a) && Writes(m, pc, a) && m' == Effect(m, pc, a).0
    requires a.CasTail? || a.CasHeadForce? || a.CasHead? || a.StoreTail?
    ensures MemInv(m')
  {
    ThreadPoint(m, p, pc);
    match a
    case CasTail(_, _) => ReserveMem(m, p, pc.t, pc.v);
    case CasHeadForce(_, _) => DisplaceMem(m, p, pc.t, pc.v);
    case CasHead(_, _) => ClaimMem(m, p, pc.t);
    case StoreTail(_) => MoveTailMem(m, p, pc.v, pc.t);
  }

  lemma MemCell(m: Mem, m': Mem, p: nat, pc: Pc, a: Action)
    requires CanAct(m, p, pc, a) && m' == Effect(m, pc, a).0
    requires a.WriteCell? || a.SwapCell? || a.ReadCell?
    ensures MemInv(m')
  {
    match a
    case WriteCell(_) => WriteMem(m, p, pc.t, pc.v);
    case SwapCell(_) => SwapMem(m, p, pc.t, pc.v);
    case ReadCell(_) => TakeMem(m, p, pc.t);
  }

  lemma MemStamp(m: Mem, m': Mem, p: nat, pc: Pc, a: Action)
    requires CanAct(m, p, pc, a) && m' == Effect(m, pc, a).0
    requires a.StoreStamp? || a.StoreForced? || a.StoreFree?
    ensures MemInv(m')
  {
    match a
    case StoreStamp(_) => StoreMem(m, m', p, pc.t);
    case StoreForced(_) => ForcedMem(m, m', p, pc.t);
    case StoreFree(_) => FreeMem(m, m', p, pc.t);
  }

  lemma MemLook(m: Mem, m': Mem, pc: Pc, a: Action)
    requires MemInv(m) && PcEnabled(pc, a) && !Writes(m, pc, a) && m' == Effect(m, pc, a).0
    ensures MemInv(m')
  {
    LookOwnsNothing(m, pc, a);
  }

  lemma MemStep(m: Mem, p: nat, pc: Pc, a: Action)
    requires CanAct(m, p, pc, a)
    ensures MemInv(Effect(m, pc, a).0)
  {
    var m' := Effect(m, pc, a).0;
    if !Writes(m, pc, a) { MemLook(m, m', pc, a); }
    else if a.CasTail? || a.CasHeadForce? || a.CasHead? || a.StoreTail? { MemMove(m, m', p, pc, a); }
    else if a.WriteCell? || a.SwapCell? || a.ReadCell? { MemCell(m, m', p, pc, a); }
    else { MemStamp(m, m', p, pc, a); }
  }

  lemma OtherMove(m: Mem, p: nat, pc: Pc, a: Action, q: nat, qc: Pc)
    requires CanAct(m, p, pc, a) && q != p && ThreadInv(m, q, qc) && Writes(m, pc, a)
    requires a.CasTail? || a.CasHeadForce? || a.CasHead? || a.StoreTail?
    ensures Effect(m, pc, a).0.WellFormed() && ThreadInv(Effect(m, pc, a).0, q, qc)
  {
    ThreadPoint(m, p, pc);
    match a
    case CasTail(_, _) => ReserveOther(m, p, pc.t, pc.v, q, qc);
    case CasHeadForce(_, _) => DisplaceOther(m, p, pc.t, pc.v, q, qc);
    case CasHead(_, _) => ClaimOther(m, p, pc.t, q, qc);
    case StoreTail(_) => MoveTailOther(m, p, pc.v, pc.t, q, qc);
  }

  lemma OtherCell(m: Mem, p: nat, pc: Pc, a: Action, q: nat, qc: Pc)
    requires CanAct(m, p, pc, a) && q != p && ThreadInv(m, q, qc)
    requires a.WriteCell? || a.SwapCell? || a.ReadCell?
    ensures Effect(m, pc, a).0.WellFormed() && ThreadInv(Effect(m, pc, a).0, q, qc)
  {
    match a
    case WriteCell(_) => WriteOther(m, p, pc.t, pc.v, q, qc);
    case SwapCell(_) => SwapOther(m, p, pc.t, pc.v, q, qc);
    case ReadCell(_) => TakeOther(m, p, pc.t, q, qc);
  }

  lemma OtherStamp(m: Mem, p: nat, pc: Pc, a: Action, q: nat, qc: Pc)
    requires CanAct(m, p, pc, a) && q != p && ThreadInv(m, q, qc)
    requires a.StoreStamp? || a.StoreForced? || a.StoreFree?
    ensures Effect(m, pc, a).0.WellFormed() && ThreadInv(Effect(m, pc, a).0, q, qc)
  {
    var m' := Effect(m, pc, a).0;
    match a
    case StoreStamp(_) => StoreOther(m, m', p, pc.t, q, qc);
    case StoreForced(_) => ForcedOther(m, m', p, pc.t, q, qc);
    case StoreFree(_) => FreeOther(m, m', p, pc.t, q, qc);
  }

  lemma OtherClose(m: Mem, q: nat, qc: Pc)
    requires m.WellFormed() && ThreadInv(m, q, qc)
    ensures ThreadInv(m.(closed := true), q, qc)
  {
    ThreadPoint(m, q, qc);
  }

  lemma OwnMove(m: Mem, p: nat, pc: Pc, a: Action)
    requires CanAct(m, p, pc, a) && Writes(m, pc, a) && (a.CasTail? || a.CasHeadForce? || a.CasHead? || a.StoreTail?)
    ensures Effect(m, pc, a).0.WellFormed() && ThreadInv(Effect(m, pc, a).0, p, Effect(m, pc, a).1)
  {
    ThreadPoint(m, p, pc);
  }

  lemma OwnStore(m: Mem, p: nat, pc: Pc, a: Action)
    requires CanAct(m, p, pc, a) && !a.CasTail? && !a.CasHeadForce? && !a.CasHead? && !a.StoreTail? && Writes(m, pc, a)
    ensures Effect(m, pc, a).0.WellFormed() && ThreadInv(Effect(m, pc, a).0, p, Effect(m, pc, a).1)
  {
    ThreadPoint(m, p, pc);
  }

  lemma OwnWrite(m: Mem, p: nat, pc: Pc, a: Action)
    requires CanAct(m, p, pc, a) && Writes(m, pc, a)
    ensures Effect(m, pc, a).0.WellFormed() && ThreadInv(Effect(m, pc, a).0, p, Effect(m, pc, a).1)
  {
    if a.CasTail? || a.CasHeadForce? || a.CasHead? || a.StoreTail? { OwnMove(m, p, pc, a); }
    else { OwnStore(m, p, pc, a); }
  }

  predicate IsPush(a: Action) {
    a.StartPush? || a.LoadTail? || a.PushStamp? || a.CasTail? || a.FullCheck? || a.CasHeadForce?
  }

  lemma OwnPushLook(m: Mem, p: nat, pc: Pc, a: Action)
    requires CanAct(m, p, pc, a) && !Writes(m, pc, a) && IsPush(a)
    ensures ThreadInv(m, p, Effect(m, pc, a).1)
  {
    ThreadPoint(m, p, pc);
  }

  lemma OwnPopLook(m: Mem, p: nat, pc: Pc, a: Action)
    requires CanAct(m, p, pc, a) && !Writes(m, pc, a) && !IsPush(a)
    ensures ThreadInv(m, p, Effect(m, pc, a).1)
  {
    ThreadPoint(m, p, pc);
  }

  lemma LookOwnsNothing(m: Mem, pc: Pc, a: Action)
    requires m.WellFormed() && PcEnabled(pc, a) && !Writes(m, pc, a)
    ensures Owned(pc) == None && Owned(Effect(m, pc, a).1) == None
    ensures Effect(m, pc, a).0 == m || Effect(m, pc, a).0 == m.(closed := true)
  {
  }

  lemma OwnersLook(m: Mem, pcs: seq<Pc>, p: nat, pc: Pc)
    requires m.WellFormed() && OwnersInv(m, pcs) && p < |pcs| && Owned(pcs[p]) == None && Owned(pc) == None
    ensures OwnersInv(m, pcs[p := pc])
  {
  }

  lemma OwnersMove(s: State, a: Action)
    requires MemInv(s.m) && OwnersInv(s.m, s.pcs) && Enabled(s, a) && Writes(s.m, s.pcs[a.p], a)
    requires CanAct(s.m, a.p, s.pcs[a.p], a)
    requires a.CasTail? || a.CasHeadForce? || a.CasHead? || a.StoreTail?
    ensures Apply(s, a).m.WellFormed() && OwnersInv(Apply(s, a).m, Apply(s, a).pcs)
  {
    ThreadPoint(s.m, a.p, s.pcs[a.p]);
  }

  lemma OwnersStore(s: State, a: Action)
    requires MemInv(s.m) && OwnersInv(s.m, s.pcs) && Enabled(s, a)
    requires CanAct(s.m, a.p, s.pcs[a.p], a)
    requires a.WriteCell? || a.SwapCell? || a.ReadCell? || a.StoreStamp? || a.StoreForced? || a.StoreFree?
    ensures Apply(s, a).m.WellFormed() && OwnersInv(Apply(s, a).m, Apply(s, a).pcs)
  {
    ThreadPoint(s.m, a.p, s.pcs[a.p]);
  }

  lemma OtherStep(m: Mem, p: nat, pc: Pc, a: Action, q: nat, qc: Pc)
    requires CanAct(m, p, pc, a) && q != p && ThreadInv(m, q, qc)
    ensures Effect(m, pc, a).0.WellFormed() && ThreadInv(Effect(m, pc, a).0, q, qc)
  {
    if !Writes(m, pc, a) { OtherClose(m, q, qc); }
    else if a.CasTail? || a.CasHeadForce? || a.CasHead? || a.StoreTail? { OtherMove(m, p, pc, a, q, qc); }
    else if a.WriteCell? || a.SwapCell? || a.ReadCell? { OtherCell(m, p, pc, a, q, qc); }
    else { OtherStamp(m, p, pc, a, q, qc); }
  }

  lemma OwnStep(m: Mem, p: nat, pc: Pc, a: Action)
    requires CanAct(m, p, pc, a)
    ensures Effect(m, pc, a).0.WellFormed() && ThreadInv(Effect(m, pc, a).0, p, Effect(m, pc, a).1)
  {
    if Writes(m, pc, a) { OwnWrite(m, p, pc, a); }
    else if IsPush(a) { OwnPushLook(m, p, pc, a); }
    else if !a.Close? { OwnPopLook(m, p, pc, a); }
  }

  lemma InvStep(s: State, a: Action)
    requires Inv(s) && Enabled(s, a)
    ensures Inv(Apply(s, a))
  {
    var t := Apply(s, a);
    var pc := s.pcs[a.p];
    MayAct(s, a);
    MemStep(s.m, a.p, pc, a);
    OwnStep(s.m, a.p, pc, a);
    forall q | 0 <= q < |s.pcs| ensures ThreadInv(t.m, q, t.pcs[q]) {
      if q != a.p { OtherStep(s.m, a.p, pc, a, q, s.pcs[q]); }
    }
    if !Writes(s.m, pc, a) {
      LookOwnsNothing(s.m, pc, a);
      OwnersLook(s.m, s.pcs, a.p, t.pcs[a.p]);
    }
    else if a.CasTail? || a.CasHeadForce? || a.CasHead? || a.StoreTail? { OwnersMove(s, a); }
    else { OwnersStore(s, a); }
  }

  lemma InitInv(cap: nat, threads: nat)
    requires cap > 0
    ensures Inv(Initial(cap, threads))
  {
  }

  lemma {:induction false} RunKeepsInv(r: seq<State>, i: nat)
    requires Run(r) && i < |r|
    ensures Inv(r[i])
  {
    if i == 0 {
      InitInv(r[0].m.cap, |r[0].pcs|);
    } else {
      RunKeepsInv(r, i - 1);
      assert Next(r[i - 1], r[i]);
      var a :| Enabled(r[i - 1], a) && r[i] == Apply(r[i - 1], a);
      InvStep(r[i - 1], a);
    }
  }

  // ---------- what every run guarantees ----------

  /** Thread p is between taking the slot of ticket t and giving it back. */
  predicate Works(s: State, p: nat, t: nat) {
    p < |s.pcs| && Owned(s.pcs[p]) == Some(t)
  }

  /** The stamp of a slot, compared with head and tail, tells its phase: free, being written,
      full, or being read; the ticket is unique, and a slot in use has exactly one user. */
  lemma StampTellsPhase(r: seq<State>, i: nat, k: nat)
    requires Run(r) && i < |r| && k < r[i].m.cap
    ensures var m := r[i].m;
            && m.WellFormed()
            && Idx(m.stamps[k].t, m.cap) == k
            && match m.stamps[k]
               case Ready(t) =>
                 if m.tail <= t then t < m.head + m.cap && forall p :: !Works(r[i], p, t)
                 else m.head <= t && exists p :: Works(r[i], p, t) && forall q :: Works(r[i], q, t) ==> q == p
               case Holds(t) =>
                 if m.head <= t then t < m.tail && t < |m.log| && m.cells[k] == Some(m.log[t])
                     && forall p :: !Works(r[i], p, t)
                 else exists p :: Works(r[i], p, t) && forall q :: Works(r[i], q, t) ==> q == p
  {
    RunKeepsInv(r, i);
    var s := r[i];
    var t := s.m.stamps[k].t;
    assert SlotInv(s.m.cap, s.m.head, s.m.tail, k, s.m.stamps[k], s.m.own[k]);
    forall q: nat | Works(s, q, t) ensures s.m.own[k] == Some(q) {
      ThreadPoint(s.m, q, s.pcs[q]);
    }
    if s.m.own[k].Some? { assert Works(s, s.m.own[k].value, t); }
  }

  lemma LeaveStep(m: Mem, m': Mem, p: nat, pc: Pc, a: Action)
    requires m.WellFormed() && ThreadInv(m, p, pc) && PcEnabled(pc, a) && OutInv(m) && m' == Effect(m, pc, a).0
    ensures forall t :: t in m.out ==> t in m'.out && m'.out[t] == m.out[t]
    ensures a.ReadCell? || a.SwapCell? ==>
              pc.t !in m.out && pc.t < |m.log| && pc.t in m'.out && m'.out[pc.t] == Some(m.log[pc.t])
  {
    if a.ReadCell? || a.SwapCell? { ThreadPoint(m, p, pc); }
  }

  /** Reading a slot out happens at most once per ticket, and yields that ticket's value. */
  lemma LeavesOnceWithItsValue(r: seq<State>, i: nat, a: Action)
    requires Run(r) && i < |r| && Enabled(r[i], a)
    ensures forall t :: t in r[i].m.out ==> t in Apply(r[i], a).m.out && Apply(r[i], a).m.out[t] == r[i].m.out[t]
    ensures a.ReadCell? || a.SwapCell? ==>
              var t := r[i].pcs[a.p].t;
              t !in r[i].m.out && t < |r[i].m.log| && Apply(r[i], a).m.out[t] == Some(r[i].m.log[t])
  {
    RunKeepsInv(r, i);
    LeaveStep(r[i].m, Apply(r[i], a).m, a.p, r[i].pcs[a.p], a);
  }

  /** Every ticket below the head has left, or exactly one thread is about to take its value. */
  lemma ClaimedMeansLeaving(r: seq<State>, i: nat, t: nat)
    requires Run(r) && i < |r| && t < r[i].m.head
    ensures t in r[i].m.out || exists p :: Works(r[i], p, t) && forall q :: Works(r[i], q, t) ==> q == p
  {
    RunKeepsInv(r, i);
    var s := r[i];
    if t !in s.m.out {
      assert s.m.stamps[s.m.Slot(t)] == Holds(t) && s.m.own[s.m.Slot(t)].Some?;
      assert Works(s, s.m.own[s.m.Slot(t)].value, t);
      forall q: nat | Works(s, q, t) ensures s.m.own[s.m.Slot(t)] == Some(q) {
        ThreadPoint(s.m, q, s.pcs[q]);
      }
    }
  }

  /** What an action does to the abstract queue. */
  predicate FifoEffect(m: Mem, pc: Pc, a: Action, m': Mem)
    requires m.WellFormed() && PcEnabled(pc, a)
  {
    && m.head <= |m.log| && m'.head <= |m'.log| && |m.Queue()| <= m.cap
    && (if !Writes(m, pc, a) then m'.Queue() == m.Queue()
        else match a
          case CasTail(_, _) => |m.Queue()| < m.cap && m'.Queue() == m.Queue() + [pc.v]
          case CasHead(_, _) => m.Queue() != [] && m'.Queue() == m.Queue()[1..] && m.log[pc.t] == m.Queue()[0]
          case CasHeadForce(_, _) =>
            && |m.Queue()| == m.cap && m'.Queue() == m.Queue()[1..] + [pc.v]
            && m.log[pc.t] == m.Queue()[0]
          case _ => m'.Queue() == m.Queue())
  }

  /** A successful CAS of push, force_push or pop on the tail or the head. */
  predicate Moves(m: Mem, pc: Pc, a: Action)
    requires m.WellFormed() && PcEnabled(pc, a)
  {
    (a.CasTail? || a.CasHead? || a.CasHeadForce?) && Writes(m, pc, a)
  }

  lemma QueueSame(m: Mem, pc: Pc, a: Action)
    requires m.WellFormed() && PcEnabled(pc, a) && !Moves(m, pc, a)
    ensures Effect(m, pc, a).0.head == m.head && Effect(m, pc, a).0.log == m.log
  {
  }

  lemma FifoStep(m: Mem, m': Mem, pc: Pc, a: Action)
    requires BoundsInv(m) && BoundsInv(m') && PcEnabled(pc, a) && m' == Effect(m, pc, a).0
    requires a.CasHeadForce? && Writes(m, pc, a) ==> m.forcing.None? && m.tail == pc.t + m.cap
    ensures FifoEffect(m, pc, a, m')
  {
    if !Moves(m, pc, a) { QueueSame(m, pc, a); }
  }

  /** The ring refines a FIFO queue of bounded length: a successful tail CAS appends, a
      successful head CAS of pop removes the oldest, the head CAS of force_push removes the
      oldest and appends, and nothing else changes it. */
  lemma RefinesFifo(r: seq<State>, i: nat, a: Action)
    requires Run(r) && i < |r| && Enabled(r[i], a)
    ensures FifoEffect(r[i].m, r[i].pcs[a.p], a, Apply(r[i], a).m)
  {
    RunKeepsInv(r, i);
    MayAct(r[i], a);
    MemStep(r[i].m, a.p, r[i].pcs[a.p], a);
    FifoStep(r[i].m, Apply(r[i], a).m, r[i].pcs[a.p], a);
  }

  /** `push` reports Full only if the queue holds exactly `cap` values at its load of the head. */
  lemma FullVerdictIsTrue(r: seq<State>, i: nat, p: nat)
    requires Run(r) && i < |r| && Enabled(r[i], FullCheck(p)) && Apply(r[i], FullCheck(p)).pcs[p] == Idle
    ensures r[i].m.tail - r[i].m.head == r[i].m.cap
    ensures r[i].m.head <= |r[i].m.log| && |r[i].m.Queue()| == r[i].m.cap
  {
    RunKeepsInv(r, i);
    ThreadPoint(r[i].m, p, r[i].pcs[p]);
  }

  /** `pop` reports Empty or Closed only if the queue is empty at its load of the tail. */
  lemma EmptyVerdictIsTrue(r: seq<State>, i: nat, p: nat)
    requires Run(r) && i < |r| && Enabled(r[i], EmptyCheck(p)) && Apply(r[i], EmptyCheck(p)).pcs[p] == Idle
    ensures r[i].m.head == r[i].m.tail
    ensures r[i].m.head <= |r[i].m.log| && r[i].m.Queue() == []
  {
    RunKeepsInv(r, i);
    var s := r[i];
    ThreadPoint(s.m, p, s.pcs[p]);
    if s.m.forcing.Some? {
      ThreadPoint(s.m, s.m.forcing.value, s.pcs[s.m.forcing.value]);
      assert false;
    }
  }

  /** The number `len` returns, from its three loads: it ends only when the tail did not
      change, and then its loads differ by the number of outstanding tickets at its load of
      the head (`diff`), which is between 0 and the capacity. */
  lemma LenSeesOneInstant(r: seq<State>, i: nat, p: nat)
    requires Run(r) && i < |r| && Enabled(r[i], LenCheck(p)) && Apply(r[i], LenCheck(p)).pcs[p] == Idle
    ensures var pc := r[i].pcs[p]; pc.t - pc.h == pc.diff && 0 <= pc.diff <= r[i].m.cap
  {
    RunKeepsInv(r, i);
    ThreadPoint(r[i].m, p, r[i].pcs[p]);
  }

  // ---------- longer runs ----------

  function Last(r: seq<State>): State
    requires |r| > 0
  {
    r[|r| - 1]
  }

  lemma Extend(r: seq<State>, a: Action) returns (r': seq<State>)
    requires Run(r) && Enabled(Last(r), a)
    ensures Run(r') && |r'| == |r| + 1 && r'[..|r|] == r && Last(r') == Apply(Last(r), a)
  {
    r' := r + [Apply(Last(r), a)];
    assert r'[0] == r[0];
    forall i | 0 <= i < |r'| - 1 ensures Next(r'[i], r'[i + 1]) {
      if i == |r| - 1 { assert r'[i] == Last(r) && r'[i + 1] == Apply(Last(r), a); }
    }
  }
}
