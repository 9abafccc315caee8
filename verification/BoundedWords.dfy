/**
 The bounded ring as the code runs it, on packed words: index in the low bits, then the mark
 bit, then the lap. Masking with a power of two minus one is the remainder, written Idx.
 The word machine and the ticket machine of BoundedRing go in lock step.
 */
module BoundedWords {
  import opened Basics
  import opened Laps
  import opened BoundedRing

  predicate PowerOfTwo(n: nat) {
    n == 1 || (n > 0 && n % 2 == 0 && PowerOfTwo(n / 2))
  }

  /** `n.next_power_of_two()`, searched upwards from a power of two. */
  function NextPowerOfTwo(n: nat, from: nat): (r: nat)
    requires PowerOfTwo(from)
    ensures PowerOfTwo(r) && r >= n && (r == from || r < n + n)
    decreases n - from
  {
    if from >= n then from else assert (from + from) / 2 == from; NextPowerOfTwo(n, from + from)
  }

  function MarkBit(cap: nat): (m: nat)
    ensures m > cap && PowerOfTwo(m)
  {
    NextPowerOfTwo(cap + 1, 1)
  }

  function OneLap(cap: nat): (l: nat)
    ensures l == MarkBit(cap) + MarkBit(cap)
  {
    MarkBit(cap) * 2
  }

  // ---------- the bit fields of a word ----------

  /** `w & (mark_bit - 1)` */
  function Index(cap: nat, w: nat): nat {
    Idx(w, MarkBit(cap))
  }

  /** `w & mark_bit != 0` */
  predicate Marked(cap: nat, w: nat) {
    Idx(w, OneLap(cap)) >= MarkBit(cap)
  }

  /** `w & !mark_bit` */
  function Unmark(cap: nat, w: nat): nat {
    if Marked(cap, w) && w >= MarkBit(cap) then w - MarkBit(cap) else w
  }

  /** `w & !(one_lap - 1)` */
  function LapBits(cap: nat, w: nat): int {
    w - Idx(w, OneLap(cap))
  }

  /** The position after w, as both push and pop compute it. */
  function NewPosition(cap: nat, w: nat): int {
    if Index(cap, w) + 1 < cap then w + 1 else LapBits(cap, w) + OneLap(cap)
  }

  /** The result of `len` from the words it loaded. */
  function LenOf(cap: nat, tail: nat, head: nat): int {
    var hix, tix := Index(cap, head), Index(cap, tail);
    if hix < tix then tix - hix
    else if hix > tix then cap - hix + tix
    else if Unmark(cap, tail) == head then 0
    else cap
  }

  // ---------- tickets as words ----------

  /** { lap, mark: 0, index } of ticket t. */
  function Word(cap: nat, t: nat): nat
    requires cap > 0
    decreases t
  {
    if t < cap then t else OneLap(cap) + Word(cap, t - cap)
  }

  function TailWord(cap: nat, t: nat, closed: bool): nat
    requires cap > 0
  {
    Word(cap, t) + if closed then MarkBit(cap) else 0
  }

  function StampWord(cap: nat, s: Stamp): nat
    requires cap > 0
  {
    match s
    case Ready(t) => Word(cap, t)
    case Holds(t) => Word(cap, t) + 1
  }

  lemma {:induction false} HalfIndex(w: nat, m: nat)
    requires m > 0
    ensures Idx(w, m) == if Idx(w, m + m) >= m then Idx(w, m + m) - m else Idx(w, m + m)
  {
    if w >= m + m {
      HalfIndex(w - (m + m), m);
      assert Idx(w, m) == Idx(w - m, m) == Idx(w - m - m, m);
    }
  }

  /** The fields of a ticket's word, possibly marked or incremented. */
  lemma {:induction false} WordFields(cap: nat, t: nat, c: nat)
    requires cap > 0 && Idx(t, cap) + c < OneLap(cap)
    ensures Idx(Word(cap, t) + c, OneLap(cap)) == Idx(t, cap) + c
  {
    if t >= cap { WordFields(cap, t - cap, c); }
  }

  lemma TailFields(cap: nat, t: nat, closed: bool)
    requires cap > 0
    ensures Marked(cap, TailWord(cap, t, closed)) == closed
    ensures Index(cap, TailWord(cap, t, closed)) == Idx(t, cap)
    ensures Unmark(cap, TailWord(cap, t, closed)) == Word(cap, t)
  {
    WordFields(cap, t, if closed then MarkBit(cap) else 0);
    HalfIndex(TailWord(cap, t, closed), MarkBit(cap));
  }

  lemma {:induction false} WordOrder(cap: nat, t: nat, u: nat)
    requires cap > 0 && t < u
    ensures Word(cap, t) < Word(cap, u)
  {
    if t >= cap { WordOrder(cap, t - cap, u - cap); }
  }

  lemma WordIsInjective(cap: nat, t: nat, u: nat)
    requires cap > 0
    ensures Word(cap, t) == Word(cap, u) <==> t == u
  {
    if t < u { WordOrder(cap, t, u); } else if u < t { WordOrder(cap, u, t); }
  }

  lemma TailWordIsInjective(cap: nat, t: nat, c: bool, u: nat, d: bool)
    requires cap > 0
    ensures TailWord(cap, t, c) == TailWord(cap, u, d) <==> t == u && c == d
  {
    TailFields(cap, t, c);
    TailFields(cap, u, d);
    WordIsInjective(cap, t, u);
  }

  /** The code's step to the next position is the step to the next ticket. */
  lemma {:induction false} NewPositionIsNextTicket(cap: nat, t: nat)
    requires cap > 0
    ensures NewPosition(cap, Word(cap, t)) == Word(cap, t + 1)
  {
    TailFields(cap, t, false);
    WordFields(cap, t, 0);
    NextTicket(t, cap);
    NextWord(cap, t);
  }

  lemma {:induction false} NextWord(cap: nat, t: nat)
    requires cap > 0
    ensures Word(cap, t + 1) ==
              if Idx(t, cap) + 1 < cap then Word(cap, t) + 1 else Word(cap, t) - Idx(t, cap) + OneLap(cap)
  {
    if t >= cap { NextWord(cap, t - cap); }
  }

  /** Within one slot a stamp word names its ticket and its phase without ambiguity. */
  lemma StampWords(cap: nat, s: Stamp, t: nat)
    requires cap > 0 && Idx(s.t, cap) == Idx(t, cap)
    ensures StampWord(cap, s) == Word(cap, t) <==> s == Ready(t)
    ensures StampWord(cap, s) == Word(cap, t) + 1 <==> s == Holds(t)
  {
    WordIsInjective(cap, s.t, t);
    WordFields(cap, s.t, 0);
    WordFields(cap, s.t, 1);
    WordFields(cap, t, 0);
    WordFields(cap, t, 1);
  }

  /** The full test of push: stamp + one_lap == tail + 1. */
  lemma FullTest(cap: nat, s: Stamp, t: nat)
    requires cap > 0 && Idx(s.t, cap) == Idx(t, cap)
    ensures StampWord(cap, s) + OneLap(cap) == Word(cap, t) + 1 <==> t >= cap && s == Holds(t - cap)
  {
    if t >= cap {
      StampWords(cap, s, t - cap);
    }
  }

  /** Within a lap of a ticket, slots count up and wrap once. */
  lemma {:induction false} IdxAhead(h: nat, d: nat, cap: nat)
    requires cap > 0 && d <= cap
    ensures Idx(h + d, cap) == if Idx(h, cap) + d < cap then Idx(h, cap) + d else Idx(h, cap) + d - cap
  {
    if h >= cap { IdxAhead(h - cap, d, cap); }
  }

  /** `len` computes the ticket difference, for every lap and for the full/empty tie. */
  lemma LenOfIsTicketDifference(cap: nat, t: nat, closed: bool, h: nat)
    requires cap > 0 && h <= t <= h + cap
    ensures LenOf(cap, TailWord(cap, t, closed), Word(cap, h)) == t - h
  {
    TailFields(cap, t, closed);
    TailFields(cap, h, false);
    IdxAhead(h, t - h, cap);
    WordIsInjective(cap, t, h);
  }

  // ---------- the word machine: the code, access by access ----------

  datatype WordMem = WordMem(cap: nat, head: nat, tail: nat, stamps: seq<nat>, cells: seq<Option<Value>>) {
    predicate WellFormed() {
      cap > 0 && |stamps| == |cells| == cap
    }
  }

  datatype WordPc =
    | WIdle
    | WPLoad(v: Value, force: bool)
    | WPTail(v: Value, force: bool, w: nat)
    | WPCas(v: Value, force: bool, w: nat, new_w: nat)
    | WPFull(v: Value, w: nat)
    | WPForce(v: Value, w: nat, new_w: nat)
    | WPWrite(v: Value, w: nat)
    | WPStore(w: nat)
    | WFTail(v: Value, w: nat, new_w: nat)
    | WFSwap(v: Value, w: nat)
    | WFStore(w: nat)
    | WQLoad
    | WQHead(w: nat)
    | WQCas(w: nat, new_w: nat)
    | WQTail(w: nat)
    | WQRead(w: nat)
    | WQStore(w: nat)
    | WLLoad
    | WLTail(w: nat)
    | WLHead(w: nat, head: nat)

  datatype WordState = WordState(m: WordMem, pcs: seq<WordPc>)

  predicate WordPcEnabled(pc: WordPc, a: Action) {
    match a
    case StartPush(_, _, _) => pc == WIdle
    case LoadTail(_) => pc.WPLoad?
    case PushStamp(_) => pc.WPTail?
    case CasTail(_, _) => pc.WPCas?
    case WriteCell(_) => pc.WPWrite?
    case StoreStamp(_) => pc.WPStore?
    case FullCheck(_) => pc.WPFull?
    case CasHeadForce(_, _) => pc.WPForce?
    case StoreTail(_) => pc.WFTail?
    case SwapCell(_) => pc.WFSwap?
    case StoreForced(_) => pc.WFStore?
    case StartPop(_) => pc == WIdle
    case LoadHead(_) => pc.WQLoad?
    case PopStamp(_) => pc.WQHead?
    case CasHead(_, _) => pc.WQCas?
    case EmptyCheck(_) => pc.WQTail?
    case ReadCell(_) => pc.WQRead?
    case StoreFree(_) => pc.WQStore?
    case StartLen(_) => pc == WIdle
    case LenTail(_) => pc.WLLoad?
    case LenHead(_) => pc.WLTail?
    case LenCheck(_) => pc.WLHead?
    case Close(_) => pc == WIdle
  }

  /** The slot of a word, and the buffer access that `get_unchecked` makes. */
  predicate InBuffer(m: WordMem, w: nat) {
    Index(m.cap, w) < m.cap
  }

  function WordPushStamp(m: WordMem, pc: WordPc): WordPc
    requires m.WellFormed() && pc.WPTail? && InBuffer(m, pc.w) && NewPosition(m.cap, pc.w) >= 0
  {
    var stamp := m.stamps[Index(m.cap, pc.w)];
    var new_w: nat := NewPosition(m.cap, pc.w);
    if Marked(m.cap, pc.w) then WIdle
    else if pc.w == stamp then WPCas(pc.v, pc.force, pc.w, new_w)
    else if stamp + OneLap(m.cap) == pc.w + 1 then
      if pc.force then WPForce(pc.v, pc.w, new_w) else WPFull(pc.v, pc.w)
    else WPLoad(pc.v, pc.force)
  }

  function WordPopStamp(m: WordMem, pc: WordPc): WordPc
    requires m.WellFormed() && pc.WQHead? && InBuffer(m, pc.w) && NewPosition(m.cap, pc.w) >= 0
  {
    var stamp := m.stamps[Index(m.cap, pc.w)];
    if pc.w + 1 == stamp then WQCas(pc.w, NewPosition(m.cap, pc.w))
    else if stamp == pc.w then WQTail(pc.w)
    else WQLoad
  }

  /** The accesses and subtractions of the code that must not go out of range. */
  predicate WordStepSafe(m: WordMem, pc: WordPc, a: Action) {
    && (pc.WPTail? || pc.WPWrite? || pc.WPStore? || pc.WFSwap? || pc.WFStore? || pc.WQHead? || pc.WQRead?
        || pc.WQStore? ==>
          InBuffer(m, pc.w))
    && (pc.WPTail? || pc.WQHead? ==> NewPosition(m.cap, pc.w) >= 0)
    && (pc.WPForce? ==> pc.w >= OneLap(m.cap) && pc.new_w >= OneLap(m.cap))
  }

  function WordEffect(m: WordMem, pc: WordPc, a: Action): (WordMem, WordPc)
    requires m.WellFormed() && WordPcEnabled(pc, a) && WordStepSafe(m, pc, a)
  {
    match a
    case StartPush(_, v, force) => (m, WPLoad(v, force))
    case LoadTail(_) => (m, WPTail(pc.v, pc.force, m.tail))
    case PushStamp(_) => (m, WordPushStamp(m, pc))
    case CasTail(_, spurious) =>
      if m.tail == pc.w && !spurious then (m.(tail := pc.new_w), WPWrite(pc.v, pc.w))
      else (m, WPTail(pc.v, pc.force, m.tail))
    case WriteCell(_) => (m.(cells := m.cells[Index(m.cap, pc.w) := Some(pc.v)]), WPStore(pc.w))
    case StoreStamp(_) => (m.(stamps := m.stamps[Index(m.cap, pc.w) := pc.w + 1]), WIdle)
    case FullCheck(_) => (m, if m.head + OneLap(m.cap) == pc.w then WIdle else WPLoad(pc.v, false))
    case CasHeadForce(_, spurious) =>
      if m.head == pc.w - OneLap(m.cap) && !spurious then
        (m.(head := pc.new_w - OneLap(m.cap)), WFTail(pc.v, pc.w, pc.new_w))
      else (m, WPLoad(pc.v, true))
    case StoreTail(_) => (m.(tail := pc.new_w), WFSwap(pc.v, pc.w))
    case SwapCell(_) => (m.(cells := m.cells[Index(m.cap, pc.w) := Some(pc.v)]), WFStore(pc.w))
    case StoreForced(_) => (m.(stamps := m.stamps[Index(m.cap, pc.w) := pc.w + 1]), WIdle)
    case StartPop(_) => (m, WQLoad)
    case LoadHead(_) => (m, WQHead(m.head))
    case PopStamp(_) => (m, WordPopStamp(m, pc))
    case CasHead(_, spurious) =>
      if m.head == pc.w && !spurious then (m.(head := pc.new_w), WQRead(pc.w)) else (m, WQHead(m.head))
    case EmptyCheck(_) => (m, if Unmark(m.cap, m.tail) == pc.w then WIdle else WQLoad)
    case ReadCell(_) => (m.(cells := m.cells[Index(m.cap, pc.w) := None]), WQStore(pc.w))
    case StoreFree(_) => (m.(stamps := m.stamps[Index(m.cap, pc.w) := pc.w + OneLap(m.cap)]), WIdle)
    case StartLen(_) => (m, WLLoad)
    case LenTail(_) => (m, WLTail(m.tail))
    case LenHead(_) => (m, WLHead(pc.w, m.head))
    case LenCheck(_) => (m, if m.tail == pc.w then WIdle else WLLoad)
    case Close(_) => (m.(tail := if Marked(m.cap, m.tail) then m.tail else m.tail + MarkBit(m.cap)), WIdle)
  }

  // ---------- lock step with the tickets ----------

  function EncodeMem(m: Mem): WordMem
    requires m.cap > 0
  {
    WordMem(m.cap, Word(m.cap, m.head), TailWord(m.cap, m.tail, m.closed),
            seq(|m.stamps|, i requires 0 <= i < |m.stamps| => StampWord(m.cap, m.stamps[i])), m.cells)
  }

  function EncodePc(cap: nat, pc: Pc): WordPc
    requires cap > 0
  {
    match pc
    case Idle => WIdle
    case PLoad(v, force) => WPLoad(v, force)
    case PTail(v, force, t, closed) => WPTail(v, force, TailWord(cap, t, closed))
    case PCas(v, force, t) => WPCas(v, force, Word(cap, t), Word(cap, t + 1))
    case PFull(v, t) => WPFull(v, Word(cap, t))
    case PForce(v, t) => WPForce(v, Word(cap, t + cap), Word(cap, t + cap + 1))
    case PWrite(v, t) => WPWrite(v, Word(cap, t))
    case PStore(t) => WPStore(Word(cap, t))
    case FTail(v, t) => WFTail(v, Word(cap, t + cap), Word(cap, t + cap + 1))
    case FSwap(v, t) => WFSwap(v, Word(cap, t + cap))
    case FStore(t) => WFStore(Word(cap, t + cap))
    case QLoad => WQLoad
    case QHead(t) => WQHead(Word(cap, t))
    case QCas(t) => WQCas(Word(cap, t), Word(cap, t + 1))
    case QTail(t) => WQTail(Word(cap, t))
    case QRead(t) => WQRead(Word(cap, t))
    case QStore(t) => WQStore(Word(cap, t))
    case LLoad => WLLoad
    case LTail(t, closed) => WLTail(TailWord(cap, t, closed))
    case LHead(t, closed, h, _) => WLHead(TailWord(cap, t, closed), Word(cap, h))
  }

  /** The ticket a pc's word stands for. */
  lemma PcFields(cap: nat, pc: Pc)
    requires cap > 0
    ensures pc.PTail? || pc.PWrite? || pc.PStore? || pc.QHead? || pc.QRead? || pc.QStore? ==>
              Index(cap, EncodePc(cap, pc).w) == Idx(pc.t, cap)
    ensures pc.FSwap? || pc.FStore? ==> Index(cap, EncodePc(cap, pc).w) == Idx(pc.t, cap)
  {
    if pc.PTail? { TailFields(cap, pc.t, pc.closed); }
    else if pc.PWrite? || pc.PStore? || pc.QHead? || pc.QRead? || pc.QStore? { TailFields(cap, pc.t, false); }
    else if pc.FSwap? || pc.FStore? { TailFields(cap, pc.t + cap, false); }
  }

  /** All that lock step needs: every stamp belongs to its slot. */
  predicate Aligned(m: Mem) {
    m.WellFormed() && forall i :: 0 <= i < m.cap ==> Idx(m.stamps[i].t, m.cap) == i
  }

  predicate CanStep(m: Mem, pc: Pc, a: Action) {
    Aligned(m) && PcEnabled(pc, a)
  }

  lemma StepIsEnabled(m: Mem, pc: Pc, a: Action)
    requires CanStep(m, pc, a)
    ensures EncodeMem(m).WellFormed() && WordPcEnabled(EncodePc(m.cap, pc), a)
  {
  }

  lemma ForceIsSafe(m: Mem, pc: Pc, a: Action)
    requires CanStep(m, pc, a) && pc.PForce?
    ensures WordStepSafe(EncodeMem(m), EncodePc(m.cap, pc), a)
  {
    assert Word(m.cap, pc.t + m.cap + 1) == OneLap(m.cap) + Word(m.cap, pc.t + 1);
  }

  lemma LookIsSafe(m: Mem, pc: Pc, a: Action)
    requires CanStep(m, pc, a) && (pc.PTail? || pc.QHead?)
    ensures WordStepSafe(EncodeMem(m), EncodePc(m.cap, pc), a)
  {
    PcFields(m.cap, pc);
    if pc.PTail? {
      TailFields(m.cap, pc.t, pc.closed);
    } else {
      TailFields(m.cap, pc.t, false);
      WordFields(m.cap, pc.t, 0);
      NewPositionIsNextTicket(m.cap, pc.t);
    }
  }

  lemma StepIsSafe(m: Mem, pc: Pc, a: Action)
    requires CanStep(m, pc, a)
    ensures EncodeMem(m).WellFormed() && WordPcEnabled(EncodePc(m.cap, pc), a)
    ensures WordStepSafe(EncodeMem(m), EncodePc(m.cap, pc), a)
  {
    StepIsEnabled(m, pc, a);
    if pc.PForce? { ForceIsSafe(m, pc, a); }
    else if pc.PTail? || pc.QHead? { LookIsSafe(m, pc, a); }
    else { PcFields(m.cap, pc); }
  }

  /** The word machine, on the encoding, does the encoding of what the ticket machine does. */
  predicate InStep(m: Mem, pc: Pc, a: Action) {
    && CanStep(m, pc, a) && EncodeMem(m).WellFormed() && WordPcEnabled(EncodePc(m.cap, pc), a)
    && WordStepSafe(EncodeMem(m), EncodePc(m.cap, pc), a)
    && Effect(m, pc, a).0.cap == m.cap
    && WordEffect(EncodeMem(m), EncodePc(m.cap, pc), a)
       == (EncodeMem(Effect(m, pc, a).0), EncodePc(m.cap, Effect(m, pc, a).1))
  }

  lemma PushStampPc(m: Mem, w: WordMem, pc: Pc, wpc: WordPc)
    requires Aligned(m) && pc.PTail? && w == EncodeMem(m) && wpc == EncodePc(m.cap, pc)
    requires w.WellFormed() && InBuffer(w, wpc.w) && NewPosition(m.cap, wpc.w) >= 0
    ensures WordPushStamp(w, wpc) == EncodePc(m.cap, AfterPushStamp(m.cap, pc, m.stamps[m.Slot(pc.t)]))
  {
    TailFields(m.cap, pc.t, pc.closed);
    if !pc.closed {
      var stamp := m.stamps[m.Slot(pc.t)];
      StampWords(m.cap, stamp, pc.t);
      FullTest(m.cap, stamp, pc.t);
      NewPositionIsNextTicket(m.cap, pc.t);
    }
  }

  lemma PushStampInStep(m: Mem, pc: Pc, a: Action)
    requires CanStep(m, pc, a) && a.PushStamp?
    ensures InStep(m, pc, a)
  {
    StepIsSafe(m, pc, a);
    PushStampPc(m, EncodeMem(m), pc, EncodePc(m.cap, pc));
  }

  lemma PopStampPc(m: Mem, w: WordMem, pc: Pc, wpc: WordPc)
    requires Aligned(m) && pc.QHead? && w == EncodeMem(m) && wpc == EncodePc(m.cap, pc)
    requires w.WellFormed() && InBuffer(w, wpc.w) && NewPosition(m.cap, wpc.w) >= 0
    ensures WordPopStamp(w, wpc) == EncodePc(m.cap, AfterPopStamp(pc, m.stamps[m.Slot(pc.t)]))
  {
    TailFields(m.cap, pc.t, false);
    StampWords(m.cap, m.stamps[m.Slot(pc.t)], pc.t);
    NewPositionIsNextTicket(m.cap, pc.t);
  }

  lemma PopStampInStep(m: Mem, pc: Pc, a: Action)
    requires CanStep(m, pc, a) && a.PopStamp?
    ensures InStep(m, pc, a)
  {
    StepIsSafe(m, pc, a);
    PopStampPc(m, EncodeMem(m), pc, EncodePc(m.cap, pc));
  }

  lemma CasTailInStep(m: Mem, pc: Pc, a: Action)
    requires CanStep(m, pc, a) && a.CasTail?
    ensures InStep(m, pc, a)
  {
    StepIsSafe(m, pc, a);
    TailWordIsInjective(m.cap, m.tail, m.closed, pc.t, false);
  }

  lemma CasHeadInStep(m: Mem, pc: Pc, a: Action)
    requires CanStep(m, pc, a) && a.CasHead?
    ensures InStep(m, pc, a)
  {
    StepIsSafe(m, pc, a);
    WordIsInjective(m.cap, m.head, pc.t);
  }

  lemma CasHeadForceInStep(m: Mem, pc: Pc, a: Action)
    requires CanStep(m, pc, a) && a.CasHeadForce?
    ensures InStep(m, pc, a)
  {
    StepIsSafe(m, pc, a);
    WordIsInjective(m.cap, m.head, pc.t);
    assert Word(m.cap, pc.t + m.cap + 1) == OneLap(m.cap) + Word(m.cap, pc.t + 1);
  }

  lemma FullCheckInStep(m: Mem, pc: Pc, a: Action)
    requires CanStep(m, pc, a) && a.FullCheck?
    ensures InStep(m, pc, a)
  {
    StepIsSafe(m, pc, a);
    WordIsInjective(m.cap, m.head + m.cap, pc.t);
    assert Word(m.cap, m.head + m.cap) == OneLap(m.cap) + Word(m.cap, m.head);
  }

  lemma TailCheckInStep(m: Mem, pc: Pc, a: Action)
    requires CanStep(m, pc, a) && (a.EmptyCheck? || a.LenCheck?)
    ensures InStep(m, pc, a)
  {
    StepIsSafe(m, pc, a);
    TailFields(m.cap, m.tail, m.closed);
    match a
    case EmptyCheck(_) => WordIsInjective(m.cap, m.tail, pc.t);
    case LenCheck(_) => TailWordIsInjective(m.cap, m.tail, m.closed, pc.t, pc.closed);
  }

  lemma CloseInStep(m: Mem, pc: Pc, a: Action)
    requires CanStep(m, pc, a) && a.Close?
    ensures InStep(m, pc, a)
  {
    StepIsSafe(m, pc, a);
    TailFields(m.cap, m.tail, m.closed);
  }

  lemma StoreInStep(m: Mem, pc: Pc, a: Action)
    requires CanStep(m, pc, a) && (a.StoreStamp? || a.StoreForced? || a.StoreFree?)
    ensures InStep(m, pc, a)
  {
    StepIsSafe(m, pc, a);
    PcFields(m.cap, pc);
    var w, m' := WordEffect(EncodeMem(m), EncodePc(m.cap, pc), a).0, Effect(m, pc, a).0;
    assert w.stamps == EncodeMem(m').stamps;
  }

  lemma CellInStep(m: Mem, pc: Pc, a: Action)
    requires CanStep(m, pc, a) && (a.WriteCell? || a.SwapCell? || a.ReadCell? || a.StoreTail?)
    ensures InStep(m, pc, a)
  {
    StepIsSafe(m, pc, a);
    PcFields(m.cap, pc);
  }

  lemma LoadInStep(m: Mem, pc: Pc, a: Action)
    requires CanStep(m, pc, a)
    requires a.StartPush? || a.LoadTail? || a.StartPop? || a.LoadHead? || a.StartLen? || a.LenTail? || a.LenHead?
    ensures InStep(m, pc, a)
  {
    StepIsSafe(m, pc, a);
  }

  /** Every access of the code, on words, does what the ticket machine does; it never indexes
      outside the buffer nor subtracts a lap that is not there. */
  lemma EveryStepInStep(m: Mem, pc: Pc, a: Action)
    requires CanStep(m, pc, a)
    ensures InStep(m, pc, a)
  {
    match a
    case PushStamp(_) => PushStampInStep(m, pc, a);
    case PopStamp(_) => PopStampInStep(m, pc, a);
    case CasTail(_, _) => CasTailInStep(m, pc, a);
    case CasHead(_, _) => CasHeadInStep(m, pc, a);
    case CasHeadForce(_, _) => CasHeadForceInStep(m, pc, a);
    case FullCheck(_) => FullCheckInStep(m, pc, a);
    case EmptyCheck(_) => TailCheckInStep(m, pc, a);
    case LenCheck(_) => TailCheckInStep(m, pc, a);
    case Close(_) => CloseInStep(m, pc, a);
    case StoreStamp(_) => StoreInStep(m, pc, a);
    case StoreForced(_) => StoreInStep(m, pc, a);
    case StoreFree(_) => StoreInStep(m, pc, a);
    case WriteCell(_) => CellInStep(m, pc, a);
    case SwapCell(_) => CellInStep(m, pc, a);
    case ReadCell(_) => CellInStep(m, pc, a);
    case StoreTail(_) => CellInStep(m, pc, a);
    case _ => LoadInStep(m, pc, a);
  }

  // ---------- whole runs ----------

  predicate WordEnabled(s: WordState, a: Action) {
    s.m.WellFormed() && a.p < |s.pcs| && WordPcEnabled(s.pcs[a.p], a)
  }

  /** A step of the word machine; one that is not safe has no successor to rely on. */
  ghost predicate WordNext(s: WordState, t: WordState) {
    exists a :: WordEnabled(s, a) && WordStepSafe(s.m, s.pcs[a.p], a) && t == WordApply(s, a)
  }

  function WordApply(s: WordState, a: Action): WordState
    requires WordEnabled(s, a) && WordStepSafe(s.m, s.pcs[a.p], a)
  {
    var (m, pc) := WordEffect(s.m, s.pcs[a.p], a);
    WordState(m, s.pcs[a.p := pc])
  }

  function WordInitial(cap: nat, threads: nat): WordState
    requires cap > 0
  {
    WordState(WordMem(cap, 0, 0, seq(cap, (i: nat) => i), seq(cap, _ => None)), seq(threads, _ => WIdle))
  }

  ghost predicate WordRun(r: seq<WordState>) {
    && |r| > 0 && r[0].m.cap > 0 && r[0] == WordInitial(r[0].m.cap, |r[0].pcs|)
    && forall i :: 0 <= i < |r| - 1 ==> WordNext(r[i], r[i + 1])
  }

  function Encode(s: State): WordState
    requires s.m.cap > 0
  {
    WordState(EncodeMem(s.m), seq(|s.pcs|, i requires 0 <= i < |s.pcs| => EncodePc(s.m.cap, s.pcs[i])))
  }

  ghost predicate Encodes(r: seq<State>, w: seq<WordState>) {
    |r| == |w| && forall i :: 0 <= i < |r| ==> r[i].m.cap > 0 && w[i] == Encode(r[i])
  }

  lemma PcKinds(cap: nat, pc: Pc, a: Action)
    requires cap > 0
    ensures WordPcEnabled(EncodePc(cap, pc), a) <==> PcEnabled(pc, a)
  {
  }

  lemma StateInStep(s: State, a: Action)
    requires Aligned(s.m) && Enabled(s, a)
    ensures WordEnabled(Encode(s), a) && WordStepSafe(EncodeMem(s.m), Encode(s).pcs[a.p], a)
    ensures Apply(s, a).m.cap > 0 && WordApply(Encode(s), a) == Encode(Apply(s, a))
  {
    EveryStepInStep(s.m, s.pcs[a.p], a);
    assert WordApply(Encode(s), a).pcs == Encode(Apply(s, a)).pcs;
  }

  lemma RunIsAligned(r: seq<State>)
    requires Run(r)
    ensures Aligned(Last(r).m)
  {
    RunKeepsInv(r, |r| - 1);
  }

  lemma RunStepInStep(r: seq<State>, a: Action)
    requires Run(r) && Aligned(Last(r).m) && WordEnabled(Encode(Last(r)), a)
    ensures WordStepSafe(Encode(Last(r)).m, Encode(Last(r)).pcs[a.p], a)
    ensures Enabled(Last(r), a) && Apply(Last(r), a).m.cap > 0
    ensures WordApply(Encode(Last(r)), a) == Encode(Apply(Last(r), a))
  {
    PcKinds(Last(r).m.cap, Last(r).pcs[a.p], a);
    StateInStep(Last(r), a);
  }

  lemma WordRunPrefix(w: seq<WordState>)
    requires WordRun(w) && |w| > 1
    ensures WordRun(w[..|w| - 1])
  {
    var v := w[..|w| - 1];
    forall i | 0 <= i < |v| - 1 ensures WordNext(v[i], v[i + 1]) {
      assert WordNext(w[i], w[i + 1]);
    }
  }

  /** Every run of the code's words is a run of tickets, encoded; so everything proved of the
      ticket machine holds of the words. */
  lemma {:induction false} WordRunsAreTicketRuns(w: seq<WordState>) returns (r: seq<State>)
    requires WordRun(w)
    ensures Run(r) && Encodes(r, w)
    decreases |w|
  {
    var n := |w| - 1;
    if n == 0 {
      r := [Initial(w[0].m.cap, |w[0].pcs|)];
      InitialEncoded(w[0].m.cap, |w[0].pcs|);
    } else {
      WordRunPrefix(w);
      var q := WordRunsAreTicketRuns(w[..n]);
      assert w[n - 1] == Encode(Last(q));
      RunIsAligned(q);
      assert WordNext(w[n - 1], w[n]);
      var a :| WordEnabled(w[n - 1], a) && WordStepSafe(w[n - 1].m, w[n - 1].pcs[a.p], a)
          && w[n] == WordApply(w[n - 1], a);
      RunStepInStep(q, a);
      r := Extend(q, a);
      assert Encodes(r, w) by {
        forall i | 0 <= i < |r| ensures r[i].m.cap > 0 && w[i] == Encode(r[i]) {
          if i < n { assert r[i] == q[i] && w[i] == w[..n][i]; }
        }
      }
    }
  }

  /** In every run of the words, the index of each buffer access is below the capacity, and
      `tail - one_lap` in force_push does not underflow. */
  lemma WordAccessesInRange(w: seq<WordState>, a: Action)
    requires WordRun(w) && WordEnabled(w[|w| - 1], a)
    ensures WordStepSafe(w[|w| - 1].m, w[|w| - 1].pcs[a.p], a)
  {
    var r := WordRunsAreTicketRuns(w);
    assert w[|w| - 1] == Encode(Last(r));
    RunIsAligned(r);
    RunStepInStep(r, a);
  }

  /** What `len` returns in any run of the words: the number of outstanding tickets at the
      instant of its load of the head. */
  lemma LenIsExact(r: seq<State>, i: nat, p: nat)
    requires Run(r) && i < |r| && Enabled(r[i], LenCheck(p)) && Apply(r[i], LenCheck(p)).pcs[p] == Idle
    ensures var pc, m := r[i].pcs[p], r[i].m;
            m.cap > 0 && LenOf(m.cap, EncodePc(m.cap, pc).w, EncodePc(m.cap, pc).head) == pc.diff
  {
    LenSeesOneInstant(r, i, p);
    LenOfIsTicketDifference(r[i].m.cap, r[i].pcs[p].t, r[i].pcs[p].closed, r[i].pcs[p].h);
  }

  lemma InitialEncoded(cap: nat, threads: nat)
    requires cap > 0
    ensures Encode(Initial(cap, threads)) == WordInitial(cap, threads)
  {
    assert Encode(Initial(cap, threads)).m.stamps == WordInitial(cap, threads).m.stamps;
  }
}
