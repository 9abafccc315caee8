/**
 The index words of the unbounded queue: a position shifted left by one, with a mark in the
 lowest bit, and the tests and updates that `push`, `push_n`, `pop` and `len` make on them.
 */
module UnboundedWords {
  import opened Unbounded
  import opened UnboundedInv
  import opened UnboundedQueue

  function Word(x: Pos, mark: bool): nat {
    2 * (32 * x.b + x.i) + if mark then 1 else 0
  }

  lemma Fields(x: Pos, mark: bool)
    requires x.i < 32
    ensures var w := Word(x, mark);
            && w / 2 == 32 * x.b + x.i && w / 2 % 32 == x.i && w / 2 / 32 == x.b
            && w % 2 == (if mark then 1 else 0) && w - w % 2 == Word(x, false)
  {
    var w := Word(x, mark);
    assert w / 2 == 32 * x.b + x.i;
  }

  /** What a CAS compares: the words are equal exactly if position and mark are. */
  lemma SameWord(x: Pos, mark: bool, y: Pos, mark': bool)
    requires x.i < 32 && y.i < 32
    ensures Word(x, mark) == Word(y, mark') <==> x == y && mark == mark'
    ensures Word(x, mark) / 2 == Word(y, mark') / 2 <==> x == y
    ensures Word(x, mark) / 2 / 32 == Word(y, mark') / 2 / 32 <==> x.b == y.b
  {
    Fields(x, mark);
    Fields(y, mark');
  }

  function SetMark(w: nat, mark: bool): nat {
    if mark && w % 2 == 0 then w + 1 else w
  }

  /** Reserving n slots adds 2 n; stepping over the gap adds 2 more, and so does the head; a close
      sets the lowest bit. */
  lemma Moves(x: Pos, n: nat, mark: bool)
    ensures Word(x, mark) + 2 * n == Word(Plus(x, n), mark) && SetMark(Word(x, mark), true) == Word(x, true)
    ensures x.i == 31 ==> Word(x, mark) + 2 == Word(Pos(x.b + 1, 0), mark)
    ensures x.i < 31 && x.i + 1 == 31 ==> Word(Plus(x, 1), false) + 2 == Word(Pos(x.b + 1, 0), false)
  {
  }

  // ---------- what the accesses store ----------

  /** The tail word after the access of a thread at pc, computed from the word it loaded. */
  function TailStore(tail: nat, pc: Pc, spurious: bool): nat {
    match pc
    case PCas(_, _, t, _, n) => if tail == Word(t, false) && !spurious then Word(t, false) + 2 * n else tail
    case PBump(_, _, _, _) => tail + 2
    case _ => tail
  }

  /** And the head word; the head of a new block is computed from the claim. */
  function HeadStore(head: nat, pc: Pc, spurious: bool): nat {
    match pc
    case QCas(t, mark, _, nextMark) =>
      if head == Word(t, mark) && !spurious then SetMark(Word(t, mark) + 2, nextMark) else head
    case QHeadIndex(t, _, nextMark) => SetMark(Word(t, false) + 2 + 2, nextMark)
    case _ => head
  }

  // ---------- what the tests decide ----------

  function WordPlan(w: nat, pc: Pc): Pc
    requires pc.PPlan?
  {
    var off := w / 2 % 32;
    if w % 2 != 0 then PRet(pc.c)
    else if off == BLOCK_CAP then PLoad(pc.c, pc.spare)
    else
      var c := Refill(pc.c, off);
      if |c.stage| <= c.start then PRet(c)
      else
        var n := Min(|c.stage| - c.start, BLOCK_CAP - off);
        var spare := pc.spare || off + n == BLOCK_CAP;
        if pc.ob.None? then PInstall(c, spare, pc.t, n) else PCas(c, spare, pc.t, pc.ob.value, n)
  }

  function WordPlanPop(w: nat, pc: Pc): Pc
    requires pc.QPlan?
  {
    if w / 2 % 32 == BLOCK_CAP then QLoad
    else if (w + 2) % 2 == 0 then QTail(pc.t, pc.ob)
    else if pc.ob.None? then QLoad
    else QCas(pc.t, true, pc.ob.value, true)
  }

  function WordLookTail(head: nat, tail: nat, pc: Pc): Pc
    requires pc.QTail?
  {
    if head / 2 == tail / 2 then QRet
    else if pc.ob.None? then QLoad
    else QCas(pc.t, false, pc.ob.value, head / 2 / 32 != tail / 2 / 32)
  }

  /** Every test on the words loaded has the outcome of the test on positions and marks. */
  predicate TestsAgree(m: Mem, pc: Pc, spurious: bool) {
    PushTestsAgree(m, pc, spurious) && PopTestsAgree(m, pc, spurious)
  }

  predicate PushTestsAgree(m: Mem, pc: Pc, spurious: bool) {
    && (pc.PPlan? ==> AfterPlan(pc) == WordPlan(Word(pc.t, pc.closed), pc))
    && (pc.PCas? ==> (Reserves(m, pc, spurious) <==> Word(m.tail, m.closed) == Word(pc.t, false) && !spurious))
  }

  predicate PopTestsAgree(m: Mem, pc: Pc, spurious: bool) {
    && (pc.QPlan? ==> AfterPlanPop(pc) == WordPlanPop(Word(pc.t, pc.mark), pc))
    && (pc.QTail? ==> AfterLookTail(m, pc) == WordLookTail(Word(pc.t, false), Word(m.tail, m.closed), pc))
    && (pc.QCas? ==>
          (Claims(m, pc, spurious) <==> Word(m.head, m.headMark) == Word(pc.t, pc.mark) && !spurious))
    && (pc.NHead? ==> (PopPc(m, pc, spurious) == Idle <==> Word(m.tail, m.closed) == Word(pc.t, pc.closed)))
  }

  /** Positions are within a block; the tail is stepped over a gap only from a block end, and the
      head only after a claim of a last slot; a set mark stays set within a block. */
  predicate InRange(m: Mem, pc: Pc) {
    && m.tail.i <= BLOCK_CAP && m.head.i <= BLOCK_CAP
    && (pc.PPlan? || pc.PCas? || pc.QPlan? || pc.QTail? || pc.QCas? || pc.NHead? ==> pc.t.i <= BLOCK_CAP)
    && (pc.PBump? ==> m.tail.i == BLOCK_CAP) && (pc.QHeadIndex? ==> pc.t.i + 1 == BLOCK_CAP)
    && (pc.QCas? && pc.mark ==> pc.nextMark)
  }

  lemma InRangeAt(m: Mem, p: nat, pc: Pc)
    requires MemInv(m) && ThreadInv(m, p, pc)
    ensures InRange(m, pc)
  {
    PushPoint(m, p, pc);
    PopPoint(m, p, pc);
  }

  lemma PushTestsAgreeAt(m: Mem, pc: Pc, spurious: bool)
    requires InRange(m, pc)
    ensures PushTestsAgree(m, pc, spurious)
  {
    if pc.PPlan? { Fields(pc.t, pc.closed); }
    if pc.PCas? { SameWord(m.tail, m.closed, pc.t, false); }
  }

  lemma PopTestsAgreeAt(m: Mem, pc: Pc, spurious: bool)
    requires InRange(m, pc)
    ensures PopTestsAgree(m, pc, spurious)
  {
    if pc.QPlan? { Fields(pc.t, pc.mark); }
    if pc.QTail? { SameWord(pc.t, false, m.tail, m.closed); }
    if pc.QCas? { SameWord(m.head, m.headMark, pc.t, pc.mark); }
    if pc.NHead? { SameWord(m.tail, m.closed, pc.t, pc.closed); }
  }

  lemma TailStoreAgrees(m: Mem, pc: Pc, spurious: bool)
    requires InRange(m, pc)
    ensures Word(TailAfter(m, pc, spurious), m.closed) == TailStore(Word(m.tail, m.closed), pc, spurious)
  {
    if pc.PCas? { SameWord(m.tail, m.closed, pc.t, false); }
  }

  lemma HeadStoreAgrees(m: Mem, pc: Pc, spurious: bool)
    requires InRange(m, pc)
    ensures var (head, mark) := HeadAfter(m, pc, spurious);
            Word(head, mark) == HeadStore(Word(m.head, m.headMark), pc, spurious)
  {
    if pc.QCas? { SameWord(m.head, m.headMark, pc.t, pc.mark); }
  }

  predicate StoresAgree(m: Mem, pc: Pc, m': Mem, spurious: bool) {
    && Word(m'.tail, m'.closed) == TailStore(Word(m.tail, m.closed), pc, spurious)
    && Word(m'.head, m'.headMark) == HeadStore(Word(m.head, m.headMark), pc, spurious)
  }

  lemma StoresAgreeAt(m: Mem, m': Mem, p: nat, pc: Pc, spurious: bool)
    requires InRange(m, pc) && Sane(m, pc) && m' == MemAfter(m, p, pc, spurious)
    ensures StoresAgree(m, pc, m', spurious)
  {
    TailFrame(m, m', p, pc, spurious);
    HeadFrame(m, m', p, pc, spurious);
    TailStoreAgrees(m, pc, spurious);
    HeadStoreAgrees(m, pc, spurious);
  }

  /** In every reachable state. */
  lemma TestsAgreeInRuns(r: seq<State>, i: nat, p: nat, spurious: bool)
    requires Run(r) && i < |r| && p < |r[i].pcs|
    ensures TestsAgree(r[i].m, r[i].pcs[p], spurious)
  {
    RunMem(r, i);
    RunThread(r, i, p);
    InRangeAt(r[i].m, p, r[i].pcs[p]);
    PushTestsAgreeAt(r[i].m, r[i].pcs[p], spurious);
    PopTestsAgreeAt(r[i].m, r[i].pcs[p], spurious);
  }

  /** So are the two index words after any access. */
  lemma StoresAgreeInRuns(r: seq<State>, i: nat, p: nat, spurious: bool, m': Mem)
    requires Run(r) && i < |r| && p < |r[i].pcs| && Sane(r[i].m, r[i].pcs[p])
    requires m' == MemAfter(r[i].m, p, r[i].pcs[p], spurious)
    ensures StoresAgree(r[i].m, r[i].pcs[p], m', spurious)
  {
    RunMem(r, i);
    RunThread(r, i, p);
    InRangeAt(r[i].m, p, r[i].pcs[p]);
    StoresAgreeAt(r[i].m, m', p, r[i].pcs[p], spurious);
  }

  /** Erases the mark and moves an index off a block end. */
  method FixUp(word: nat, ghost x: Pos, ghost mark: bool) returns (index: nat)
    requires word == Word(x, mark) && x.i <= BLOCK_CAP
    ensures index == Word(Step(x), false)
  {
    Fields(x, mark);
    Fields(x, false);
    index := word - word % 2;
    if index / 2 % 32 == 31 { index := index + 2; }
  }

  /** Rotates both indices by the blocks before the head; no subtraction underflows. */
  method Distance(tail: nat, head: nat, ghost t: Pos, ghost h: Pos) returns (n: nat)
    requires tail == Word(t, false) && head == Word(h, false) && t.i < BLOCK_CAP && h.i < BLOCK_CAP
    requires h.b < t.b || (h.b == t.b && h.i <= t.i)
    ensures n == Ticket(t) - Ticket(h)
  {
    Fields(h, false);
    var lap := head / 2 / 32;
    var tail', head' := tail - 2 * (lap * 32), head - 2 * (lap * 32);
    assert tail' == 2 * (32 * (t.b - h.b) + t.i) && head' == 2 * h.i;
    tail', head' := tail' / 2, head' / 2;
    assert tail' == 32 * (t.b - h.b) + t.i;
    Quotient(t.b - h.b, t.i);
    n := tail' - head' - tail' / 32;
  }

  /** The arithmetic of `len` on the two words it loaded. */
  method LenOf(tailWord: nat, headWord: nat, ghost t: Pos, ghost h: Pos, ghost tm: bool,
      ghost hm: bool) returns (n: nat)
    requires tailWord == Word(t, tm) && headWord == Word(h, hm)
    requires UpTo(h, t) && t.i <= BLOCK_CAP && h.i <= BLOCK_CAP
    ensures n == Ticket(t) - Ticket(h)
  {
    StepWord(t, h);
    var tail := FixUp(tailWord, t, tm);
    var head := FixUp(headWord, h, hm);
    n := Distance(tail, head, Step(t), Step(h));
  }

  /** The end of a block counts as the start of the next one. */
  function Step(x: Pos): Pos {
    if x.i == 31 then Pos(x.b + 1, 0) else x
  }

  lemma StepWord(t: Pos, h: Pos)
    requires UpTo(h, t) && t.i <= BLOCK_CAP && h.i <= BLOCK_CAP
    ensures Step(t).i < 31 && Step(h).i < 31 && Ticket(Step(t)) == Ticket(t) && Ticket(Step(h)) == Ticket(h)
    ensures Step(h).b < Step(t).b || (Step(h).b == Step(t).b && Step(h).i <= Step(t).i)
  {
  }

  lemma Quotient(b: nat, i: nat)
    requires i < 32
    ensures (32 * b + i) / 32 == b
  {
  }

  /** `len` returns only if the tail word did not change between its two loads; then the tail
      and head it loaded are apart by the number of outstanding tickets at its load of the head
      (`diff`), which is what LenOf computes from the two words. */
  lemma LenSeesOneInstant(r: seq<State>, i: nat, p: nat)
    requires Run(r) && i < |r| && p < |r[i].pcs| && r[i].pcs[p].NHead?
    requires PopPc(r[i].m, r[i].pcs[p], false) == Idle
    ensures var pc := r[i].pcs[p];
            UpTo(pc.h, pc.t) && pc.t.i <= BLOCK_CAP && pc.h.i <= BLOCK_CAP && pc.diff == Ticket(pc.t) - Ticket(pc.h)
  {
    RunMem(r, i);
    RunThread(r, i, p);
    LenExact(r[i].m, p, r[i].pcs[p]);
  }

  lemma LenExact(m: Mem, p: nat, pc: Pc)
    requires PointerInv(m.tail, m.tailBlock) && pc.NHead? && PopInv(m, p, pc) && PopPc(m, pc, false) == Idle
    ensures UpTo(pc.h, pc.t) && pc.t.i <= BLOCK_CAP && pc.h.i <= BLOCK_CAP && pc.diff == Ticket(pc.t) - Ticket(pc.h)
  {
    PopPoint(m, p, pc);
  }
}
