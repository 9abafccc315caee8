/**
 Nobody is stuck in the unbounded queue for good: when all other threads are outside of their
 calls, a thread brings the call it is in to an end, in a bounded number of steps.
 */
module UnboundedAlone {
  import opened Basics
  import opened Unbounded
  import opened UnboundedInv
  import opened UnboundedDuty
  import opened UnboundedQueue

  // ---------- who moves the head over a block end, and who installs the first block ----------

  predicate MovesHead(pc: Pc, b: nat) {
    (pc.QNext? || pc.QPeek? || pc.QHeadBlock? || pc.QHeadIndex?) && pc.t == Pos(b, 30)
  }

  /** With the head at a block end somebody is moving it to the next block. */
  ghost predicate HeadInv(m: Mem, pcs: seq<Pc>) {
    m.head.i == BLOCK_CAP ==> exists p :: 0 <= p < |pcs| && MovesHead(pcs[p], m.head.b)
  }

  /** With the first block installed and not at the head yet, somebody is about to put it there. */
  ghost predicate InstallInv(m: Mem, pcs: seq<Pc>) {
    m.tailBlock.Some? && m.headBlock.None? ==> exists p :: 0 <= p < |pcs| && pcs[p].PHeadBlock?
  }

  lemma StillMoves(m: Mem, m': Mem, pcs: seq<Pc>, p: nat, pc: Pc)
    requires HeadInv(m, pcs) && p < |pcs| && m'.head == m.head
    requires forall b: nat :: MovesHead(pcs[p], b) ==> MovesHead(pc, b)
    ensures HeadInv(m', pcs[p := pc])
  {
    if m.head.i == BLOCK_CAP {
      var q :| 0 <= q < |pcs| && MovesHead(pcs[q], m.head.b);
      assert MovesHead(pcs[p := pc][q], m.head.b);
    }
  }

  lemma MoverGoesOn(m: Mem, pc: Pc, spurious: bool)
    requires pc != Idle && !pc.QHeadIndex?
    ensures forall b: nat :: MovesHead(pc, b) ==> MovesHead(PcAfter(m, pc, spurious), b)
  {
  }

  lemma HeadGo(m: Mem, m': Mem, pcs: seq<Pc>, p: nat, spurious: bool)
    requires HeadInv(m, pcs) && p < |pcs| && pcs[p] != Idle && Sane(m, pcs[p]) && PopInv(m, p, pcs[p])
    requires m' == MemAfter(m, p, pcs[p], spurious)
    ensures HeadInv(m', pcs[p := PcAfter(m, pcs[p], spurious)])
  {
    var pc, pc' := pcs[p], PcAfter(m, pcs[p], spurious);
    HeadFrame(m, m', p, pc, spurious);
    if pc.QHeadIndex? { assert m'.head.i == 0; }
    else if Claims(m, pc, spurious) {
      PopPoint(m, p, pc);
      if m'.head.i == BLOCK_CAP { assert MovesHead(pcs[p := pc'][p], m'.head.b); }
    } else {
      MoverGoesOn(m, pc, spurious);
      StillMoves(m, m', pcs, p, pc');
    }
  }

  lemma BlockFrame(m: Mem, m': Mem, p: nat, pc: Pc, spurious: bool)
    requires Sane(m, pc) && m' == MemAfter(m, p, pc, spurious)
    ensures m'.headBlock == if pc.PHeadBlock? then Some(0) else if pc.QHeadBlock? then Some(pc.b + 1) else m.headBlock
    ensures !pc.PInstall? && !pc.PTailBlock? ==> m'.tailBlock == m.tailBlock
    ensures pc.PInstall? && m.tailBlock.Some? ==> m'.tailBlock == m.tailBlock
  {
  }

  lemma InstallGo(m: Mem, m': Mem, pcs: seq<Pc>, p: nat, spurious: bool)
    requires InstallInv(m, pcs) && MemInv(m) && p < |pcs| && pcs[p] != Idle && Sane(m, pcs[p]) && PushInv(m, p, pcs[p])
    requires m' == MemAfter(m, p, pcs[p], spurious)
    ensures InstallInv(m', pcs[p := PcAfter(m, pcs[p], spurious)])
  {
    var pc, pc' := pcs[p], PcAfter(m, pcs[p], spurious);
    BlockFrame(m, m', p, pc, spurious);
    if m'.tailBlock.Some? && m'.headBlock.None? {
      if pc.PInstall? && m.tailBlock.None? { assert pcs[p := pc'][p].PHeadBlock?; }
      else {
        if pc.PTailBlock? { PushPoint(m, p, pc); }
        var q :| 0 <= q < |pcs| && pcs[q].PHeadBlock?;
        assert pcs[p := pc'][q].PHeadBlock?;
      }
    }
  }

  ghost predicate HandOver(s: State) {
    HeadInv(s.m, s.pcs) && InstallInv(s.m, s.pcs)
  }

  lemma MovingNext(r: seq<State>, i: nat)
    requires Run(r) && i < |r| - 1 && HandOver(r[i])
    ensures HandOver(r[i + 1])
  {
    var s, t := r[i], r[i + 1];
    assert Next(s, t);
    var a :| Enabled(s, a) && Sane(s.m, s.pcs[a.p]) && t == Apply(s, a);
    if a.Go? {
      RunMem(r, i);
      RunThread(r, i, a.p);
      HeadGo(s.m, t.m, s.pcs, a.p, a.spurious);
      InstallGo(s.m, t.m, s.pcs, a.p, a.spurious);
    } else {
      StartMoves(s, a);
    }
  }

  lemma StartMoves(s: State, a: Action)
    requires HandOver(s) && Enabled(s, a) && Sane(s.m, s.pcs[a.p]) && !a.Go?
    ensures HandOver(Apply(s, a))
  {
    var t := Apply(s, a);
    if t.m.head.i == BLOCK_CAP {
      var q :| 0 <= q < |s.pcs| && MovesHead(s.pcs[q], s.m.head.b);
      assert MovesHead(t.pcs[q], t.m.head.b);
    }
    if t.m.tailBlock.Some? && t.m.headBlock.None? {
      var q :| 0 <= q < |s.pcs| && s.pcs[q].PHeadBlock?;
      assert t.pcs[q].PHeadBlock?;
    }
  }

  lemma InitMoves(threads: nat)
    ensures HandOver(Initial(threads))
  {
  }

  lemma {:induction false} RunMoves(r: seq<State>, i: nat)
    requires Run(r) && i < |r|
    ensures HandOver(r[i])
  {
    if i == 0 { InitMoves(|r[0].pcs|); }
    else {
      RunMoves(r, i - 1);
      MovingNext(r, i - 1);
    }
  }

  // ---------- how many steps are left ----------

  function Sub(x: int, y: int): nat {
    if y <= x then x - y else 0
  }

  /** What was loaded of the tail, and of the head, is what is there. */
  predicate TailIs(m: Mem, t: Pos, closed: bool) {
    m.tail == t && m.closed == closed
  }

  predicate HeadIs(m: Mem, t: Pos, mark: bool) {
    m.head == t && m.headMark == mark
  }

  /** An upper bound on the steps that a push at pc needs on its own, within one segment. */
  function PushLeft(m: Mem, pc: Pc): nat
    requires InPush(pc)
  {
    match pc
    case PLoad(_, _) => 50
    case PBlock(_, _, t, closed) => if TailIs(m, t, closed) then 49 else 57
    case PPlan(_, _, t, closed, ob) => if TailIs(m, t, closed) && ob == m.tailBlock then 48 else 56
    case PInstall(_, _, t, _) => if TailIs(m, t, false) && m.tailBlock.None? then 47 else 55
    case PHeadBlock(_, _, t, _) => if TailIs(m, t, false) then 46 else 54
    case PCas(_, _, t, _, _) => if TailIs(m, t, false) then 45 else 53
    case PFill(_, _, _, _, n, k) => 61 + 2 * Sub(n, k)
    case PMark(_, _, _, _, n, k) => 60 + 2 * Sub(n, k)
    case PTailBlock(c, _, _, _) => if c.batch then 61 else 150
    case PBump(c, _, _, _) => if c.batch then 60 else 149
    case PLink(c, _, _, _) => if c.batch then 59 else 148
    case PRet(_) => 1
  }

  /** And at a point of pop or len. */
  function PopLeft(m: Mem, pc: Pc): nat {
    match pc
    case QLoad => 85
    case QBlock(t, mark) => if HeadIs(m, t, mark) then 84 else 89
    case QPlan(t, mark, ob) => if HeadIs(m, t, mark) && ob == m.headBlock then 83 else 88
    case QTail(t, ob) => if HeadIs(m, t, false) && ob == m.headBlock then 82 else 87
    case QCas(t, mark, _, _) => if HeadIs(m, t, mark) then 80 else 86
    case QNext(_, _) => 76
    case QPeek(_, _) => 75
    case QHeadBlock(_, _, _) => 74
    case QHeadIndex(_, _, _) => 73
    case QWait(_, _) => 72
    case QRead(_, _) => 71
    case QMark(_, _) => 70
    case QDestroy(_, i) => 4 + 2 * Sub(31, i)
    case QOr(_, i) => 3 + 2 * Sub(31, i)
    case QFree(_) => 2
    case QRet => 1
    case NLoad => 3
    case NTail(t, closed) => if TailIs(m, t, closed) then 2 else 5
    case NHead(t, closed, _, _) => if TailIs(m, t, closed) then 1 else 4
    case _ => 0
  }

  /** Every segment reserved brings a push_n nearer to its end. */
  function Left(m: Mem, pc: Pc): nat {
    if InPush(pc) then 300 * Sub(pc.c.len, pc.c.written) + PushLeft(m, pc) else PopLeft(m, pc)
  }

  // ---------- all others are outside ----------

  ghost predicate OthersIdle(pcs: seq<Pc>, p: nat) {
    p < |pcs| && forall q :: 0 <= q < |pcs| && q != p ==> pcs[q] == Idle
  }

  /** What the thread can count on then. */
  predicate Free(m: Mem, pc: Pc) {
    && (Outside(pc) ==> m.tail.i < BLOCK_CAP)
    && (!MovesHead(pc, m.head.b) ==> m.head.i < BLOCK_CAP)
    && (m.tailBlock.Some? && m.headBlock.None? ==> pc.PHeadBlock?)
    && (pc.QNext? ==> pc.b in m.linked) && (pc.QWait? ==> pc.t in m.written)
  }

  lemma TailFree(m: Mem, pcs: seq<Pc>, p: nat)
    requires MemInv(m) && WritersInv(m.log, m.writer, m.written, pcs) && LinkersInv(m.writer, m.linked, pcs)
    requires OthersIdle(pcs, p) && Outside(pcs[p])
    ensures m.tail.i < BLOCK_CAP && (forall x :: x in m.log ==> x in m.written)
    ensures forall b: nat :: b < m.tail.b ==> b in m.linked
  {
    Quiet(m, pcs);
  }

  lemma NothingToWaitFor(m: Mem, pcs: seq<Pc>, p: nat)
    requires MemInv(m) && OthersIdle(pcs, p) && ThreadInv(m, p, pcs[p]) && HeadInv(m, pcs) && InstallInv(m, pcs)
             && pcs[p] != Idle
    requires WritersInv(m.log, m.writer, m.written, pcs) && LinkersInv(m.writer, m.linked, pcs)
    ensures Free(m, pcs[p]) && CanGo(m, pcs[p])
  {
    var pc := pcs[p];
    if Outside(pc) { TailFree(m, pcs, p); }
    PopPoint(m, p, pc);
    if pc.QNext? { NextIsReserved(m, p, pc); }
  }

  lemma NextIsReserved(m: Mem, p: nat, pc: Pc)
    requires MemInv(m) && PopInv(m, p, pc) && pc.QNext? && m.tail.i < BLOCK_CAP
    ensures pc.b < m.tail.b
  {
    PopPoint(m, p, pc);
  }

  // ---------- every step leaves fewer ----------

  predicate OnlyLooks(pc: Pc) {
    pc.PLoad? || pc.PBlock? || pc.PPlan? || pc.QLoad? || pc.QBlock? || pc.QPlan? || pc.QTail? || pc.NLoad? || pc.NTail?
    || pc.NHead?
  }

  lemma LookSame(m: Mem, p: nat, pc: Pc)
    requires OnlyLooks(pc) && Sane(m, pc)
    ensures MemAfter(m, p, pc, false) == m
  {
  }

  lemma PushLookLess(m: Mem, p: nat, pc: Pc)
    requires MemInv(m) && PushInv(m, p, pc) && Free(m, pc) && (pc.PLoad? || pc.PBlock? || pc.PPlan?)
    ensures Left(m, PushPc(m, pc, false)) < Left(m, pc)
  {
    PushPoint(m, p, pc);
  }

  lemma InstallLess(m: Mem, m': Mem, p: nat, pc: Pc)
    requires MemInv(m) && PushInv(m, p, pc) && Sane(m, pc) && (pc.PInstall? || pc.PHeadBlock?)
    requires m' == MemAfter(m, p, pc, false)
    ensures Left(m', PushPc(m, pc, false)) < Left(m, pc)
  {
    PushPoint(m, p, pc);
  }

  lemma CasFits(m: Mem, p: nat, pc: Pc)
    requires PushInv(m, p, pc) && pc.PCas?
    ensures 1 <= pc.n <= BLOCK_CAP && pc.c.written + pc.n <= pc.c.len
  {
    PushPoint(m, p, pc);
  }

  lemma CasWins(m: Mem, m': Mem, pc: Pc)
    requires pc.PCas? && Reserves(m, pc, false) && 1 <= pc.n <= BLOCK_CAP && pc.c.written + pc.n <= pc.c.len
    ensures Left(m', AfterCas(m, pc, false)) < Left(m, pc)
  {
    assert Sub(pc.c.len, pc.c.written + pc.n) + pc.n == Sub(pc.c.len, pc.c.written);
  }

  lemma CasLoses(m: Mem, pc: Pc)
    requires pc.PCas? && !Reserves(m, pc, false)
    ensures Left(m, AfterCas(m, pc, false)) < Left(m, pc)
  {
  }

  lemma CasLess(m: Mem, m': Mem, p: nat, pc: Pc)
    requires PushInv(m, p, pc) && Sane(m, pc) && pc.PCas? && m' == MemAfter(m, p, pc, false)
    ensures Left(m', PushPc(m, pc, false)) < Left(m, pc)
  {
    CasFits(m, p, pc);
    if Reserves(m, pc, false) { CasWins(m, m', pc); } else { CasLoses(m, pc); }
  }

  /** From here on the memory does not matter. */
  lemma FillLess(m: Mem, m': Mem, p: nat, pc: Pc)
    requires PushInv(m, p, pc) && (pc.PFill? || pc.PMark? || pc.PTailBlock? || pc.PBump? || pc.PLink? || pc.PRet?)
    ensures Left(m', PushPc(m, pc, false)) < Left(m, pc)
  {
    PushPoint(m, p, pc);
  }

  ghost predicate Indexed(m: Mem) {
    IndexInv(m.head, m.headMark, m.tail, m.headBlock, m.tailBlock)
  }

  lemma PopLoadLess(m: Mem, pc: Pc)
    requires Indexed(m) && Free(m, pc) && (pc.QLoad? || pc.QBlock? || pc.QPlan?)
    ensures Left(m, PopPc(m, pc, false)) < Left(m, pc)
  {
  }

  lemma PopTailLess(m: Mem, pc: Pc)
    requires Indexed(m) && Free(m, pc) && pc.QTail?
    ensures Left(m, PopPc(m, pc, false)) < Left(m, pc)
  {
  }

  lemma PopCasLess(m: Mem, m': Mem, p: nat, pc: Pc)
    requires pc.QCas? && m' == MemAfter(m, p, pc, false)
    ensures Left(m', PopPc(m, pc, false)) < Left(m, pc)
  {
  }

  lemma PopTakeLess(m: Mem, m': Mem, p: nat, pc: Pc)
    requires pc.QNext? || pc.QPeek? || pc.QHeadBlock? || pc.QHeadIndex? || pc.QWait? || pc.QRead?
             || (pc.QMark? && IsSlot(pc.t))
    ensures Left(m', PopPc(m, pc, false)) < Left(m, pc)
  {
  }

  lemma DestroyLess(m: Mem, m': Mem, pc: Pc)
    requires (pc.QDestroy? && pc.i <= 30) || (pc.QOr? && pc.i < 30) || pc.QFree? || pc.QRet?
    ensures Left(m', PopPc(m, pc, false)) < Left(m, pc)
  {
  }

  lemma LenLess(m: Mem, pc: Pc)
    requires pc.NLoad? || pc.NTail? || pc.NHead?
    ensures Left(m, PopPc(m, pc, false)) < Left(m, pc)
  {
  }

  lemma PopBounds(m: Mem, p: nat, pc: Pc)
    requires MemInv(m) && PopInv(m, p, pc)
    ensures pc.QMark? ==> IsSlot(pc.t)
    ensures pc.QDestroy? ==> pc.i <= 30
    ensures pc.QOr? ==> pc.i < 30
  {
    PopPoint(m, p, pc);
    if pc.QDestroy? { assert TokenInv(pc.b, m.tok[pc.b], m.read, m.doomed, m.freed); }
  }

  lemma PushLess(m: Mem, m': Mem, p: nat, pc: Pc)
    requires MemInv(m) && PushInv(m, p, pc) && Free(m, pc) && Sane(m, pc) && InPush(pc)
    requires m' == MemAfter(m, p, pc, false)
    ensures Left(m', PushPc(m, pc, false)) < Left(m, pc)
  {
    if pc.PLoad? || pc.PBlock? || pc.PPlan? {
      LookSame(m, p, pc);
      PushLookLess(m, p, pc);
    }
    else if pc.PInstall? || pc.PHeadBlock? { InstallLess(m, m', p, pc); }
    else if pc.PCas? { CasLess(m, m', p, pc); }
    else { FillLess(m, m', p, pc); }
  }

  lemma PopLess(m: Mem, m': Mem, p: nat, pc: Pc)
    requires MemInv(m) && PopInv(m, p, pc) && Free(m, pc) && Sane(m, pc) && !InPush(pc) && pc != Idle
    requires m' == MemAfter(m, p, pc, false)
    ensures Left(m', PopPc(m, pc, false)) < Left(m, pc)
  {
    PopBounds(m, p, pc);
    if OnlyLooks(pc) {
      LookSame(m, p, pc);
      if pc.NLoad? || pc.NTail? || pc.NHead? { LenLess(m, pc); }
      else if pc.QTail? { PopTailLess(m, pc); }
      else { PopLoadLess(m, pc); }
    }
    else if pc.QCas? { PopCasLess(m, m', p, pc); }
    else if pc.QDestroy? || pc.QOr? || pc.QFree? || pc.QRet? { DestroyLess(m, m', pc); }
    else { PopTakeLess(m, m', p, pc); }
  }

  lemma StepLess(m: Mem, m': Mem, p: nat, pc: Pc)
    requires MemInv(m) && ThreadInv(m, p, pc) && Free(m, pc) && Sane(m, pc) && pc != Idle
    requires m' == MemAfter(m, p, pc, false)
    ensures Left(m', PcAfter(m, pc, false)) < Left(m, pc)
  {
    if InPush(pc) { PushLess(m, m', p, pc); } else { PopLess(m, m', p, pc); }
  }

  // ---------- to the end of the call ----------

  /** Thread p's own next steps lead from s to t. */
  ghost predicate Reaches(s: State, t: State, p: nat, n: nat)
    decreases n
  {
    if n == 0 then s == t
    else Enabled(s, Go(p, false)) && Sane(s.m, s.pcs[p]) && Reaches(Apply(s, Go(p, false)), t, p, n - 1)
  }

  /** At most n steps of thread p alone lead from s to the end of the call it is in. */
  ghost predicate Finishes(s: State, p: nat, n: nat) {
    exists t: State, k: nat :: k <= n && Reaches(s, t, p, k) && p < |t.pcs| && t.pcs[p] == Idle
  }

  lemma FinishesNow(s: State, p: nat)
    requires p < |s.pcs| && s.pcs[p] == Idle
    ensures Finishes(s, p, 0)
  {
    assert Reaches(s, s, p, 0);
  }

  lemma FinishesLater(s: State, p: nat, n: nat, m: nat)
    requires Enabled(s, Go(p, false)) && Sane(s.m, s.pcs[p]) && Finishes(Apply(s, Go(p, false)), p, n) && n < m
    ensures Finishes(s, p, m)
  {
    var t: State, k: nat :| k <= n && Reaches(Apply(s, Go(p, false)), t, p, k) && p < |t.pcs| && t.pcs[p] == Idle;
    assert Reaches(s, t, p, k + 1);
  }

  lemma Longer(r: seq<State>, a: Action) returns (r': seq<State>)
    requires Run(r) && Enabled(r[|r| - 1], a) && Sane(r[|r| - 1].m, r[|r| - 1].pcs[a.p])
    ensures Run(r') && |r'| == |r| + 1 && r'[|r|] == Apply(r[|r| - 1], a)
  {
    r' := r + [Apply(r[|r| - 1], a)];
    assert Next(r[|r| - 1], r'[|r|]);
    forall i | 0 <= i < |r'| - 1 ensures Next(r'[i], r'[i + 1]) {
      if i < |r| - 1 { assert Next(r[i], r[i + 1]); }
    }
  }

  /** The next step can be taken, and leaves fewer. */
  lemma NextStep(r: seq<State>, p: nat)
    requires Run(r) && OthersIdle(r[|r| - 1].pcs, p) && r[|r| - 1].pcs[p] != Idle
    ensures var s := r[|r| - 1];
            && Enabled(s, Go(p, false)) && Sane(s.m, s.pcs[p])
            && Left(Apply(s, Go(p, false)).m, Apply(s, Go(p, false)).pcs[p]) < Left(s.m, s.pcs[p])
  {
    var s := r[|r| - 1];
    RunMem(r, |r| - 1);
    RunThread(r, |r| - 1, p);
    RunMoves(r, |r| - 1);
    RunWork(r, |r| - 1);
    NothingToWaitFor(s.m, s.pcs, p);
    AlwaysSane(s.m, p, s.pcs[p]);
    StepLess(s.m, Apply(s, Go(p, false)).m, p, s.pcs[p]);
  }

  lemma RunWork(r: seq<State>, i: nat)
    requires Run(r) && i < |r|
    ensures WritersInv(r[i].m.log, r[i].m.writer, r[i].m.written, r[i].pcs)
    ensures LinkersInv(r[i].m.writer, r[i].m.linked, r[i].pcs)
  {
    RunKeepsGood(r, i);
  }

  lemma {:induction false} FinishesFrom(r: seq<State>, p: nat)
    requires Run(r) && OthersIdle(r[|r| - 1].pcs, p)
    ensures Finishes(r[|r| - 1], p, Left(r[|r| - 1].m, r[|r| - 1].pcs[p]))
    decreases Left(r[|r| - 1].m, r[|r| - 1].pcs[p])
  {
    var s := r[|r| - 1];
    if s.pcs[p] == Idle { FinishesNow(s, p); }
    else {
      NextStep(r, p);
      var r' := Longer(r, Go(p, false));
      var t := r'[|r|];
      FinishesFrom(r', p);
      FinishesLater(s, p, Left(t.m, t.pcs[p]), Left(s.m, s.pcs[p]));
    }
  }

  /** In every reachable state with all others outside of their calls, a bounded number of its own
      steps, none of which has to wait, bring a thread to the end of the call it is in. */
  lemma EveryCallFinishesAlone(r: seq<State>, i: nat, p: nat)
    requires Run(r) && i < |r| && OthersIdle(r[i].pcs, p)
    ensures Finishes(r[i], p, Left(r[i].m, r[i].pcs[p]))
  {
    var q := r[..i + 1];
    forall j | 0 <= j < |q| - 1 ensures Next(q[j], q[j + 1]) { assert Next(r[j], r[j + 1]); }
    FinishesFrom(q, p);
  }
}
