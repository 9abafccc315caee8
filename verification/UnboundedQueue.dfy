/**
 What every run of the unbounded queue guarantees.
 */
module UnboundedQueue {
  import opened Basics
  import opened Unbounded
  import opened UnboundedInv
  import opened UnboundedDuty

  /** The tape has the value of every ticket. */
  ghost predicate TapeInv(tail: Pos, tape: seq<Value>, log: map<Pos, Value>) {
    |tape| == Ticket(tail) && forall x :: x in log ==> Ticket(x) < |tape| && tape[Ticket(x)] == log[x]
  }

  lemma ReserveTape(m: Mem, p: nat, c: Call, n: nat)
    requires TapeInv(m.tail, m.tape, m.log) && c.start + n <= |c.stage|
    ensures var m' := Reserve(m, p, c, m.tail, n); TapeInv(m'.tail, m'.tape, m'.log)
  {
    var m' := Reserve(m, p, c, m.tail, n);
    assert |m'.tape| == Ticket(m'.tail);
    forall x | x in m'.log ensures Ticket(x) < |m'.tape| && m'.tape[Ticket(x)] == m'.log[x] {
      if InSpan(x, m.tail, n) { assert Ticket(x) == Ticket(m.tail) + (x.i - m.tail.i); }
    }
  }

  lemma TapeGo(m: Mem, m': Mem, p: nat, pc: Pc, spurious: bool)
    requires Acts(m, p, pc) && TapeInv(m.tail, m.tape, m.log) && m' == MemAfter(m, p, pc, spurious)
    ensures TapeInv(m'.tail, m'.tape, m'.log)
  {
    if Reserves(m, pc, spurious) { ReserveTape(m, p, pc.c, pc.n); }
  }

  lemma TapeNext(s: State, t: State)
    requires Inv(s) && TapeInv(s.m.tail, s.m.tape, s.m.log) && Next(s, t)
    ensures TapeInv(t.m.tail, t.m.tape, t.m.log)
  {
    var a :| Enabled(s, a) && Sane(s.m, s.pcs[a.p]) && t == Apply(s, a);
    if a.Go? {
      assert ThreadInv(s.m, a.p, s.pcs[a.p]);
      MayAct(s.m, a.p, s.pcs[a.p]);
      TapeGo(s.m, t.m, a.p, s.pcs[a.p], a.spurious);
    }
  }

  /** All that holds in every reachable state. */
  ghost predicate Good(s: State) {
    Inv(s) && Duty(s.m, s.pcs) && TapeInv(s.m.tail, s.m.tape, s.m.log)
  }

  lemma InitGood(threads: nat)
    ensures Good(Initial(threads))
  {
    InitInv(threads);
    InitDuty(threads);
  }

  lemma GoodNext(s: State, t: State)
    requires Good(s) && Next(s, t)
    ensures Good(t)
  {
    InvNext(s, t);
    DutyNext(s, t);
    TapeNext(s, t);
  }

  lemma {:induction false} RunKeepsGood(r: seq<State>, i: nat)
    requires Run(r) && i < |r|
    ensures Good(r[i])
  {
    if i == 0 {
      InitGood(|r[0].pcs|);
    } else {
      RunKeepsGood(r, i - 1);
      GoodNext(r[i - 1], r[i]);
    }
  }

  lemma RunMem(r: seq<State>, i: nat)
    requires Run(r) && i < |r|
    ensures MemInv(r[i].m) && TapeInv(r[i].m.tail, r[i].m.tape, r[i].m.log)
  {
    RunKeepsGood(r, i);
  }

  lemma RunThread(r: seq<State>, i: nat, p: nat)
    requires Run(r) && i < |r| && p < |r[i].pcs|
    ensures ThreadInv(r[i].m, p, r[i].pcs[p])
  {
    RunKeepsGood(r, i);
  }

  // ---------- memory ----------

  /** The thread has an access to block b ahead of it. */
  predicate Uses(pc: Pc, b: nat) {
    match pc
    case PFill(_, _, _, b', _, _) => b' == b
    case PMark(_, _, _, b', _, _) => b' == b
    case PTailBlock(_, _, b', _) => b' == b
    case PBump(_, _, b', _) => b' == b
    case PLink(_, _, b', _) => b' == b
    case QNext(_, b') => b' == b || b' + 1 == b
    case QPeek(_, b') => b' == b || b' + 1 == b
    case QHeadBlock(_, b', _) => b' == b
    case QHeadIndex(_, b', _) => b' == b
    case QWait(_, b') => b' == b
    case QRead(_, b') => b' == b
    case QMark(_, b') => b' == b
    case QDestroy(b', _) => b' == b
    case QOr(b', _) => b' == b
    case QFree(b') => b' == b
    case _ => false
  }

  /** Every slot of a freed block was read out, and the block was linked. */
  lemma FreedBlock(m: Mem, b: nat)
    requires MemInv(m) && b in m.freed
    ensures b in m.tok && m.tok[b] == Gone && b in m.linked && ReadUpTo(m.read, b, 30) && Pos(b, 30) in m.out
  {
    assert TokenInv(b, m.tok[b], m.read, m.doomed, m.freed);
  }

  lemma FreedSlot(m: Mem, x: Pos)
    requires MemInv(m) && x.b in m.freed && IsSlot(x)
    ensures x in m.out && x in m.written && x in m.reader && (x.i < 30 ==> x in m.read)
  {
    FreedBlock(m, x.b);
    if x.i < 30 { assert Pos(x.b, x.i) == x; } else { assert x == Pos(x.b, 30); }
  }

  lemma PusherNotFreed(m: Mem, p: nat, pc: Pc, b: nat)
    requires MemInv(m) && PushInv(m, p, pc) && (pc.PFill? || pc.PMark? || pc.PTailBlock? || pc.PBump? || pc.PLink?)
             && Uses(pc, b)
    ensures b !in m.freed
  {
    PushPoint(m, p, pc);
    if b in m.freed {
      FreedBlock(m, b);
      if pc.PFill? || pc.PMark? {
        var x := Plus(pc.t, pc.k);
        assert InSpan(x, x, pc.n - pc.k);
        FreedSlot(m, x);
      }
    }
  }

  lemma PopperNotFreed(m: Mem, p: nat, pc: Pc, b: nat)
    requires MemInv(m) && PopInv(m, p, pc) && Reading(pc).Some? && Uses(pc, b)
    ensures b !in m.freed
  {
    PopPoint(m, p, pc);
    if b in m.freed {
      FreedBlock(m, b);
      if b == pc.t.b { FreedSlot(m, pc.t); }
    }
  }

  lemma DestroyerNotFreed(m: Mem, p: nat, pc: Pc, b: nat)
    requires MemInv(m) && PopInv(m, p, pc) && (Marking(pc).Some? || Holding(pc).Some?) && Uses(pc, b)
    ensures b !in m.freed
  {
    PopPoint(m, p, pc);
    if b in m.freed {
      FreedBlock(m, b);
      if pc.QMark? { FreedSlot(m, pc.t); }
    }
  }

  lemma UserNotFreed(m: Mem, p: nat, pc: Pc, b: nat)
    requires MemInv(m) && ThreadInv(m, p, pc) && Uses(pc, b)
    ensures b !in m.freed
  {
    if Reading(pc).Some? { PopperNotFreed(m, p, pc, b); }
    else if Marking(pc).Some? || Holding(pc).Some? { DestroyerNotFreed(m, p, pc, b); }
    else { PusherNotFreed(m, p, pc, b); }
  }

  /** A thread that reads or marks a slot uses its block. */
  lemma SlotUser(m: Mem, p: nat, pc: Pc, x: Pos)
    requires PopInv(m, p, pc) && (Reading(pc) == Some(x) || Marking(pc) == Some(x))
    ensures Uses(pc, x.b)
  {
    PopPoint(m, p, pc);
  }

  ghost predicate Unused(pcs: seq<Pc>, b: nat) {
    forall p :: 0 <= p < |pcs| ==> !Uses(pcs[p], b)
  }

  lemma ClaimedIsRead(m: Mem, pcs: seq<Pc>, x: Pos)
    requires ReadersInv(m.reader, m.out, m.read, pcs) && ThreadsInv(m, pcs) && x in m.reader && Unused(pcs, x.b)
    ensures x in m.out && (x.i < 30 ==> x in m.read)
  {
    var p := m.reader[x];
    if x !in m.out || (x.i < 30 && x !in m.read) {
      assert ThreadInv(m, p, pcs[p]);
      SlotUser(m, p, pcs[p], x);
    }
  }

  lemma NobodyDestroys(tok: map<nat, Token>, pcs: seq<Pc>, b: nat)
    requires HoldersInv(tok, pcs) && Unused(pcs, b) && b in tok
    ensures !tok[b].Held?
  {
  }

  /** With its last slot claimed and nobody at work in it, a block has been freed. */
  lemma UnusedIsFreed(m: Mem, pcs: seq<Pc>, b: nat)
    requires TokensInv(m.tok, m.read, m.doomed, m.freed) && StartedInv(m.tok, m.linked, m.out)
             && ReaderInv(m.head, m.reader)
    requires ReadersInv(m.reader, m.out, m.read, pcs) && HoldersInv(m.tok, pcs) && ThreadsInv(m, pcs)
    requires Pos(b, 30) in m.reader && Unused(pcs, b)
    ensures b in m.freed
  {
    ClaimedIsRead(m, pcs, Pos(b, 30));
    assert b in m.tok;
    NobodyDestroys(m.tok, pcs, b);
    assert TokenInv(b, m.tok[b], m.read, m.doomed, m.freed);
    if m.tok[b].Left? { ClaimedIsRead(m, pcs, Pos(b, m.tok[b].i)); }
  }

  /** A block is freed exactly from the moment on when its last slot has been claimed and no
      thread has an access to it ahead: neither early, nor never. */
  lemma FreedExactlyWhenUnused(r: seq<State>, i: nat, b: nat)
    requires Run(r) && i < |r|
    ensures b in r[i].m.freed <==>
              Pos(b, 30) in r[i].m.reader && Unused(r[i].pcs, b)
  {
    RunKeepsGood(r, i);
    var m, pcs := r[i].m, r[i].pcs;
    if b in m.freed {
      FreedSlot(m, Pos(b, 30));
      forall p | 0 <= p < |pcs| ensures !Uses(pcs[p], b) {
        if Uses(pcs[p], b) { UserNotFreed(m, p, pcs[p], b); }
      }
    } else if Pos(b, 30) in m.reader && Unused(pcs, b) {
      UnusedIsFreed(m, pcs, b);
    }
  }

  lemma OnlyFreeFrees(s: State, a: Action)
    requires Enabled(s, a) && Sane(s.m, s.pcs[a.p])
    ensures Apply(s, a).m.freed == if s.pcs[a.p].QFree? then s.m.freed + {s.pcs[a.p].b} else s.m.freed
  {
    if a.Go? { FreedFrame(s.m, Apply(s, a).m, a.p, s.pcs[a.p], a.spurious); }
  }

  lemma FreesReadBlock(m: Mem, p: nat, pc: Pc)
    requires MemInv(m) && ThreadInv(m, p, pc) && pc.QFree?
    ensures pc.b !in m.freed && forall x: Pos :: x.b == pc.b && IsSlot(x) ==> x in m.out && x in m.written
  {
    PopPoint(m, p, pc);
    UserNotFreed(m, p, pc, pc.b);
    var m' := m.(freed := m.freed + {pc.b}, tok := m.tok[pc.b := Gone]);
    FreeMem(m, m', p, pc.b);
    forall x: Pos | x.b == pc.b && IsSlot(x) ensures x in m.out && x in m.written {
      FreedSlot(m', x);
    }
  }

  /** And it is freed once, after all its 31 slots were read. */
  lemma FreedOnce(r: seq<State>, i: nat, a: Action)
    requires Run(r) && i < |r| && Enabled(r[i], a) && Sane(r[i].m, r[i].pcs[a.p])
    ensures var m, m', pc := r[i].m, Apply(r[i], a).m, r[i].pcs[a.p];
            if pc.QFree? then
              var b := pc.b;
              && b !in m.freed && m'.freed == m.freed + {b}
              && forall x: Pos :: x.b == b && IsSlot(x) ==> x in m.out && x in m.written
            else m'.freed == m.freed
  {
    OnlyFreeFrees(r[i], a);
    if r[i].pcs[a.p].QFree? {
      RunKeepsGood(r, i);
      assert ThreadInv(r[i].m, a.p, r[i].pcs[a.p]);
      FreesReadBlock(r[i].m, a.p, r[i].pcs[a.p]);
    }
  }

  // ---------- the queue ----------

  /** What is reserved and not claimed: the content of the queue. */
  function Contents(m: Mem): seq<Value> {
    if Ticket(m.head) <= |m.tape| then m.tape[Ticket(m.head)..] else []
  }

  lemma TicketOrder(x: Pos, y: Pos)
    requires x.i <= BLOCK_CAP && y.i <= BLOCK_CAP
    ensures UpTo(x, y) ==> Ticket(x) <= Ticket(y)
    ensures IsSlot(x) ==> (Before(x, y) <==> Ticket(x) < Ticket(y))
    ensures IsSlot(x) && IsSlot(y) && Ticket(x) == Ticket(y) ==> x == y
  {
  }

  lemma StagedItems(c: Call, n: nat)
    requires StageInv(c) && c.start + n <= |c.stage|
    ensures c.written + n <= |c.items| && c.stage[c.start..c.start + n] == c.items[c.written..c.written + n]
  {
    if n > 0 { StageItem(c, n - 1); }
    var vs, us := c.stage[c.start..c.start + n], c.items[c.written..c.written + n];
    forall j | 0 <= j < n ensures vs[j] == us[j] { StageItem(c, j); }
  }

  lemma AppendedTail(tape: seq<Value>, h: nat, vs: seq<Value>)
    requires h <= |tape|
    ensures (tape + vs)[h..] == tape[h..] + vs
  {
  }

  lemma LongerTape(m: Mem, m': Mem, vs: seq<Value>)
    requires Ticket(m.head) <= |m.tape| && m'.head == m.head && m'.tape == m.tape + vs
    ensures Contents(m') == Contents(m) + vs
  {
    AppendedTail(m.tape, Ticket(m.head), vs);
  }

  lemma ReserveContents(m: Mem, m': Mem, p: nat, c: Call, n: nat)
    requires Ticket(m.head) <= |m.tape| && c.start + n <= |c.stage| && m' == Reserve(m, p, c, m.tail, n)
    ensures Contents(m') == Contents(m) + c.stage[c.start..c.start + n]
  {
    LongerTape(m, m', c.stage[c.start..c.start + n]);
  }

  lemma SegmentAppends(m: Mem, p: nat, c: Call, n: nat)
    requires Ticket(m.head) <= |m.tape| && StageInv(c) && c.start + n <= |c.stage|
    ensures c.written + n <= |c.items|
    ensures Contents(Reserve(m, p, c, m.tail, n)) == Contents(m) + c.items[c.written..c.written + n]
  {
    StagedItems(c, n);
    ReserveContents(m, Reserve(m, p, c, m.tail, n), p, c, n);
  }

  lemma ClaimRemoves(m: Mem, p: nat, t: Pos, mark: bool)
    requires TapeInv(m.tail, m.tape, m.log) && t == m.head && t in m.log
    ensures Contents(m) == [m.log[t]] + Contents(Claim(m, p, t, mark))
  {
    assert Ticket(Plus(t, 1)) == Ticket(t) + 1;
  }

  lemma HeadStays(m: Mem, m': Mem, p: nat, pc: Pc, spurious: bool)
    requires Acts(m, p, pc) && !Claims(m, pc, spurious) && m' == MemAfter(m, p, pc, spurious)
    ensures Ticket(m'.head) == Ticket(m.head)
  {
  }

  lemma NothingMoves(m: Mem, m': Mem, p: nat, pc: Pc, spurious: bool)
    requires Acts(m, p, pc) && !Reserves(m, pc, spurious) && !Claims(m, pc, spurious)
             && m' == MemAfter(m, p, pc, spurious)
    ensures Contents(m') == Contents(m)
  {
    HeadStays(m, m', p, pc, spurious);
  }

  /** From m to m' the step of a thread at pc appends the next items of its call, in iterator
      order, if it is a successful tail CAS, removes the first value if it is a successful head
      CAS, and leaves the content alone otherwise. */
  ghost predicate FifoEffect(m: Mem, pc: Pc, spurious: bool, m': Mem) {
    if Reserves(m, pc, spurious) then
      && pc.n >= 1 && pc.c.written + pc.n <= |pc.c.items|
      && Contents(m') == Contents(m) + pc.c.items[pc.c.written..pc.c.written + pc.n]
    else if Claims(m, pc, spurious) then
      pc.t in m.log && Contents(m) == [m.log[pc.t]] + Contents(m')
    else Contents(m') == Contents(m)
  }

  lemma ReserveFacts(m: Mem, p: nat, pc: Pc)
    requires PushInv(m, p, pc) && pc.PCas?
    ensures StageInv(pc.c) && pc.n >= 1
  {
    PushPoint(m, p, pc);
  }

  lemma FifoReserve(m: Mem, m': Mem, p: nat, pc: Pc, spurious: bool)
    requires PushInv(m, p, pc) && Sane(m, pc) && Reserves(m, pc, spurious) && m' == MemAfter(m, p, pc, spurious)
    requires |m.tape| == Ticket(m.tail) && Ticket(m.head) <= Ticket(m.tail)
    ensures FifoEffect(m, pc, spurious, m')
  {
    ReserveFacts(m, p, pc);
    SegmentAppends(m, p, pc.c, pc.n);
  }

  lemma FifoClaim(m: Mem, m': Mem, p: nat, pc: Pc, spurious: bool)
    requires LogInv(m.tail, m.log, m.writer) && TapeInv(m.tail, m.tape, m.log) && PopInv(m, p, pc)
    requires Claims(m, pc, spurious) && m' == MemAfter(m, p, pc, spurious)
    ensures FifoEffect(m, pc, spurious, m')
  {
    PopPoint(m, p, pc);
    ClaimRemoves(m, p, pc.t, pc.nextMark);
  }

  lemma FifoGo(m: Mem, m': Mem, p: nat, pc: Pc, spurious: bool)
    requires MemInv(m) && ThreadInv(m, p, pc) && Sane(m, pc) && TapeInv(m.tail, m.tape, m.log)
    requires m' == MemAfter(m, p, pc, spurious)
    ensures FifoEffect(m, pc, spurious, m')
  {
    if Reserves(m, pc, spurious) {
      TicketOrder(m.head, m.tail);
      FifoReserve(m, m', p, pc, spurious);
    }
    else if Claims(m, pc, spurious) { FifoClaim(m, m', p, pc, spurious); }
    else {
      MayAct(m, p, pc);
      NothingMoves(m, m', p, pc, spurious);
    }
  }

  /** The queue refines a FIFO sequence. */
  lemma RefinesFifo(r: seq<State>, i: nat, a: Action)
    requires Run(r) && i < |r| && Enabled(r[i], a) && Sane(r[i].m, r[i].pcs[a.p])
    ensures FifoEffect(r[i].m, r[i].pcs[a.p], a.Go? && a.spurious, Apply(r[i], a).m)
  {
    if a.Go? {
      RunMem(r, i);
      RunThread(r, i, a.p);
      FifoGo(r[i].m, Apply(r[i], a).m, a.p, r[i].pcs[a.p], a.spurious);
    }
  }

  // ---------- slots ----------

  lemma MapsGrow(m: Mem, m': Mem, p: nat, pc: Pc, spurious: bool)
    requires LogInv(m.tail, m.log, m.writer) && Acts(m, p, pc) && m' == MemAfter(m, p, pc, spurious)
    requires pc.QRead? ==> pc.t !in m.out
    ensures Grows(m.log, m'.log) && Grows(m.out, m'.out)
  {
    LogFrame(m, m', p, pc, spurious);
    if Reserves(m, pc, spurious) { ReserveLog(m, m', p, pc.c, pc.n); }
  }

  /** A reserved slot is for one value for ever; it is filled once, by the thread that reserved
      it, with that value; and it is taken out once, by the thread that claimed it, with that
      value. */
  ghost predicate UsedOnce(m: Mem, p: nat, pc: Pc, m': Mem) {
    && Grows(m.log, m'.log) && Grows(m.out, m'.out)
    && (pc.PMark? ==>
          var x := Plus(pc.t, pc.k);
          && x in m.log && x !in m.written && x in m.writer && m.writer[x] == p
          && x in m.cells && m.cells[x] == m.log[x])
    && (pc.QRead? ==>
          && pc.t in m.log && pc.t !in m.out && pc.t in m.reader && m.reader[pc.t] == p
          && pc.t in m.cells && m.cells[pc.t] == m.log[pc.t])
  }

  lemma UsedOnceGo(m: Mem, m': Mem, p: nat, pc: Pc, spurious: bool)
    requires LogInv(m.tail, m.log, m.writer) && WrittenInv(m.written, m.log, m.out, m.cells)
    requires Acts(m, p, pc) && ThreadInv(m, p, pc) && m' == MemAfter(m, p, pc, spurious)
    ensures UsedOnce(m, p, pc, m')
  {
    if pc.PMark? { FillsOwn(m, p, pc); }
    if pc.QRead? { TakesOwn(m, p, pc); }
    MapsGrow(m, m', p, pc, spurious);
  }

  lemma SlotUsedOnce(r: seq<State>, i: nat, a: Action)
    requires Run(r) && i < |r| && Enabled(r[i], a) && Sane(r[i].m, r[i].pcs[a.p])
    ensures UsedOnce(r[i].m, a.p, r[i].pcs[a.p], Apply(r[i], a).m)
  {
    if a.Go? {
      RunMem(r, i);
      RunThread(r, i, a.p);
      MayAct(r[i].m, a.p, r[i].pcs[a.p]);
      UsedOnceGo(r[i].m, Apply(r[i], a).m, a.p, r[i].pcs[a.p], a.spurious);
    }
  }

  lemma FillsOwn(m: Mem, p: nat, pc: Pc)
    requires pc.PMark? && PushInv(m, p, pc)
    ensures var x := Plus(pc.t, pc.k);
            && x in m.log && x !in m.written && x in m.writer && m.writer[x] == p
            && x in m.cells && m.cells[x] == m.log[x]
  {
    PushPoint(m, p, pc);
    assert InSpan(Plus(pc.t, pc.k), Plus(pc.t, pc.k), pc.n - pc.k);
  }

  lemma TakesOwn(m: Mem, p: nat, pc: Pc)
    requires pc.QRead? && PopInv(m, p, pc) && WrittenInv(m.written, m.log, m.out, m.cells)
    ensures && pc.t in m.log && pc.t !in m.out && pc.t in m.reader && m.reader[pc.t] == p
            && pc.t in m.cells && m.cells[pc.t] == m.log[pc.t]
  {
    PopPoint(m, p, pc);
  }

  /** The first `written` items of a call are in the queue, at increasing positions, in
      iterator order; they are all that the iterator holds (or reported), unless the queue is
      closed. */
  ghost predicate Reported(m: Mem, c: Call) {
    && c.written <= c.len && c.written <= |c.items| && |c.spots| == c.written
    && (forall j :: 0 <= j < c.written ==> c.spots[j] in m.log && m.log[c.spots[j]] == c.items[j])
    && (forall j, k :: 0 <= j < k < c.written ==> Before(c.spots[j], c.spots[k]))
    && (c.written < c.len && c.written < |c.items| ==> m.closed)
  }

  lemma ReportedCall(m: Mem, p: nat, pc: Pc)
    requires pc.PRet? && PushInv(m, p, pc)
    ensures Reported(m, pc.c)
  {
    PushPoint(m, p, pc);
  }

  /** push and push_n return with exactly what they report. */
  lemma ReportedPrefix(r: seq<State>, i: nat, p: nat)
    requires Run(r) && i < |r| && p < |r[i].pcs| && r[i].pcs[p].PRet?
    ensures Reported(r[i].m, r[i].pcs[p].c)
  {
    RunThread(r, i, p);
    ReportedCall(r[i].m, p, r[i].pcs[p]);
  }

  /** What a call reports changes only with a reservation, which appends exactly its slots. */
  lemma ReportFollowsReservations(m: Mem, pc: Pc, spurious: bool)
    requires InPush(pc) && !pc.PRet?
    ensures var pc' := PushPc(m, pc, spurious);
            && pc'.c.items == pc.c.items
            && pc'.c.written == pc.c.written + (if Reserves(m, pc, spurious) then pc.n else 0)
            && (if Reserves(m, pc, spurious) then
                  |pc'.c.spots| == |pc.c.spots| + pc.n && pc'.c.spots[..|pc.c.spots|] == pc.c.spots
                  && forall k :: 0 <= k < pc.n ==> pc'.c.spots[|pc.c.spots| + k] == Plus(m.tail, k)
                else pc'.c.spots == pc.c.spots)
  {
  }

  /** Whatever is reserved and not filled, filled up and not linked, or claimed and not taken
      out has a thread at work on it; so with no push in progress every reserved slot is filled,
      every block but the last is linked, and the tail is not at a block end. */
  lemma NothingLeftUndone(r: seq<State>, i: nat)
    requires Run(r) && i < |r|
    ensures var m, pcs := r[i].m, r[i].pcs;
            && (forall x :: x in m.log && x !in m.written ==>
                  x in m.writer && m.writer[x] < |pcs| && Fills(pcs[m.writer[x]], x))
            && (forall x :: x in m.reader && x !in m.out ==>
                  m.reader[x] < |pcs| && Reading(pcs[m.reader[x]]) == Some(x))
            && ((forall p :: 0 <= p < |pcs| ==> Outside(pcs[p])) ==>
                  && (forall x :: x in m.log ==> x in m.written)
                  && (forall b: nat :: b < m.tail.b ==> b in m.linked) && m.tail.i < BLOCK_CAP)
  {
    RunKeepsGood(r, i);
    var m, pcs := r[i].m, r[i].pcs;
    if forall p :: 0 <= p < |pcs| ==> Outside(pcs[p]) { Quiet(m, pcs); }
  }

  /** Not between a reservation and the end of its segment. */
  predicate Outside(pc: Pc) {
    !pc.PFill? && !pc.PMark? && !pc.PTailBlock? && !pc.PBump? && !pc.PLink?
  }

  lemma FilledIsLinked(m: Mem, pcs: seq<Pc>, b: nat)
    requires LogInv(m.tail, m.log, m.writer) && LinkersInv(m.writer, m.linked, pcs) && Before(Pos(b, 30), m.tail)
    requires forall p :: 0 <= p < |pcs| ==> Outside(pcs[p])
    ensures b in m.linked
  {
    assert Pos(b, 30) in m.log;
  }

  lemma Quiet(m: Mem, pcs: seq<Pc>)
    requires MemInv(m) && WritersInv(m.log, m.writer, m.written, pcs) && LinkersInv(m.writer, m.linked, pcs)
    requires forall p :: 0 <= p < |pcs| ==> Outside(pcs[p])
    ensures forall x :: x in m.log ==> x in m.written
    ensures (forall b: nat :: b < m.tail.b ==> b in m.linked) && m.tail.i < BLOCK_CAP
  {
    forall b: nat | b < m.tail.b ensures b in m.linked { FilledIsLinked(m, pcs, b); }
    if m.tail.i == BLOCK_CAP {
      FilledIsLinked(m, pcs, m.tail.b);
      assert false;
    }
  }

  // ---------- verdicts ----------

  lemma ClaimsReserved(m: Mem, p: nat, pc: Pc)
    requires LogInv(m.tail, m.log, m.writer) && ReaderInv(m.head, m.reader) && pc.QCas? && pc.t == m.head
             && PopInv(m, p, pc)
    ensures pc.t in m.log && pc.t !in m.reader && pc.b == pc.t.b
  {
    PopPoint(m, p, pc);
  }

  /** The mark is set on the head only if the tail has left the head's block; a claim, tested
      against the tail or not, claims a reserved slot; and the head never passes the tail. */
  lemma MarkIsSafe(r: seq<State>, i: nat, p: nat, spurious: bool)
    requires Run(r) && i < |r| && p < |r[i].pcs|
    ensures var m, pc := r[i].m, r[i].pcs[p];
            && (m.headMark ==> m.head.b < m.tail.b) && UpTo(m.head, m.tail)
            && (Claims(m, pc, spurious) ==> pc.t in m.log && pc.t !in m.reader && pc.b == pc.t.b)
  {
    RunMem(r, i);
    RunThread(r, i, p);
    if Claims(r[i].m, r[i].pcs[p], spurious) { ClaimsReserved(r[i].m, p, r[i].pcs[p]); }
  }

  /** Every reserved ticket is claimed. */
  ghost predicate Drained(m: Mem) {
    m.head == m.tail && Contents(m) == [] && forall x :: x in m.log ==> x in m.reader
  }

  lemma NothingLeft(m: Mem, p: nat, pc: Pc)
    requires MemInv(m) && TapeInv(m.tail, m.tape, m.log) && pc.QTail? && PopInv(m, p, pc)
    requires AfterLookTail(m, pc) == QRet
    ensures Drained(m)
  {
    PopPoint(m, p, pc);
  }

  /** pop reports Empty or Closed (which of them, by the mark it loads with the tail) only if
      every reserved ticket is claimed at its load of the tail. */
  lemma EmptyVerdictIsTrue(r: seq<State>, i: nat, p: nat)
    requires Run(r) && i < |r| && p < |r[i].pcs| && r[i].pcs[p].QTail? && AfterLookTail(r[i].m, r[i].pcs[p]) == QRet
    ensures Drained(r[i].m)
  {
    RunMem(r, i);
    RunThread(r, i, p);
    NothingLeft(r[i].m, p, r[i].pcs[p]);
  }

  lemma ClosedGo(m: Mem, m': Mem, p: nat, pc: Pc, spurious: bool)
    requires Acts(m, p, pc) && m.closed && m' == MemAfter(m, p, pc, spurious)
    ensures m'.closed && m'.tape == m.tape && Ticket(m.head) <= Ticket(m'.head)
  {
    if !Claims(m, pc, spurious) { HeadStays(m, m', p, pc, spurious); }
  }

  lemma ClosedNext(s: State, t: State)
    requires Inv(s) && Next(s, t) && s.m.closed
    ensures t.m.closed && t.m.tape == s.m.tape && Ticket(s.m.head) <= Ticket(t.m.head)
  {
    var a :| Enabled(s, a) && Sane(s.m, s.pcs[a.p]) && t == Apply(s, a);
    if a.Go? {
      assert ThreadInv(s.m, a.p, s.pcs[a.p]);
      MayAct(s.m, a.p, s.pcs[a.p]);
      ClosedGo(s.m, t.m, a.p, s.pcs[a.p], a.spurious);
    }
  }

  lemma ClosedRunStep(r: seq<State>, i: nat)
    requires Run(r) && i < |r| - 1 && r[i].m.closed
    ensures r[i + 1].m.closed && r[i + 1].m.tape == r[i].m.tape && Ticket(r[i].m.head) <= Ticket(r[i + 1].m.head)
  {
    RunKeepsGood(r, i);
    ClosedNext(r[i], r[i + 1]);
  }

  /** Closed now, closed and with the same tape in the next state. */
  predicate Sealed(s: State, t: State) {
    s.m.closed ==> t.m.closed && t.m.tape == s.m.tape && Ticket(s.m.head) <= Ticket(t.m.head)
  }

  lemma {:induction false} SealedStays(r: seq<State>, i: nat, j: nat)
    requires i <= j < |r| && r[i].m.closed && forall k :: 0 <= k < |r| - 1 ==> Sealed(r[k], r[k + 1])
    ensures r[j].m.closed && r[j].m.tape == r[i].m.tape && Ticket(r[i].m.head) <= Ticket(r[j].m.head)
    decreases j
  {
    if i < j {
      SealedStays(r, i, j - 1);
      assert Sealed(r[j - 1], r[j]);
    }
  }

  lemma ClosedStays(r: seq<State>, i: nat, j: nat)
    requires Run(r) && i <= j < |r| && r[i].m.closed
    ensures r[j].m.closed && r[j].m.tape == r[i].m.tape && Ticket(r[i].m.head) <= Ticket(r[j].m.head)
  {
    forall k | 0 <= k < |r| - 1 ensures Sealed(r[k], r[k + 1]) {
      if r[k].m.closed { ClosedRunStep(r, k); }
    }
    SealedStays(r, i, j);
  }

  lemma HeadInTape(r: seq<State>, i: nat)
    requires Run(r) && i < |r|
    ensures Ticket(r[i].m.head) <= |r[i].m.tape|
  {
    RunMem(r, i);
    TicketOrder(r[i].m.head, r[i].m.tail);
  }

  /** Closed is for ever: nothing is enqueued after it, and once the queue is closed and drained
      no pop ever claims a value. */
  lemma ClosedIsFinal(r: seq<State>, i: nat, j: nat)
    requires Run(r) && i <= j < |r| && r[i].m.closed
    ensures r[j].m.closed && r[j].m.tape == r[i].m.tape
    ensures Contents(r[i].m) == [] ==> Contents(r[j].m) == [] && Ticket(r[j].m.head) == Ticket(r[i].m.head)
  {
    ClosedStays(r, i, j);
    HeadInTape(r, i);
    HeadInTape(r, j);
  }
}
