/**
 Unfinished work always has a thread that does it: a reserved slot that is not written, a
 filled block that is not linked, a claimed slot that is not read, a destruction under way.
 */
module UnboundedDuty {
  import opened Basics
  import opened Unbounded
  import opened UnboundedInv

  /** The slot a thread claimed and has not read. */
  function Reading(pc: Pc): Option<Pos> {
    match pc
    case QNext(t, _) => Some(t)
    case QPeek(t, _) => Some(t)
    case QHeadBlock(t, _, _) => Some(t)
    case QHeadIndex(t, _, _) => Some(t)
    case QWait(t, _) => Some(t)
    case QRead(t, _) => Some(t)
    case _ => None
  }

  /** The slot a thread has read and not marked READ. */
  function Marking(pc: Pc): Option<Pos> {
    if pc.QMark? then Some(pc.t) else None
  }

  /** The block a thread destroys, and the slot it has got to. */
  function Holding(pc: Pc): Option<Pos> {
    match pc
    case QDestroy(b, i) => Some(Pos(b, i))
    case QOr(b, i) => Some(Pos(b, i))
    case QFree(b) => Some(Pos(b, 30))
    case _ => None
  }

  predicate Fills(pc: Pc, x: Pos) {
    match pc
    case PFill(_, _, t, _, n, k) => k <= n && InSpan(x, Plus(t, k), n - k)
    case PMark(_, _, t, _, n, k) => k <= n && InSpan(x, Plus(t, k), n - k)
    case PTailBlock(c, t, _, _) => !c.batch && x == t
    case PBump(c, t, _, _) => !c.batch && x == t
    case PLink(c, t, _, _) => !c.batch && x == t
    case _ => false
  }

  predicate WillLink(pc: Pc, b: nat) {
    match pc
    case PFill(c, _, t, _, n, _) => c.batch && t.b == b && t.i + n == BLOCK_CAP
    case PMark(c, _, t, _, n, _) => c.batch && t.b == b && t.i + n == BLOCK_CAP
    case PTailBlock(_, _, b', _) => b' == b
    case PBump(_, _, b', _) => b' == b
    case PLink(_, _, b', _) => b' == b
    case _ => false
  }

  ghost predicate ReadersInv(reader: map<Pos, nat>, out: map<Pos, Value>, read: set<Pos>, pcs: seq<Pc>) {
    && (forall x :: x in reader && x !in out ==> reader[x] < |pcs| && Reading(pcs[reader[x]]) == Some(x))
    && (forall x :: x in out && x !in read && x.i < 30 ==>
          x in reader && reader[x] < |pcs| && Marking(pcs[reader[x]]) == Some(x))
  }

  ghost predicate HoldersInv(tok: map<nat, Token>, pcs: seq<Pc>) {
    forall b :: b in tok && tok[b].Held? ==> tok[b].p < |pcs| && Holding(pcs[tok[b].p]) == Some(Pos(b, tok[b].i))
  }

  ghost predicate WritersInv(log: map<Pos, Value>, writer: map<Pos, nat>, written: set<Pos>, pcs: seq<Pc>) {
    forall x :: x in log && x !in written ==> x in writer && writer[x] < |pcs| && Fills(pcs[writer[x]], x)
  }

  ghost predicate LinkersInv(writer: map<Pos, nat>, linked: set<nat>, pcs: seq<Pc>) {
    forall b :: Pos(b, 30) in writer && b !in linked ==>
      writer[Pos(b, 30)] < |pcs| && WillLink(pcs[writer[Pos(b, 30)]], b)
  }

  ghost predicate Duty(m: Mem, pcs: seq<Pc>) {
    && ReadersInv(m.reader, m.out, m.read, pcs) && HoldersInv(m.tok, pcs)
    && WritersInv(m.log, m.writer, m.written, pcs) && LinkersInv(m.writer, m.linked, pcs)
  }

  // ---------- an action that hands no work over ----------

  /** The new program point does all that was left to the old one. */
  ghost predicate Continues(pc: Pc, pc': Pc) {
    && (Reading(pc).Some? ==> Reading(pc') == Reading(pc))
    && (Marking(pc).Some? ==> Marking(pc') == Marking(pc))
    && (Holding(pc).Some? ==> Holding(pc') == Holding(pc))
    && (forall x :: Fills(pc, x) ==> Fills(pc', x))
    && (forall b :: WillLink(pc, b) ==> WillLink(pc', b))
  }

  lemma ReadersContinue(reader: map<Pos, nat>, out: map<Pos, Value>, read: set<Pos>, pcs: seq<Pc>, p: nat, pc: Pc)
    requires ReadersInv(reader, out, read, pcs) && p < |pcs|
    requires Reading(pcs[p]).Some? ==> Reading(pc) == Reading(pcs[p])
    requires Marking(pcs[p]).Some? ==> Marking(pc) == Marking(pcs[p])
    ensures ReadersInv(reader, out, read, pcs[p := pc])
  {
  }

  lemma HoldersContinue(tok: map<nat, Token>, pcs: seq<Pc>, p: nat, pc: Pc)
    requires HoldersInv(tok, pcs) && p < |pcs| && (Holding(pcs[p]).Some? ==> Holding(pc) == Holding(pcs[p]))
    ensures HoldersInv(tok, pcs[p := pc])
  {
  }

  /** A thread outside of push has nothing to fill or link. */
  lemma WritersContinue(m: Mem, pcs: seq<Pc>, p: nat, pc: Pc)
    requires WritersInv(m.log, m.writer, m.written, pcs) && LinkersInv(m.writer, m.linked, pcs) && p < |pcs|
    requires (forall x :: !Fills(pcs[p], x)) && (forall b :: !WillLink(pcs[p], b))
    ensures WritersInv(m.log, m.writer, m.written, pcs[p := pc]) && LinkersInv(m.writer, m.linked, pcs[p := pc])
  {
  }

  lemma LinkersContinue(m: Mem, pcs: seq<Pc>, p: nat, pc: Pc)
    requires LinkersInv(m.writer, m.linked, pcs) && p < |pcs|
    requires forall b :: WillLink(pcs[p], b) ==> WillLink(pc, b)
    ensures LinkersInv(m.writer, m.linked, pcs[p := pc])
  {
  }

  lemma DutyContinues(m: Mem, pcs: seq<Pc>, p: nat, pc: Pc)
    requires Duty(m, pcs) && p < |pcs| && Continues(pcs[p], pc)
    ensures Duty(m, pcs[p := pc])
  {
  }

  /** A point whose access changes nothing that work is counted by. */
  predicate Routine(pc: Pc) {
    !pc.PCas? && !pc.PMark? && !pc.PLink? && !pc.QCas? && !pc.QRead? && !pc.QMark? && !pc.QDestroy? && !pc.QOr?
        && !pc.QFree?
  }

  lemma RoutinePush(m: Mem, p: nat, pc: Pc, spurious: bool)
    requires PushInv(m, p, pc) && InPush(pc) && Routine(pc)
    ensures Continues(pc, PushPc(m, pc, spurious))
  {
    PushPoint(m, p, pc);
  }

  lemma RoutinePop(m: Mem, pc: Pc, spurious: bool)
    requires !InPush(pc) && Routine(pc)
    ensures Continues(pc, PopPc(m, pc, spurious))
  {
  }

  lemma RoutineMem(m: Mem, p: nat, pc: Pc, spurious: bool)
    requires Sane(m, pc) && Routine(pc)
    ensures var m' := MemAfter(m, p, pc, spurious);
            m' == m'.(reader := m.reader, out := m.out, read := m.read, tok := m.tok, log := m.log, writer := m.writer,
                      written := m.written, linked := m.linked)
  {
  }

  // ---------- the actions that do ----------

  lemma ReserveDuty(m: Mem, pcs: seq<Pc>, p: nat, c: Call, t: Pos, n: nat, pc: Pc)
    requires WritersInv(m.log, m.writer, m.written, pcs) && p < |pcs| && pcs[p].PCas? && c.start + n <= |c.stage|
    requires LogInv(m.tail, m.log, m.writer) && t == m.tail
    requires forall x :: InSpan(x, t, n) ==> Fills(pc, x)
    ensures var m' := Reserve(m, p, c, t, n); WritersInv(m'.log, m'.writer, m'.written, pcs[p := pc])
  {
  }

  lemma FillUpDuty(m: Mem, pcs: seq<Pc>, p: nat, c: Call, t: Pos, n: nat, pc: Pc)
    requires LinkersInv(m.writer, m.linked, pcs) && p < |pcs| && pcs[p].PCas? && c.start + n <= |c.stage|
    requires t.i + n <= BLOCK_CAP && (t.i + n == BLOCK_CAP ==> WillLink(pc, t.b))
    ensures var m' := Reserve(m, p, c, t, n); LinkersInv(m'.writer, m'.linked, pcs[p := pc])
  {
  }

  lemma SetWriteDuty(m: Mem, pcs: seq<Pc>, p: nat, x: Pos, pc: Pc)
    requires WritersInv(m.log, m.writer, m.written, pcs) && p < |pcs|
    requires forall y :: Fills(pcs[p], y) && y != x ==> Fills(pc, y)
    ensures WritersInv(m.log, m.writer, m.written + {x}, pcs[p := pc])
  {
  }

  lemma LinkDuty(m: Mem, pcs: seq<Pc>, p: nat, b: nat, pc: Pc)
    requires LinkersInv(m.writer, m.linked, pcs) && p < |pcs|
    requires forall b' :: WillLink(pcs[p], b') ==> b' == b
    ensures LinkersInv(m.writer, m.linked + {b}, pcs[p := pc])
  {
  }

  lemma ClaimDuty(m: Mem, pcs: seq<Pc>, p: nat, t: Pos, pc: Pc)
    requires ReadersInv(m.reader, m.out, m.read, pcs) && p < |pcs| && pcs[p].QCas? && Reading(pc) == Some(t)
    requires OutInv(m.out, m.written, m.reader, m.log) && t !in m.reader
    ensures ReadersInv(m.reader[t := p], m.out, m.read, pcs[p := pc])
  {
  }

  lemma TakeDuty(m: Mem, pcs: seq<Pc>, p: nat, t: Pos, v: Value, pc: Pc)
    requires ReadersInv(m.reader, m.out, m.read, pcs) && p < |pcs| && pcs[p].QRead? && pcs[p].t == t
    requires t in m.reader && m.reader[t] == p && (t.i < 30 ==> Marking(pc) == Some(t))
    ensures ReadersInv(m.reader, m.out[t := v], m.read, pcs[p := pc])
  {
  }

  lemma SetReadDuty(m: Mem, pcs: seq<Pc>, p: nat, t: Pos, pc: Pc)
    requires ReadersInv(m.reader, m.out, m.read, pcs) && p < |pcs| && Marking(pcs[p]) == Some(t)
    ensures ReadersInv(m.reader, m.out, m.read + {t}, pcs[p := pc])
  {
  }

  lemma TokenDuty(tok: map<nat, Token>, pcs: seq<Pc>, p: nat, b: nat, tk: Token, pc: Pc)
    requires HoldersInv(tok, pcs) && p < |pcs|
    requires Holding(pcs[p]).Some? ==> Holding(pcs[p]).value.b == b
    requires tk.Held? ==> tk.p == p && Holding(pc) == Some(Pos(b, tk.i))
    ensures HoldersInv(tok[b := tk], pcs[p := pc])
  {
  }

  lemma ReservedDuty(m: Mem, m': Mem, pcs: seq<Pc>, p: nat, pc: Pc)
    requires Duty(m, pcs) && p < |pcs| && pcs[p].PCas? && pcs[p].c.start + pcs[p].n <= |pcs[p].c.stage|
    requires LogInv(m.tail, m.log, m.writer) && pcs[p].t == m.tail && m.tail.i + pcs[p].n <= BLOCK_CAP
    requires forall x :: InSpan(x, m.tail, pcs[p].n) ==> Fills(pc, x)
    requires m.tail.i + pcs[p].n == BLOCK_CAP ==> WillLink(pc, m.tail.b)
    requires m' == Reserve(m, p, pcs[p].c, pcs[p].t, pcs[p].n)
    ensures Duty(m', pcs[p := pc])
  {
    ReadersContinue(m.reader, m.out, m.read, pcs, p, pc);
    HoldersContinue(m.tok, pcs, p, pc);
    ReserveDuty(m, pcs, p, pcs[p].c, pcs[p].t, pcs[p].n, pc);
    FillUpDuty(m, pcs, p, pcs[p].c, pcs[p].t, pcs[p].n, pc);
  }

  lemma WrittenDuty(m: Mem, m': Mem, pcs: seq<Pc>, p: nat, pc: Pc)
    requires Duty(m, pcs) && p < |pcs| && pcs[p].PMark?
    requires forall y :: Fills(pcs[p], y) && y != Plus(pcs[p].t, pcs[p].k) ==> Fills(pc, y)
    requires forall b :: WillLink(pcs[p], b) ==> WillLink(pc, b)
    requires m' == m.(written := m.written + {Plus(pcs[p].t, pcs[p].k)})
    ensures Duty(m', pcs[p := pc])
  {
    ReadersContinue(m.reader, m.out, m.read, pcs, p, pc);
    HoldersContinue(m.tok, pcs, p, pc);
    SetWriteDuty(m, pcs, p, Plus(pcs[p].t, pcs[p].k), pc);
    LinkersContinue(m, pcs, p, pc);
  }

  lemma LinkedDuty(m: Mem, m': Mem, pcs: seq<Pc>, p: nat, pc: Pc)
    requires Duty(m, pcs) && p < |pcs| && pcs[p].PLink?
    requires forall y :: Fills(pcs[p], y) ==> Fills(pc, y)
    requires m' == m.(linked := m.linked + {pcs[p].b})
    ensures Duty(m', pcs[p := pc])
  {
    ReadersContinue(m.reader, m.out, m.read, pcs, p, pc);
    HoldersContinue(m.tok, pcs, p, pc);
    LinkDuty(m, pcs, p, pcs[p].b, pc);
  }

  lemma ClaimedDuty(m: Mem, m': Mem, pcs: seq<Pc>, p: nat, t: Pos, mark: bool, pc: Pc)
    requires Duty(m, pcs) && p < |pcs| && pcs[p].QCas? && Reading(pc) == Some(t)
    requires OutInv(m.out, m.written, m.reader, m.log) && t !in m.reader
    requires m' == Claim(m, p, t, mark)
    ensures Duty(m', pcs[p := pc])
  {
    WritersContinue(m, pcs, p, pc);
    HoldersContinue(m.tok, pcs, p, pc);
    ClaimDuty(m, pcs, p, t, pc);
  }

  lemma TakenDuty(m: Mem, m': Mem, pcs: seq<Pc>, p: nat, t: Pos, b: nat, pc: Pc)
    requires Duty(m, pcs) && p < |pcs| && pcs[p] == QRead(t, b) && ReadReady(m, p, t, b) && t in m.cells
    requires pc == if t.i + 1 == BLOCK_CAP then QDestroy(b, 0) else QMark(t, b)
    requires m' == TakeAt(m, p, t, b)
    ensures Duty(m', pcs[p := pc])
  {
    WritersContinue(m, pcs, p, pc);
    TakeDuty(m, pcs, p, t, m.cells[t], pc);
    HoldersContinue(m.tok, pcs, p, pc);
    if t.i == 30 { TokenDuty(m.tok, pcs, p, b, Held(p, 0), pc); }
  }

  lemma ReadDuty(m: Mem, m': Mem, pcs: seq<Pc>, p: nat, t: Pos, b: nat, pc: Pc)
    requires Duty(m, pcs) && p < |pcs| && pcs[p] == QMark(t, b)
    requires pc == if t in m.doomed then QDestroy(b, t.i + 1) else QRet
    requires m' == SetReadBit(m, p, t, b)
    ensures Duty(m', pcs[p := pc])
  {
    WritersContinue(m, pcs, p, pc);
    SetReadDuty(m, pcs, p, t, pc);
    HoldersContinue(m.tok, pcs, p, pc);
    if t in m.doomed { TokenDuty(m.tok, pcs, p, b, Held(p, t.i + 1), pc); }
  }

  lemma DestroyDuty(m: Mem, m': Mem, pcs: seq<Pc>, p: nat, b: nat, tk: Token, pc: Pc)
    requires Duty(m, pcs) && p < |pcs| && Holding(pcs[p]).Some? && Holding(pcs[p]).value.b == b
    requires m' == m.(tok := m.tok[b := tk], freed := m'.freed, doomed := m'.doomed)
    requires tk.Held? ==> tk.p == p && Holding(pc) == Some(Pos(b, tk.i))
    ensures Duty(m', pcs[p := pc])
  {
    WritersContinue(m, pcs, p, pc);
    ReadersContinue(m.reader, m.out, m.read, pcs, p, pc);
    TokenDuty(m.tok, pcs, p, b, tk, pc);
  }

  // ---------- every action ----------

  lemma DutySame(m: Mem, m': Mem, pcs: seq<Pc>, p: nat, pc: Pc)
    requires Duty(m, pcs) && p < |pcs| && Continues(pcs[p], pc)
    requires m' == m'.(reader := m.reader, out := m.out, read := m.read, tok := m.tok, log := m.log, writer := m.writer,
                       written := m.written, linked := m.linked)
    ensures Duty(m', pcs[p := pc])
  {
    DutyContinues(m, pcs, p, pc);
  }

  lemma DutyRoutine(m: Mem, m': Mem, pcs: seq<Pc>, p: nat, pc: Pc, spurious: bool)
    requires Duty(m, pcs) && p < |pcs| && Routine(pcs[p]) && Continues(pcs[p], pc)
    requires Sane(m, pcs[p]) && m' == MemAfter(m, p, pcs[p], spurious)
    ensures Duty(m', pcs[p := pc])
  {
    RoutineMem(m, p, pcs[p], spurious);
    DutySame(m, m', pcs, p, pc);
  }

  /** Before its CAS a thread has no work to do. */
  lemma NothingToContinue(pc: Pc, pc': Pc)
    requires pc == Idle || pc.PCas? || pc.QCas?
    ensures Continues(pc, pc')
  {
  }

  lemma LookContinues(m: Mem, pc: Pc)
    requires pc.QDestroy? && pc.i <= 30 && !(pc.i < BLOCK_CAP - 1 && Pos(pc.b, pc.i) in m.read)
    ensures Continues(pc, AfterDestroyLook(m, pc))
  {
  }

  /** The facts of a reservation that its duties need. */
  lemma CasFacts(m: Mem, p: nat, pc: Pc, spurious: bool)
    requires PushInv(m, p, pc) && Reserves(m, pc, spurious) && Sane(m, pc)
    ensures var pc' := AfterCas(m, pc, spurious);
            && m.tail.i + pc.n <= BLOCK_CAP && (forall x :: InSpan(x, m.tail, pc.n) ==> Fills(pc', x))
            && (m.tail.i + pc.n == BLOCK_CAP ==> WillLink(pc', m.tail.b))
  {
    PushPoint(m, p, pc);
  }

  lemma DutyCas(m: Mem, m': Mem, pcs: seq<Pc>, p: nat, spurious: bool)
    requires LogInv(m.tail, m.log, m.writer) && Duty(m, pcs) && p < |pcs| && pcs[p].PCas? && Sane(m, pcs[p])
    requires PushInv(m, p, pcs[p]) && m' == MemAfter(m, p, pcs[p], spurious)
    ensures Duty(m', pcs[p := AfterCas(m, pcs[p], spurious)])
  {
    var pc' := AfterCas(m, pcs[p], spurious);
    if Reserves(m, pcs[p], spurious) {
      CasFacts(m, p, pcs[p], spurious);
      ReservedDuty(m, m', pcs, p, pc');
    } else {
      NothingToContinue(pcs[p], pc');
      DutyContinues(m, pcs, p, pc');
    }
  }

  lemma DutyMark(m: Mem, m': Mem, pcs: seq<Pc>, p: nat, spurious: bool)
    requires Duty(m, pcs) && p < |pcs| && pcs[p].PMark? && PushInv(m, p, pcs[p])
             && m' == MemAfter(m, p, pcs[p], spurious)
    ensures Duty(m', pcs[p := AfterMark(pcs[p])])
  {
    PushPoint(m, p, pcs[p]);
    WrittenDuty(m, m', pcs, p, AfterMark(pcs[p]));
  }

  lemma DutyLink(m: Mem, m': Mem, pcs: seq<Pc>, p: nat, spurious: bool)
    requires Duty(m, pcs) && p < |pcs| && pcs[p].PLink? && PushInv(m, p, pcs[p])
             && m' == MemAfter(m, p, pcs[p], spurious)
    ensures Duty(m', pcs[p := AfterLink(pcs[p])])
  {
    PushPoint(m, p, pcs[p]);
    LinkedDuty(m, m', pcs, p, AfterLink(pcs[p]));
  }

  lemma DutyPush(m: Mem, m': Mem, pcs: seq<Pc>, p: nat, spurious: bool)
    requires LogInv(m.tail, m.log, m.writer) && Duty(m, pcs) && p < |pcs| && PushInv(m, p, pcs[p])
    requires InPush(pcs[p]) && Sane(m, pcs[p]) && m' == MemAfter(m, p, pcs[p], spurious)
    ensures Duty(m', pcs[p := PushPc(m, pcs[p], spurious)])
  {
    if pcs[p].PCas? { DutyCas(m, m', pcs, p, spurious); }
    else if pcs[p].PMark? { DutyMark(m, m', pcs, p, spurious); }
    else if pcs[p].PLink? { DutyLink(m, m', pcs, p, spurious); }
    else {
      RoutinePush(m, p, pcs[p], spurious);
      DutyRoutine(m, m', pcs, p, PushPc(m, pcs[p], spurious), spurious);
    }
  }

  lemma DutyClaim(m: Mem, m': Mem, pcs: seq<Pc>, p: nat, spurious: bool)
    requires OutInv(m.out, m.written, m.reader, m.log) && m.head !in m.reader
    requires Duty(m, pcs) && p < |pcs| && pcs[p].QCas? && m' == MemAfter(m, p, pcs[p], spurious)
    ensures Duty(m', pcs[p := AfterClaim(m, pcs[p], spurious)])
  {
    var pc, pc' := pcs[p], AfterClaim(m, pcs[p], spurious);
    if Claims(m, pc, spurious) { ClaimedDuty(m, m', pcs, p, pc.t, pc.nextMark, pc'); }
    else {
      NothingToContinue(pc, pc');
      DutyContinues(m, pcs, p, pc');
    }
  }

  lemma DutyTake(m: Mem, m': Mem, pcs: seq<Pc>, p: nat, spurious: bool)
    requires Duty(m, pcs) && p < |pcs| && Acts(m, p, pcs[p]) && m' == MemAfter(m, p, pcs[p], spurious)
    requires pcs[p].QRead? || pcs[p].QMark?
    ensures Duty(m', pcs[p := PopPc(m, pcs[p], spurious)])
  {
    var pc' := PopPc(m, pcs[p], spurious);
    match pcs[p]
    case QRead(t, b) => TakenDuty(m, m', pcs, p, t, b, pc');
    case QMark(t, b) => ReadDuty(m, m', pcs, p, t, b, pc');
  }

  lemma DutyAdvance(m: Mem, m': Mem, pcs: seq<Pc>, p: nat, b: nat, i: nat)
    requires Duty(m, pcs) && p < |pcs| && pcs[p] == QDestroy(b, i) && m' == m.(tok := m.tok[b := Held(p, i + 1)])
    ensures Duty(m', pcs[p := QDestroy(b, i + 1)])
  {
    DestroyDuty(m, m', pcs, p, b, Held(p, i + 1), QDestroy(b, i + 1));
  }

  lemma DutyLook(m: Mem, m': Mem, pcs: seq<Pc>, p: nat, spurious: bool)
    requires Duty(m, pcs) && p < |pcs| && pcs[p].QDestroy? && pcs[p].i <= 30 && m' == MemAfter(m, p, pcs[p], spurious)
    ensures Duty(m', pcs[p := AfterDestroyLook(m, pcs[p])])
  {
    var pc := pcs[p];
    if pc.i < BLOCK_CAP - 1 && Pos(pc.b, pc.i) in m.read { DutyAdvance(m, m', pcs, p, pc.b, pc.i); }
    else {
      LookContinues(m, pc);
      DutyContinues(m, pcs, p, AfterDestroyLook(m, pc));
    }
  }

  lemma DutyDestroy(m: Mem, m': Mem, pcs: seq<Pc>, p: nat, spurious: bool)
    requires Duty(m, pcs) && p < |pcs| && (pcs[p].QOr? || pcs[p].QFree?) && m' == MemAfter(m, p, pcs[p], spurious)
    ensures Duty(m', pcs[p := PopPc(m, pcs[p], spurious)])
  {
    var pc' := PopPc(m, pcs[p], spurious);
    match pcs[p]
    case QOr(b, _) => DestroyDuty(m, m', pcs, p, b, m'.tok[b], pc');
    case QFree(b) => DestroyDuty(m, m', pcs, p, b, Gone, pc');
  }

  lemma DutyPop(m: Mem, m': Mem, pcs: seq<Pc>, p: nat, spurious: bool)
    requires OutInv(m.out, m.written, m.reader, m.log) && ReaderInv(m.head, m.reader)
    requires Duty(m, pcs) && p < |pcs| && Acts(m, p, pcs[p]) && !InPush(pcs[p]) && (pcs[p].QDestroy? ==> pcs[p].i <= 30)
    requires m' == MemAfter(m, p, pcs[p], spurious)
    ensures Duty(m', pcs[p := PopPc(m, pcs[p], spurious)])
  {
    if pcs[p].QCas? { DutyClaim(m, m', pcs, p, spurious); }
    else if pcs[p].QRead? || pcs[p].QMark? { DutyTake(m, m', pcs, p, spurious); }
    else if pcs[p].QDestroy? { DutyLook(m, m', pcs, p, spurious); }
    else if pcs[p].QOr? || pcs[p].QFree? { DutyDestroy(m, m', pcs, p, spurious); }
    else {
      RoutinePop(m, pcs[p], spurious);
      DutyRoutine(m, m', pcs, p, PopPc(m, pcs[p], spurious), spurious);
    }
  }

  lemma DestroyerFacts(m: Mem, p: nat, pc: Pc)
    requires TokensInv(m.tok, m.read, m.doomed, m.freed) && PopInv(m, p, pc) && pc.QDestroy?
    ensures pc.i <= 30
  {
    PopPoint(m, p, pc);
    assert TokenInv(pc.b, m.tok[pc.b], m.read, m.doomed, m.freed);
  }

  lemma DutyGo(m: Mem, m': Mem, pcs: seq<Pc>, p: nat, spurious: bool)
    requires MemInv(m) && p < |pcs| && ThreadInv(m, p, pcs[p]) && Duty(m, pcs) && Sane(m, pcs[p])
    requires m' == MemAfter(m, p, pcs[p], spurious)
    ensures Duty(m', pcs[p := PcAfter(m, pcs[p], spurious)])
  {
    MayAct(m, p, pcs[p]);
    if InPush(pcs[p]) { DutyPush(m, m', pcs, p, spurious); }
    else {
      if pcs[p].QDestroy? { DestroyerFacts(m, p, pcs[p]); }
      DutyPop(m, m', pcs, p, spurious);
    }
  }

  /** Unfinished work has a thread that does it, after every action. */
  lemma DutyStep(s: State, a: Action)
    requires Inv(s) && Enabled(s, a) && Duty(s.m, s.pcs) && Sane(s.m, s.pcs[a.p])
    ensures Duty(Apply(s, a).m, Apply(s, a).pcs)
  {
    var t := Apply(s, a);
    if a.Go? {
      assert ThreadInv(s.m, a.p, s.pcs[a.p]);
      DutyGo(s.m, t.m, s.pcs, a.p, a.spurious);
    } else {
      NothingToContinue(Idle, t.pcs[a.p]);
      DutySame(s.m, t.m, s.pcs, a.p, t.pcs[a.p]);
    }
  }

  lemma InitDuty(threads: nat)
    ensures Duty(Initial(threads).m, Initial(threads).pcs)
  {
  }

  lemma DutyNext(s: State, t: State)
    requires Inv(s) && Duty(s.m, s.pcs) && Next(s, t)
    ensures Duty(t.m, t.pcs)
  {
    var a :| Enabled(s, a) && Sane(s.m, s.pcs[a.p]) && t == Apply(s, a);
    DutyStep(s, a);
  }
}
