/**
 The inductive invariant of the unbounded queue, and that every action keeps it.
 */
module UnboundedInv {
  import opened Basics
  import opened Unbounded

  // ---------- the inductive invariant: memory ----------

  /** The block pointers follow the indices; across a block end they may be one ahead. */
  predicate PointerInv(index: Pos, ob: Option<nat>) {
    && index.i <= BLOCK_CAP
    && match ob
       case None => index == Pos(0, 0)
       case Some(b) => b == index.b || (index.i == BLOCK_CAP && b == index.b + 1)
  }

  predicate IndexInv(head: Pos, headMark: bool, tail: Pos, headBlock: Option<nat>, tailBlock: Option<nat>) {
    && UpTo(head, tail)
    && (headMark ==> head.b < tail.b)
    && PointerInv(head, headBlock) && PointerInv(tail, tailBlock)
    && (tailBlock.None? ==> headBlock.None?)
  }

  /** Exactly the slots before the tail are reserved. */
  ghost predicate LogInv(tail: Pos, log: map<Pos, Value>, writer: map<Pos, nat>) {
    && (forall x :: x in log <==> Before(x, tail) && IsSlot(x))
    && (forall x :: x in log <==> x in writer)
  }

  /** Exactly the slots before the head are claimed. */
  ghost predicate ReaderInv(head: Pos, reader: map<Pos, nat>) {
    forall x :: x in reader <==> Before(x, head) && IsSlot(x)
  }

  /** A written slot holds its value until it is read out. */
  ghost predicate WrittenInv(written: set<Pos>, log: map<Pos, Value>, out: map<Pos, Value>, cells: map<Pos, Value>) {
    forall x :: x in written ==> x in log && (x in out || (x in cells && cells[x] == log[x]))
  }

  ghost predicate OutInv(out: map<Pos, Value>, written: set<Pos>, reader: map<Pos, nat>, log: map<Pos, Value>) {
    forall x :: x in out ==> x in written && x in reader && x in log && out[x] == log[x]
  }

  ghost predicate ReadInv(read: set<Pos>, out: map<Pos, Value>) {
    forall x :: x in read ==> x in out
  }

  ghost predicate LinksInv(linked: set<nat>, tail: Pos) {
    forall b :: b in linked ==> b < tail.b
  }

  /** All slots of block b before slot i have been read. */
  ghost predicate ReadUpTo(read: set<Pos>, b: nat, i: nat) {
    forall j: nat :: j < i ==> Pos(b, j) in read
  }

  ghost predicate TokenInv(b: nat, tk: Token, read: set<Pos>, doomed: set<Pos>, freed: set<nat>) {
    match tk
    case Held(_, i) => i <= 30 && ReadUpTo(read, b, i) && b !in freed
    case Left(i) => i < 30 && ReadUpTo(read, b, i) && Pos(b, i) in doomed && Pos(b, i) !in read && b !in freed
    case Gone => ReadUpTo(read, b, 30) && b in freed
  }

  ghost predicate TokensInv(tok: map<nat, Token>, read: set<Pos>, doomed: set<Pos>, freed: set<nat>) {
    && (forall b :: b in tok ==> TokenInv(b, tok[b], read, doomed, freed))
    && (forall b :: b in freed ==> b in tok)
    && (forall x :: x in doomed && x !in read ==> x.b in tok && tok[x.b] == Left(x.i))
  }

  /** The destruction of a block starts when its last slot was read, after the link. */
  ghost predicate StartedInv(tok: map<nat, Token>, linked: set<nat>, out: map<Pos, Value>) {
    && (forall b :: b in tok ==> b in linked && Pos(b, 30) in out)
    && (forall x :: x in out && x.i == 30 ==> x.b in tok)
  }

  ghost predicate MemInv(m: Mem) {
    && IndexInv(m.head, m.headMark, m.tail, m.headBlock, m.tailBlock)
    && LogInv(m.tail, m.log, m.writer) && ReaderInv(m.head, m.reader)
    && WrittenInv(m.written, m.log, m.out, m.cells) && OutInv(m.out, m.written, m.reader, m.log)
    && ReadInv(m.read, m.out) && LinksInv(m.linked, m.tail)
    && TokensInv(m.tok, m.read, m.doomed, m.freed) && StartedInv(m.tok, m.linked, m.out)
  }

  // ---------- the inductive invariant: threads ----------

  /** The stage and the iterator of a call. */
  predicate StageInv(c: Call) {
    && c.written <= c.pulled <= |c.items| && c.pulled <= c.len
    && c.start <= |c.stage| <= Min(BLOCK_CAP, c.pulled) && |c.stage| - c.start == c.pulled - c.written
    && (forall j :: 0 <= j < |c.stage| ==> c.stage[j] == c.items[c.pulled - |c.stage| + j])
    && (!c.batch ==> |c.items| == c.len == c.pulled == 1)
  }

  /** The slots of the first items of a call, in queue order. */
  ghost predicate SpotsInv(log: map<Pos, Value>, items: seq<Value>, spots: seq<Pos>) {
    && |spots| <= |items|
    && (forall i :: 0 <= i < |spots| ==> spots[i] in log && log[spots[i]] == items[i])
    && (forall i, j :: 0 <= i < j < |spots| ==> Before(spots[i], spots[j]))
  }

  /** The stage of a call, and what it has enqueued so far. */
  ghost predicate CallInv(log: map<Pos, Value>, c: Call) {
    StageInv(c) && |c.spots| == c.written && SpotsInv(log, c.items, c.spots)
  }

  /** A call with a segment of n staged items planned for t. */
  ghost predicate Planned(log: map<Pos, Value>, c: Call, spare: bool, t: Pos, n: nat) {
    && CallInv(log, c) && 1 <= n <= |c.stage| - c.start && t.i + n <= BLOCK_CAP
    && (!c.batch ==> n == 1) && (t.i + n == BLOCK_CAP ==> spare)
  }

  /** Thread p reserved the n slots from t on and has not written them. */
  ghost predicate Owes(log: map<Pos, Value>, writer: map<Pos, nat>, written: set<Pos>, p: nat, t: Pos, n: nat) {
    forall x :: InSpan(x, t, n) ==> x in log && x in writer && writer[x] == p && x !in written
  }

  /** The last n of a call's spots are the slots from t on. */
  ghost predicate Segment(log: map<Pos, Value>, c: Call, t: Pos, b: nat, n: nat) {
    && CallInv(log, c) && 1 <= n <= c.start && b == t.b && t.i + n <= BLOCK_CAP && (!c.batch ==> n == 1)
    && forall i :: c.written - n <= i < c.written ==> c.spots[i] == Plus(t, i - (c.written - n))
  }

  /** Thread p filled block b up and has still to link the next one. */
  ghost predicate Linking(linked: set<nat>, log: map<Pos, Value>, writer: map<Pos, nat>, p: nat, b: nat) {
    b !in linked && Pos(b, 30) in log && Pos(b, 30) in writer && writer[Pos(b, 30)] == p
  }

  /** push_n fills its segment before it links; push links first. */
  ghost predicate LinksLater(m: Mem, p: nat, c: Call, t: Pos, b: nat, n: nat) {
    c.batch && t.i + n == BLOCK_CAP ==>
      Linking(m.linked, m.log, m.writer, p, b) && m.tail == Pos(b, 31) && m.tailBlock == Some(b)
  }

  /** A loaded tail block is the block of the loaded index, unless the tail moved on. */
  predicate TailSnapshot(tail: Pos, t: Pos, ob: Option<nat>) {
    UpTo(t, tail) && t.i <= BLOCK_CAP && (ob.Some? && t == tail && IsSlot(t) ==> ob.value == t.b)
  }

  predicate HeadSnapshot(m: Mem, t: Pos, mark: bool, ob: Option<nat>) {
    && UpTo(t, m.head) && t.i <= BLOCK_CAP && (mark ==> t.b < m.tail.b)
    && (ob.Some? ==> m.headBlock.Some?)
    && (ob.Some? && t == m.head && IsSlot(t) ==> ob.value == t.b)
  }

  /** Thread p claimed slot t of block b and has not read it. */
  predicate Claimed(m: Mem, p: nat, t: Pos, b: nat) {
    t in m.reader && m.reader[t] == p && b == t.b && IsSlot(t) && t !in m.out
  }

  /** Thread p claimed the last slot of block b and moves the head to the next block. */
  predicate Moving(m: Mem, p: nat, t: Pos, b: nat) {
    Claimed(m, p, t, b) && t.i == 30 && m.head == Pos(b, 31)
  }

  /** And has already moved the block pointer. */
  predicate Moved(m: Mem, p: nat, t: Pos, b: nat, nextMark: bool) {
    Moving(m, p, t, b) && m.headBlock == Some(b + 1) && b in m.linked && (nextMark ==> b + 1 < m.tail.b)
  }

  predicate ReadReady(m: Mem, p: nat, t: Pos, b: nat) {
    Claimed(m, p, t, b) && (t.i == 30 ==> b in m.linked) && t in m.written
  }

  /** Thread p read slot t out and has not set its READ bit. */
  predicate TakenOut(m: Mem, p: nat, t: Pos, b: nat) {
    t in m.reader && m.reader[t] == p && b == t.b && t.i < 30 && t in m.out && t !in m.read
  }

  predicate Holds(tok: map<nat, Token>, p: nat, b: nat, i: nat) {
    b in tok && tok[b] == Held(p, i)
  }

  /** What thread p relies on at a point of push or push_n. */
  ghost predicate PushFacts(m: Mem, p: nat, pc: Pc) {
    match pc
    case PLoad(c, _) => CallInv(m.log, c) && c.written < c.len
    case PBlock(c, _, t, closed) =>
      CallInv(m.log, c) && c.written < c.len && TailSnapshot(m.tail, t, None) && (closed ==> m.closed)
    case PPlan(c, _, t, closed, ob) =>
      && CallInv(m.log, c) && c.written < c.len && TailSnapshot(m.tail, t, ob) && (ob.Some? ==> m.tailBlock.Some?)
      && (closed ==> m.closed)
    case PInstall(c, spare, t, n) => Planned(m.log, c, spare, t, n) && UpTo(t, m.tail)
    case PHeadBlock(c, spare, t, n) =>
      && Planned(m.log, c, spare, t, n) && t == Pos(0, 0)
      && m.installer == Some(p) && m.headBlock.None? && m.tailBlock.Some?
    case PCas(c, spare, t, b, n) =>
      Planned(m.log, c, spare, t, n) && TailSnapshot(m.tail, t, Some(b)) && m.tailBlock.Some?
    case PFill(c, spare, t, b, n, k) =>
      && Segment(m.log, c, t, b, n) && k < n && Owes(m.log, m.writer, m.written, p, Plus(t, k), n - k)
      && LinksLater(m, p, c, t, b, n)
    case PMark(c, spare, t, b, n, k) =>
      && Segment(m.log, c, t, b, n) && k < n && Owes(m.log, m.writer, m.written, p, Plus(t, k), n - k)
      && LinksLater(m, p, c, t, b, n)
      && Plus(t, k) in m.log && Plus(t, k) in m.cells && m.cells[Plus(t, k)] == m.log[Plus(t, k)]
    case PTailBlock(c, t, b, n) => LinkPending(m, p, c, t, b, n) && m.tail == Pos(b, 31) && m.tailBlock == Some(b)
    case PBump(c, t, b, n) => LinkPending(m, p, c, t, b, n) && m.tail == Pos(b, 31) && m.tailBlock == Some(b + 1)
    case PLink(c, t, b, n) => LinkPending(m, p, c, t, b, n) && b < m.tail.b
    case PRet(c) => CallInv(m.log, c) && (m.closed || c.written == Min(c.len, |c.items|))
    case _ => true
  }

  ghost predicate LinkPending(m: Mem, p: nat, c: Call, t: Pos, b: nat, n: nat) {
    && Segment(m.log, c, t, b, n) && t.i + n == BLOCK_CAP && Linking(m.linked, m.log, m.writer, p, b)
    && (!c.batch ==> Owes(m.log, m.writer, m.written, p, t, n))
  }

  /** And at a point of pop or len. */
  ghost predicate PopFacts(m: Mem, p: nat, pc: Pc) {
    match pc
    case QBlock(t, mark) => HeadSnapshot(m, t, mark, None)
    case QPlan(t, mark, ob) => HeadSnapshot(m, t, mark, ob)
    case QTail(t, ob) => HeadSnapshot(m, t, false, ob) && IsSlot(t)
    case QCas(t, mark, b, nextMark) =>
      HeadSnapshot(m, t, mark, Some(b)) && IsSlot(t) && Before(t, m.tail)
      && (nextMark ==> t.b < m.tail.b) && (mark ==> nextMark)
    case QNext(t, b) => Moving(m, p, t, b) && m.headBlock == Some(b)
    case QPeek(t, b) => Moving(m, p, t, b) && m.headBlock == Some(b) && b in m.linked
    case QHeadBlock(t, b, nextMark) =>
      Moving(m, p, t, b) && m.headBlock == Some(b) && b in m.linked && (nextMark ==> b + 1 < m.tail.b)
    case QHeadIndex(t, b, nextMark) => Moved(m, p, t, b, nextMark)
    case QWait(t, b) => Claimed(m, p, t, b) && (t.i == 30 ==> b in m.linked)
    case QRead(t, b) => ReadReady(m, p, t, b)
    case QMark(t, b) => TakenOut(m, p, t, b)
    case QDestroy(b, i) => Holds(m.tok, p, b, i)
    case QOr(b, i) => Holds(m.tok, p, b, i) && i < 30
    case QFree(b) => Holds(m.tok, p, b, 30)
    case NTail(t, _) => TailSnapshot(m.tail, t, None)
    case NHead(t, _, h, diff) => LenInv(m.tail, t, h, diff)
    case _ => true
  }

  /** If the tail is still where it was, diff is the number of tickets between h and it. */
  predicate LenInv(tail: Pos, t: Pos, h: Pos, diff: int) {
    && TailSnapshot(tail, t, None) && h.i <= BLOCK_CAP
    && (t == tail ==> UpTo(h, t) && diff == Ticket(t) - Ticket(h))
  }

  // The facts of all points make a long formula. The two invariants quantify over it, so that it
  // comes into a proof only where PushPoint or PopPoint is called.

  ghost predicate PushInv(m: Mem, p: nat, pc: Pc) {
    forall x :: x == pc ==> PushFacts(m, p, x)
  }

  ghost predicate PopInv(m: Mem, p: nat, pc: Pc) {
    forall x :: x == pc ==> PopFacts(m, p, x)
  }

  lemma PushPoint(m: Mem, p: nat, pc: Pc)
    requires PushInv(m, p, pc)
    ensures PushFacts(m, p, pc)
  {
  }

  lemma PopPoint(m: Mem, p: nat, pc: Pc)
    requires PopInv(m, p, pc)
    ensures PopFacts(m, p, pc)
  {
  }

  ghost predicate ThreadInv(m: Mem, p: nat, pc: Pc) {
    PushInv(m, p, pc) && PopInv(m, p, pc)
  }

  // ---------- each effect keeps the memory invariant ----------

  lemma ReserveLog(m: Mem, m': Mem, p: nat, c: Call, n: nat)
    requires LogInv(m.tail, m.log, m.writer) && m.tail.i + n <= BLOCK_CAP && c.start + n <= |c.stage|
    requires m' == Reserve(m, p, c, m.tail, n)
    ensures LogInv(m'.tail, m'.log, m'.writer) && Grows(m.log, m'.log)
  {
    assert forall x :: InSpan(x, m.tail, n) ==> x !in m.log;
  }

  lemma GrowMem(m: Mem, m': Mem, n: nat)
    requires MemInv(m) && 1 <= n && m.tail.i + n <= BLOCK_CAP && m.tailBlock.Some?
    requires m' == Grown(m, n, m'.tape, m'.log, m'.writer)
    requires LogInv(m'.tail, m'.log, m'.writer) && Grows(m.log, m'.log)
    ensures MemInv(m')
  {
    assert IndexInv(m'.head, m'.headMark, m'.tail, m'.headBlock, m'.tailBlock);
    assert WrittenInv(m'.written, m'.log, m'.out, m'.cells);
    assert OutInv(m'.out, m'.written, m'.reader, m'.log);
  }

  lemma ReserveMem(m: Mem, m': Mem, p: nat, c: Call, n: nat)
    requires MemInv(m) && 1 <= n && m.tail.i + n <= BLOCK_CAP && c.start + n <= |c.stage| && m.tailBlock.Some?
    requires m' == Reserve(m, p, c, m.tail, n)
    ensures MemInv(m')
  {
    ReserveLog(m, m', p, c, n);
    GrowMem(m, m', n);
  }

  lemma BumpMem(m: Mem, m': Mem, b: nat)
    requires MemInv(m) && m.tail == Pos(b, 31) && m.tailBlock == Some(b + 1)
    requires m' == m.(tail := Pos(b + 1, 0))
    ensures MemInv(m')
  {
  }

  lemma ClaimMem(m: Mem, m': Mem, p: nat, t: Pos, mark: bool)
    requires MemInv(m) && t == m.head && IsSlot(t) && Before(t, m.tail) && (mark ==> t.b < m.tail.b)
             && m.headBlock.Some?
    requires m' == Claim(m, p, t, mark)
    ensures MemInv(m')
  {
  }

  lemma MoveHeadMem(m: Mem, m': Mem, p: nat, t: Pos, b: nat, mark: bool)
    requires MemInv(m) && Moved(m, p, t, b, mark)
    requires m' == m.(head := Pos(t.b + 1, 0), headMark := mark)
    ensures MemInv(m')
  {
  }

  lemma SetWriteMem(m: Mem, m': Mem, x: Pos)
    requires MemInv(m) && x in m.log && x in m.cells && m.cells[x] == m.log[x]
    requires m' == m.(written := m.written + {x})
    ensures MemInv(m')
  {
  }

  lemma WriteMem(m: Mem, m': Mem, x: Pos, v: Value)
    requires MemInv(m) && x !in m.written
    requires m' == m.(cells := m.cells[x := v])
    ensures MemInv(m')
  {
  }

  lemma LinkMem(m: Mem, m': Mem, b: nat)
    requires MemInv(m) && b < m.tail.b
    requires m' == m.(linked := m.linked + {b})
    ensures MemInv(m')
  {
  }

  lemma StartTokens(tok: map<nat, Token>, read: set<Pos>, doomed: set<Pos>, freed: set<nat>, p: nat, b: nat)
    requires TokensInv(tok, read, doomed, freed) && b !in tok
    ensures TokensInv(tok[b := Held(p, 0)], read, doomed, freed)
  {
  }

  lemma TakeMem(m: Mem, m': Mem, p: nat, t: Pos, b: nat)
    requires MemInv(m) && ReadReady(m, p, t, b) && t in m.cells && m' == TakeAt(m, p, t, b)
    ensures MemInv(m')
  {
    assert WrittenInv(m'.written, m'.log, m'.out, m'.cells);
    assert OutInv(m'.out, m'.written, m'.reader, m'.log);
    if t.i == 30 {
      assert b !in m.tok;
      StartTokens(m.tok, m.read, m.doomed, m.freed, p, b);
    }
    assert StartedInv(m'.tok, m'.linked, m'.out);
  }

  lemma ReadTokens(tok: map<nat, Token>, read: set<Pos>, doomed: set<Pos>, freed: set<nat>, t: Pos)
    requires TokensInv(tok, read, doomed, freed) && t !in doomed
    ensures TokensInv(tok, read + {t}, doomed, freed)
  {
  }

  lemma InheritTokens(tok: map<nat, Token>, read: set<Pos>, doomed: set<Pos>, freed: set<nat>, p: nat, t: Pos)
    requires TokensInv(tok, read, doomed, freed) && t in doomed && t !in read && t.i < 30
    ensures t.b in tok && TokensInv(tok[t.b := Held(p, t.i + 1)], read + {t}, doomed, freed)
  {
    var tok' := tok[t.b := Held(p, t.i + 1)];
    assert TokenInv(t.b, tok[t.b], read, doomed, freed);
    forall b | b in tok' ensures TokenInv(b, tok'[b], read + {t}, doomed, freed) {
      if b != t.b { assert TokenInv(b, tok[b], read, doomed, freed); }
    }
  }

  lemma SetReadParts(m: Mem, m': Mem, p: nat, t: Pos, b: nat)
    requires TokensInv(m.tok, m.read, m.doomed, m.freed) && StartedInv(m.tok, m.linked, m.out) && ReadInv(m.read, m.out)
    requires TakenOut(m, p, t, b) && m' == SetReadBit(m, p, t, b)
    ensures TokensInv(m'.tok, m'.read, m'.doomed, m'.freed) && StartedInv(m'.tok, m'.linked, m'.out)
    ensures ReadInv(m'.read, m'.out)
  {
    if t in m.doomed { InheritTokens(m.tok, m.read, m.doomed, m.freed, p, t); }
    else { ReadTokens(m.tok, m.read, m.doomed, m.freed, t); }
  }

  lemma SetReadMem(m: Mem, m': Mem, p: nat, t: Pos, b: nat)
    requires MemInv(m) && TakenOut(m, p, t, b)
    requires m' == SetReadBit(m, p, t, b)
    ensures MemInv(m')
  {
    SetReadParts(m, m', p, t, b);
  }

  lemma AdvanceMem(m: Mem, m': Mem, p: nat, b: nat, i: nat)
    requires MemInv(m) && Holds(m.tok, p, b, i) && i < 30 && Pos(b, i) in m.read
    requires m' == m.(tok := m.tok[b := Held(p, i + 1)])
    ensures MemInv(m')
  {
  }

  lemma SetDestroyMem(m: Mem, m': Mem, p: nat, b: nat, i: nat)
    requires MemInv(m) && Holds(m.tok, p, b, i) && i < 30
    requires m' == SetDestroyBit(m, p, b, i)
    ensures MemInv(m')
  {
  }

  lemma FreeMem(m: Mem, m': Mem, p: nat, b: nat)
    requires MemInv(m) && Holds(m.tok, p, b, 30)
    requires m' == m.(freed := m.freed + {b}, tok := m.tok[b := Gone])
    ensures MemInv(m')
  {
  }

  lemma InstallMem(m: Mem, m': Mem, p: nat)
    requires MemInv(m) && m.tailBlock.None?
    requires m' == m.(tailBlock := Some(0), installer := Some(p))
    ensures MemInv(m')
  {
  }

  lemma HeadBlockMem(m: Mem, m': Mem)
    requires MemInv(m) && m.headBlock.None? && m.tailBlock.Some?
    requires m' == m.(headBlock := Some(0), installer := None)
    ensures MemInv(m')
  {
  }

  lemma TailBlockMem(m: Mem, m': Mem, b: nat)
    requires MemInv(m) && m.tail == Pos(b, 31) && m.tailBlock == Some(b)
    requires m' == m.(tailBlock := Some(b + 1))
    ensures MemInv(m')
  {
  }

  lemma MoveBlockMem(m: Mem, m': Mem, b: nat)
    requires MemInv(m) && m.head == Pos(b, 31) && m.headBlock == Some(b)
    requires m' == m.(headBlock := Some(b + 1))
    ensures MemInv(m')
  {
  }

  // ---------- and what every other thread relies on ----------

  /** No thread but p can tell the difference. */
  ghost predicate Kept(m: Mem, m': Mem, p: nat) {
    forall q: nat, qc :: q != p && ThreadInv(m, q, qc) ==> ThreadInv(m', q, qc)
  }

  lemma CallStays(log: map<Pos, Value>, log': map<Pos, Value>, c: Call)
    requires CallInv(log, c) && forall x :: x in log ==> x in log' && log'[x] == log[x]
    ensures CallInv(log', c)
  {
  }

  /** A map that only grew. */
  ghost predicate Grows<V>(f: map<Pos, V>, g: map<Pos, V>) {
    forall x :: x in f ==> x in g && g[x] == f[x]
  }

  function Grown(m: Mem, n: nat, tape: seq<Value>, log: map<Pos, Value>, writer: map<Pos, nat>): Mem {
    m.(tail := Plus(m.tail, n), tape := tape, log := log, writer := writer)
  }

  lemma GrowOwes(m: Mem, log: map<Pos, Value>, writer: map<Pos, nat>, p: nat, t: Pos, n: nat)
    requires Grows(m.log, log) && Grows(m.writer, writer) && Owes(m.log, m.writer, m.written, p, t, n)
    ensures Owes(log, writer, m.written, p, t, n)
  {
  }

  lemma GrowSegment(m: Mem, log: map<Pos, Value>, c: Call, t: Pos, b: nat, n: nat)
    requires Grows(m.log, log) && Segment(m.log, c, t, b, n)
    ensures Segment(log, c, t, b, n)
  {
    CallStays(m.log, log, c);
  }

  lemma GrowFilling(m: Mem, n: nat, tape: seq<Value>, log: map<Pos, Value>, writer: map<Pos, nat>, q: nat, pc: Pc)
    requires Grows(m.log, log) && Grows(m.writer, writer) && m.tail.i < BLOCK_CAP
    requires (pc.PFill? || pc.PMark?) && PushInv(m, q, pc)
    ensures PushInv(Grown(m, n, tape, log, writer), q, pc)
  {
    PushPoint(m, q, pc);
    GrowSegment(m, log, pc.c, pc.t, pc.b, pc.n);
    GrowOwes(m, log, writer, q, Plus(pc.t, pc.k), pc.n - pc.k);
  }

  lemma GrowLinking(m: Mem, n: nat, tape: seq<Value>, log: map<Pos, Value>, writer: map<Pos, nat>, q: nat, pc: Pc)
    requires Grows(m.log, log) && Grows(m.writer, writer) && m.tail.i < BLOCK_CAP
    requires (pc.PTailBlock? || pc.PBump? || pc.PLink?) && PushInv(m, q, pc)
    ensures PushInv(Grown(m, n, tape, log, writer), q, pc)
  {
    PushPoint(m, q, pc);
    assert pc.PLink?;
    GrowSegment(m, log, pc.c, pc.t, pc.b, pc.n);
    if !pc.c.batch { GrowOwes(m, log, writer, q, pc.t, pc.n); }
  }

  lemma GrowPlanning(m: Mem, n: nat, tape: seq<Value>, log: map<Pos, Value>, writer: map<Pos, nat>, q: nat, pc: Pc)
    requires Grows(m.log, log)
    requires (pc.PLoad? || pc.PBlock? || pc.PPlan? || pc.PInstall? || pc.PHeadBlock? || pc.PCas? || pc.PRet?)
             && PushInv(m, q, pc)
    ensures PushInv(Grown(m, n, tape, log, writer), q, pc)
  {
    PushPoint(m, q, pc);
    CallStays(m.log, log, pc.c);
  }

  lemma GrowPush(m: Mem, n: nat, tape: seq<Value>, log: map<Pos, Value>, writer: map<Pos, nat>, q: nat, pc: Pc)
    requires Grows(m.log, log) && Grows(m.writer, writer) && m.tail.i < BLOCK_CAP && PushInv(m, q, pc)
    ensures PushInv(Grown(m, n, tape, log, writer), q, pc)
  {
    PushPoint(m, q, pc);
    if pc.PFill? || pc.PMark? { GrowFilling(m, n, tape, log, writer, q, pc); }
    else if pc.PTailBlock? || pc.PBump? || pc.PLink? { GrowLinking(m, n, tape, log, writer, q, pc); }
    else if pc.PLoad? || pc.PBlock? || pc.PPlan? || pc.PInstall? || pc.PHeadBlock? || pc.PCas? || pc.PRet? {
      GrowPlanning(m, n, tape, log, writer, q, pc);
    }
  }

  lemma ReserveOtherPush(m: Mem, p: nat, c: Call, t: Pos, n: nat, q: nat, pc: Pc)
    requires LogInv(m.tail, m.log, m.writer) && t == m.tail && t.i < BLOCK_CAP && c.start + n <= |c.stage|
    requires PushInv(m, q, pc)
    ensures PushInv(Reserve(m, p, c, t, n), q, pc)
  {
    assert forall x :: InSpan(x, t, n) ==> x !in m.log;
    var m' := Reserve(m, p, c, t, n);
    assert Grows(m.log, m'.log);
    GrowPush(m, n, m'.tape, m'.log, m'.writer, q, pc);
  }

  lemma ReserveOtherPop(m: Mem, p: nat, c: Call, t: Pos, n: nat, q: nat, pc: Pc)
    requires t == m.tail && c.start + n <= |c.stage| && PopInv(m, q, pc)
    ensures PopInv(Reserve(m, p, c, t, n), q, pc)
  {
    PopPoint(m, q, pc);
  }

  lemma BumpOther(m: Mem, m': Mem, p: nat, b: nat)
    requires m.tail == Pos(b, 31) && m.tailBlock == Some(b + 1) && Linking(m.linked, m.log, m.writer, p, b)
    requires m' == m.(tail := Pos(b + 1, 0))
    ensures Kept(m, m', p)
  {
    forall q: nat, qc | q != p && ThreadInv(m, q, qc) ensures ThreadInv(m', q, qc) {
      PushPoint(m, q, qc);
      PopPoint(m, q, qc);
    }
  }

  lemma ClaimOther(m: Mem, m': Mem, p: nat, t: Pos, mark: bool)
    requires ReaderInv(m.head, m.reader) && t == m.head && IsSlot(t) && Before(t, m.tail)
    requires m' == Claim(m, p, t, mark)
    ensures Kept(m, m', p)
  {
    forall q: nat, qc | q != p && ThreadInv(m, q, qc) ensures ThreadInv(m', q, qc) {
      PushPoint(m, q, qc);
      PopPoint(m, q, qc);
    }
  }

  lemma MoveHeadOther(m: Mem, m': Mem, p: nat, t: Pos, b: nat, mark: bool)
    requires Moved(m, p, t, b, mark)
    requires m' == m.(head := Pos(t.b + 1, 0), headMark := mark)
    ensures Kept(m, m', p)
  {
    forall q: nat, qc | q != p && ThreadInv(m, q, qc) ensures ThreadInv(m', q, qc) {
      PushPoint(m, q, qc);
      PopPoint(m, q, qc);
    }
  }

  lemma SetWriteOther(m: Mem, p: nat, x: Pos, q: nat, pc: Pc)
    requires x in m.writer && m.writer[x] == p
    requires q != p && PushInv(m, q, pc)
    ensures PushInv(m.(written := m.written + {x}), q, pc)
  {
    PushPoint(m, q, pc);
  }

  lemma SetWriteOtherPop(m: Mem, x: Pos, q: nat, pc: Pc)
    requires PopInv(m, q, pc)
    ensures PopInv(m.(written := m.written + {x}), q, pc)
  {
    PopPoint(m, q, pc);
  }

  lemma WriteOther(m: Mem, m': Mem, p: nat, x: Pos, v: Value)
    requires x in m.writer && m.writer[x] == p
    requires m' == m.(cells := m.cells[x := v])
    ensures Kept(m, m', p)
  {
    forall q: nat, qc | q != p && ThreadInv(m, q, qc) ensures ThreadInv(m', q, qc) {
      PushPoint(m, q, qc);
      PopPoint(m, q, qc);
    }
  }

  lemma LinkOther(m: Mem, m': Mem, p: nat, b: nat)
    requires Linking(m.linked, m.log, m.writer, p, b)
    requires m' == m.(linked := m.linked + {b})
    ensures Kept(m, m', p)
  {
    forall q: nat, qc | q != p && ThreadInv(m, q, qc) ensures ThreadInv(m', q, qc) {
      PushPoint(m, q, qc);
      PopPoint(m, q, qc);
    }
  }

  lemma TakeOtherPush(m: Mem, p: nat, t: Pos, b: nat, q: nat, pc: Pc)
    requires t in m.cells && t in m.written && PushInv(m, q, pc)
    ensures PushInv(TakeAt(m, p, t, b), q, pc)
  {
    PushPoint(m, q, pc);
  }

  lemma TakeOtherPop(m: Mem, m': Mem, p: nat, t: Pos, q: nat, pc: Pc)
    requires m' == m.(cells := m'.cells, out := m'.out, tok := m'.tok) && t in m.reader && m.reader[t] == p
    requires (forall x :: x != t ==> (x in m'.out <==> x in m.out)) && t in m'.out
    requires forall b :: b in m.tok ==> b in m'.tok && m'.tok[b] == m.tok[b]
    requires q != p && PopInv(m, q, pc)
    ensures PopInv(m', q, pc)
  {
    PopPoint(m, q, pc);
  }

  lemma SetReadOtherPush(m: Mem, p: nat, t: Pos, b: nat, q: nat, pc: Pc)
    requires PushInv(m, q, pc)
    ensures PushInv(SetReadBit(m, p, t, b), q, pc)
  {
    PushPoint(m, q, pc);
  }

  lemma SetReadOtherPop(m: Mem, p: nat, t: Pos, b: nat, q: nat, pc: Pc)
    requires TokensInv(m.tok, m.read, m.doomed, m.freed) && TakenOut(m, p, t, b)
    requires q != p && PopInv(m, q, pc)
    ensures PopInv(SetReadBit(m, p, t, b), q, pc)
  {
    PopPoint(m, q, pc);
  }

  lemma TokenOther(m: Mem, m': Mem, p: nat, b: nat, i: nat, tk: Token, freed: set<nat>, doomed: set<Pos>)
    requires Holds(m.tok, p, b, i)
    requires m' == m.(tok := m.tok[b := tk], freed := freed, doomed := doomed)
    ensures Kept(m, m', p)
  {
    forall q: nat, qc | q != p && ThreadInv(m, q, qc) ensures ThreadInv(m', q, qc) {
      PushPoint(m, q, qc);
      PopPoint(m, q, qc);
    }
  }

  lemma InstallOther(m: Mem, m': Mem, p: nat)
    requires PointerInv(m.tail, m.tailBlock) && m.tailBlock.None?
    requires m' == m.(tailBlock := Some(0), installer := Some(p))
    ensures Kept(m, m', p)
  {
    forall q: nat, qc | q != p && ThreadInv(m, q, qc) ensures ThreadInv(m', q, qc) {
      PushPoint(m, q, qc);
      PopPoint(m, q, qc);
    }
  }

  lemma HeadBlockOther(m: Mem, m': Mem, p: nat)
    requires m.installer == Some(p) && m.headBlock.None?
    requires m' == m.(headBlock := Some(0), installer := None)
    ensures Kept(m, m', p)
  {
    forall q: nat, qc | q != p && ThreadInv(m, q, qc) ensures ThreadInv(m', q, qc) {
      PushPoint(m, q, qc);
      PopPoint(m, q, qc);
    }
  }

  lemma TailBlockOther(m: Mem, m': Mem, p: nat, b: nat)
    requires Linking(m.linked, m.log, m.writer, p, b) && m.tail == Pos(b, 31) && m.tailBlock == Some(b)
    requires m' == m.(tailBlock := Some(b + 1))
    ensures Kept(m, m', p)
  {
    forall q: nat, qc | q != p && ThreadInv(m, q, qc) ensures ThreadInv(m', q, qc) {
      PushPoint(m, q, qc);
      PopPoint(m, q, qc);
    }
  }

  lemma MoveBlockOther(m: Mem, m': Mem, p: nat, t: Pos, b: nat)
    requires Moving(m, p, t, b) && m.headBlock == Some(b)
    requires m' == m.(headBlock := Some(b + 1))
    ensures Kept(m, m', p)
  {
    forall q: nat, qc | q != p && ThreadInv(m, q, qc) ensures ThreadInv(m', q, qc) {
      PushPoint(m, q, qc);
      PopPoint(m, q, qc);
    }
  }

  lemma CloseOther(m: Mem, m': Mem, p: nat)
    requires m' == m.(closed := true)
    ensures Kept(m, m', p)
  {
    forall q: nat, qc | q != p && ThreadInv(m, q, qc) ensures ThreadInv(m', q, qc) {
      PushPoint(m, q, qc);
      PopPoint(m, q, qc);
    }
  }

  // ---------- the acting thread ----------

  lemma AlwaysSane(m: Mem, p: nat, pc: Pc)
    requires MemInv(m) && ThreadInv(m, p, pc)
    ensures Sane(m, pc)
  {
    PopPoint(m, p, pc);
    PushPoint(m, p, pc);
  }

  lemma RefillKeeps(log: map<Pos, Value>, c: Call, off: nat)
    requires CallInv(log, c) && off < BLOCK_CAP && c.written < c.len
    ensures CallInv(log, Refill(c, off)) && Refill(c, off).written == c.written && Refill(c, off).len == c.len
  {
  }

  lemma PlanSegment(log: map<Pos, Value>, c: Call, spare: bool, t: Pos)
    requires CallInv(log, c) && c.start < |c.stage| && t.i < BLOCK_CAP
    ensures var n := Min(|c.stage| - c.start, BLOCK_CAP - t.i);
            n >= 0 && Planned(log, c, spare || t.i + n == BLOCK_CAP, t, n)
  {
  }

  lemma OwnSegment(m: Mem, p: nat, pc: Pc, c: Call)
    requires pc.PPlan? && pc.t.i < BLOCK_CAP && CallInv(m.log, c) && c.start < |c.stage|
    requires TailSnapshot(m.tail, pc.t, pc.ob) && (pc.ob.Some? ==> m.tailBlock.Some?)
    ensures var n := Min(|c.stage| - c.start, BLOCK_CAP - pc.t.i);
            && n >= 0
            && (pc.ob.None? ==> PushInv(m, p, PInstall(c, pc.spare || pc.t.i + n == BLOCK_CAP, pc.t, n)))
            && (pc.ob.Some? ==> PushInv(m, p, PCas(c, pc.spare || pc.t.i + n == BLOCK_CAP, pc.t, pc.ob.value, n)))
  {
    PlanSegment(m.log, c, pc.spare, pc.t);
  }

  lemma EmptyRefill(c: Call, off: nat)
    requires StageInv(c) && off < BLOCK_CAP && c.written < c.len && Refill(c, off).start == |Refill(c, off).stage|
    ensures c.batch && Refill(c, off).written == Min(c.len, |c.items|) && Refill(c, off).items == c.items
            && Refill(c, off).len == c.len
  {
  }

  lemma OwnPlan(m: Mem, p: nat, pc: Pc)
    requires pc.PPlan? && PushInv(m, p, pc)
    ensures PushInv(m, p, AfterPlan(pc))
  {
    PushPoint(m, p, pc);
    if !pc.closed && pc.t.i < BLOCK_CAP {
      RefillKeeps(m.log, pc.c, pc.t.i);
      var c := Refill(pc.c, pc.t.i);
      if c.start < |c.stage| { OwnSegment(m, p, pc, c); } else { EmptyRefill(pc.c, pc.t.i); }
    }
  }

  lemma MoreSpotsHold(log: map<Pos, Value>, log': map<Pos, Value>, items: seq<Value>, spots: seq<Pos>, t: Pos, n: nat,
      i: nat)
    requires SpotsInv(log, items, spots) && Bound(log, log', items, |spots|, t, n) && i < |spots| + n
    ensures var x := if i < |spots| then spots[i] else Plus(t, i - |spots|); x in log' && log'[x] == items[i]
  {
    if i >= |spots| { assert InSpan(Plus(t, i - |spots|), t, n); }
  }

  lemma MoreSpotsOrdered(log: map<Pos, Value>, items: seq<Value>, spots: seq<Pos>, t: Pos, i: nat, j: nat)
    requires SpotsInv(log, items, spots) && (forall x :: x in log ==> Before(x, t)) && i < j
    ensures Before(if i < |spots| then spots[i] else Plus(t, i - |spots|),
                   if j < |spots| then spots[j] else Plus(t, j - |spots|))
  {
    if i < |spots| { assert spots[i] in log; }
  }

  /** The slots from t on hold the n items from the k-th on, in addition to what was in the log. */
  ghost predicate Bound(log: map<Pos, Value>, log': map<Pos, Value>, items: seq<Value>, k: nat, t: Pos, n: nat) {
    && Grows(log, log') && k + n <= |items|
    && forall x :: InSpan(x, t, n) ==> x in log' && log'[x] == items[k + x.i - t.i]
  }

  /** A reservation extends the spots of a call by n fresh slots that hold its next items. */
  lemma ExtendSpots(log: map<Pos, Value>, log': map<Pos, Value>, items: seq<Value>, spots: seq<Pos>, t: Pos, n: nat)
    requires SpotsInv(log, items, spots) && Bound(log, log', items, |spots|, t, n)
    requires forall x :: x in log ==> Before(x, t)
    ensures SpotsInv(log', items, spots + Span(t, n))
  {
    var more := spots + Span(t, n);
    forall i | 0 <= i < |more| ensures more[i] in log' && log'[more[i]] == items[i] {
      MoreSpotsHold(log, log', items, spots, t, n, i);
    }
    forall i, j | 0 <= i < j < |more| ensures Before(more[i], more[j]) {
      MoreSpotsOrdered(log, items, spots, t, i, j);
    }
  }

  lemma StageItem(c: Call, j: nat)
    requires StageInv(c) && c.start + j < |c.stage|
    ensures c.written + j < |c.items| && c.stage[c.start + j] == c.items[c.written + j]
  {
  }

  /** The next n staged items, from the k-th item on, are bound to the slots from t on. */
  lemma BoundLog(log: map<Pos, Value>, log': map<Pos, Value>, c: Call, k: nat, t: Pos, n: nat)
    requires StageInv(c) && c.start + n <= |c.stage| && k == c.written && (forall x :: x in log ==> Before(x, t))
    requires log' == Bind(log, t, c.stage[c.start..c.start + n])
    ensures Bound(log, log', c.items, k, t, n)
  {
    var vs := c.stage[c.start..c.start + n];
    forall x | InSpan(x, t, |vs|) ensures x in log' && log'[x] == c.items[k + x.i - t.i] {
      StageItem(c, x.i - t.i);
      assert log'[x] == vs[x.i - t.i];
    }
  }

  lemma ReservedStage(c: Call, t: Pos, n: nat)
    requires StageInv(c) && c.start + n <= |c.stage|
    ensures StageInv(Reserved(c, t, n))
  {
  }

  lemma ReservedCall(log: map<Pos, Value>, c: Call, spare: bool, t: Pos, n: nat)
    requires Planned(log, c, spare, t, n) && (forall x :: x in log ==> Before(x, t))
    ensures Segment(Bind(log, t, c.stage[c.start..c.start + n]), Reserved(c, t, n), t, t.b, n)
  {
    ReservedStage(c, t, n);
    var log' := Bind(log, t, c.stage[c.start..c.start + n]);
    BoundLog(log, log', c, |c.spots|, t, n);
    ExtendSpots(log, log', c.items, c.spots, t, n);
  }

  lemma ReservedOwes(m: Mem, p: nat, c: Call, t: Pos, n: nat)
    requires LogInv(m.tail, m.log, m.writer) && OutWritten(m.log, m.written) && t == m.tail && c.start + n <= |c.stage|
    ensures var m' := Reserve(m, p, c, t, n); Owes(m'.log, m'.writer, m'.written, p, t, n)
  {
    assert forall x :: InSpan(x, t, n) ==> x !in m.log;
  }

  ghost predicate OutWritten(log: map<Pos, Value>, written: set<Pos>) {
    forall x :: x in written ==> x in log
  }

  lemma ReservedLinking(m: Mem, p: nat, c: Call, t: Pos, n: nat)
    requires LinksInv(m.linked, m.tail) && t == m.tail && c.start + n <= |c.stage| && t.i + n == BLOCK_CAP && n >= 1
    ensures var m' := Reserve(m, p, c, t, n); Linking(m'.linked, m'.log, m'.writer, p, t.b) && m'.tail == Pos(t.b, 31)
  {
    assert InSpan(Pos(t.b, 30), t, n);
  }

  /** A call that has just reserved the n slots from t on. */
  ghost predicate MayFill(m: Mem, p: nat, c: Call, t: Pos, b: nat, n: nat) {
    && Segment(m.log, c, t, b, n) && Owes(m.log, m.writer, m.written, p, t, n)
    && (t.i + n == BLOCK_CAP ==>
          Linking(m.linked, m.log, m.writer, p, b) && m.tail == Pos(b, 31) && m.tailBlock == Some(b))
  }

  lemma OwnReserve(m: Mem, m': Mem, p: nat, c: Call, spare: bool, n: nat)
    requires LogInv(m.tail, m.log, m.writer) && LinksInv(m.linked, m.tail) && OutWritten(m.log, m.written)
    requires m.tailBlock == Some(m.tail.b) && Planned(m.log, c, spare, m.tail, n) && m' == Reserve(m, p, c, m.tail, n)
    ensures Segment(m'.log, Reserved(c, m.tail, n), m.tail, m.tail.b, n)
    ensures Owes(m'.log, m'.writer, m'.written, p, m.tail, n)
    ensures m.tail.i + n == BLOCK_CAP ==>
              Linking(m'.linked, m'.log, m'.writer, p, m.tail.b) && m'.tail == Pos(m.tail.b, 31)
                  && m'.tailBlock == Some(m.tail.b)
  {
    ReservedCall(m.log, c, spare, m.tail, n);
    ReservedOwes(m, p, c, m.tail, n);
    if m.tail.i + n == BLOCK_CAP { ReservedLinking(m, p, c, m.tail, n); }
  }

  /** It fills them, or (push, at a block end) links first. */
  lemma StartFilling(m: Mem, p: nat, c: Call, spare: bool, t: Pos, b: nat, n: nat)
    requires MayFill(m, p, c, t, b, n)
    ensures c.batch || t.i + 1 != BLOCK_CAP ==> PushInv(m, p, PFill(c, spare, t, b, n, 0))
    ensures !c.batch && t.i + 1 == BLOCK_CAP ==> PushInv(m, p, PTailBlock(c, t, b, n))
  {
    assert Plus(t, 0) == t;
  }

  lemma OwnWritten(m: Mem, p: nat, pc: Pc, spurious: bool)
    requires pc.PFill? && PushInv(m, p, pc)
    ensures Sane(m, pc)
    ensures PushInv(MemAfter(m, p, pc, spurious), p, PMark(pc.c, pc.spare, pc.t, pc.b, pc.n, pc.k))
  {
    PushPoint(m, p, pc);
    var x := Plus(pc.t, pc.k);
    assert InSpan(x, x, pc.n - pc.k);
    var i := pc.c.written - pc.n + pc.k;
    assert pc.c.spots[i] == x;
  }

  lemma SegmentEnd(m: Mem, c: Call, spare: bool, t: Pos, b: nat)
    requires CallInv(m.log, c) && TailSnapshot(m.tail, t, Some(b)) && m.tailBlock.Some? && b == t.b
             && (!c.batch ==> c.written == 1)
    ensures PushInv(m, 0, AfterSegment(c, spare, t, b))
  {
  }

  lemma MarkedOwes(m: Mem, p: nat, t: Pos, n: nat, k: nat)
    requires k + 1 < n && Owes(m.log, m.writer, m.written, p, Plus(t, k), n - k)
    ensures Owes(m.log, m.writer, m.written + {Plus(t, k)}, p, Plus(t, k + 1), n - (k + 1))
  {
  }

  lemma SegmentBehind(tail: Pos, log: map<Pos, Value>, writer: map<Pos, nat>, c: Call, t: Pos, b: nat, n: nat)
    requires LogInv(tail, log, writer) && Segment(log, c, t, b, n)
    ensures UpTo(Plus(t, n), tail) && tail != Pos(0, 0)
  {
    assert c.spots[c.written - 1] == Plus(t, n - 1);
    assert Plus(t, n - 1) in log;
  }

  lemma OwnNextSlot(m: Mem, m': Mem, p: nat, pc: Pc)
    requires pc.PMark? && PushInv(m, p, pc) && pc.k + 1 < pc.n && m' == m.(written := m.written + {Plus(pc.t, pc.k)})
    ensures PushInv(m', p, PFill(pc.c, pc.spare, pc.t, pc.b, pc.n, pc.k + 1))
  {
    PushPoint(m, p, pc);
    MarkedOwes(m, p, pc.t, pc.n, pc.k);
  }

  lemma OwnLastSlot(m: Mem, m': Mem, p: nat, pc: Pc)
    requires LogInv(m.tail, m.log, m.writer) && PointerInv(m.tail, m.tailBlock) && pc.PMark? && PushInv(m, p, pc)
             && pc.k + 1 >= pc.n
    requires m' == m.(written := m.written + {Plus(pc.t, pc.k)})
    ensures PushInv(m', p, AfterMark(pc))
  {
    PushPoint(m, p, pc);
    if !(pc.c.batch && pc.t.i + pc.n == BLOCK_CAP) {
      SegmentBehind(m.tail, m.log, m.writer, pc.c, pc.t, pc.b, pc.n);
      SegmentEnd(m', pc.c, pc.spare, Plus(pc.t, pc.n), pc.b);
    }
  }

  lemma OwnMarked(m: Mem, m': Mem, p: nat, pc: Pc)
    requires LogInv(m.tail, m.log, m.writer) && PointerInv(m.tail, m.tailBlock) && pc.PMark? && PushInv(m, p, pc)
    requires m' == m.(written := m.written + {Plus(pc.t, pc.k)})
    ensures PushInv(m', p, AfterMark(pc))
  {
    if pc.k + 1 < pc.n { OwnNextSlot(m, m', p, pc); } else { OwnLastSlot(m, m', p, pc); }
  }

  lemma OwnLink(m: Mem, p: nat, pc: Pc)
    requires PointerInv(m.tail, m.tailBlock) && pc.PLink? && PushInv(m, p, pc)
    ensures PushInv(m.(linked := m.linked + {pc.b}), p, AfterLink(pc))
  {
    PushPoint(m, p, pc);
    var m' := m.(linked := m.linked + {pc.b});
    if pc.c.batch { SegmentEnd(m', pc.c, false, Pos(pc.b + 1, 0), pc.b + 1); }
  }

  lemma OwnLook(m: Mem, p: nat, pc: Pc)
    requires PointerInv(m.tail, m.tailBlock) && PushInv(m, p, pc) && (pc.PLoad? || pc.PBlock? || pc.PPlan?)
    ensures PushInv(m, p, PushPc(m, pc, false))
  {
    PushPoint(m, p, pc);
    if pc.PPlan? { OwnPlan(m, p, pc); }
  }

  lemma OwnPointers(m: Mem, m': Mem, p: nat, pc: Pc, spurious: bool)
    requires PointerInv(m.tail, m.tailBlock) && PointerInv(m.head, m.headBlock)
             && (m.tailBlock.None? ==> m.headBlock.None?)
    requires PushInv(m, p, pc) && (pc.PInstall? || pc.PHeadBlock? || pc.PTailBlock? || pc.PBump?)
    requires m' == MemAfter(m, p, pc, spurious)
    ensures PushInv(m', p, PushPc(m, pc, spurious))
  {
    PushPoint(m, p, pc);
  }

  lemma OwnReserving(m: Mem, m': Mem, p: nat, pc: Pc, pc': Pc)
    requires LogInv(m.tail, m.log, m.writer) && LinksInv(m.linked, m.tail) && OutWritten(m.log, m.written)
    requires pc.PCas? && Planned(m.log, pc.c, pc.spare, pc.t, pc.n) && pc.t == m.tail && pc.b == pc.t.b
    requires m.tailBlock == Some(pc.b) && m' == Reserve(m, p, pc.c, m.tail, pc.n)
    requires !m.closed && pc' == AfterCas(m, pc, false)
    ensures PushInv(m', p, pc')
  {
    OwnReserve(m, m', p, pc.c, pc.spare, pc.n);
    assert MayFill(m', p, pc'.c, pc.t, pc.b, pc.n);
    StartFilling(m', p, pc'.c, pc.spare, pc.t, pc.b, pc.n);
  }

  lemma OwnCas(m: Mem, m': Mem, p: nat, pc: Pc, spurious: bool)
    requires MemInv(m) && PushInv(m, p, pc) && pc.PCas? && Sane(m, pc) && m' == MemAfter(m, p, pc, spurious)
    ensures PushInv(m', p, AfterCas(m, pc, spurious))
  {
    PushPoint(m, p, pc);
    if Reserves(m, pc, spurious) {
      assert m.tailBlock == Some(pc.t.b) && pc.b == pc.t.b && OutWritten(m.log, m.written);
      OwnReserving(m, m', p, pc, AfterCas(m, pc, spurious));
    } else {
      assert m' == m;
    }
  }

  lemma OwnPush(m: Mem, m': Mem, p: nat, pc: Pc, spurious: bool)
    requires MemInv(m) && PushInv(m, p, pc) && InPush(pc) && Sane(m, pc) && m' == MemAfter(m, p, pc, spurious)
    ensures PushInv(m', p, PushPc(m, pc, spurious))
  {
    if pc.PInstall? || pc.PHeadBlock? || pc.PTailBlock? || pc.PBump? { OwnPointers(m, m', p, pc, spurious); }
    else if pc.PCas? { OwnCas(m, m', p, pc, spurious); }
    else if pc.PFill? { OwnWritten(m, p, pc, spurious); }
    else if pc.PMark? { OwnMarked(m, m', p, pc); }
    else if pc.PLink? { OwnLink(m, p, pc); }
    else if !pc.PRet? { OwnLook(m, p, pc); }
  }

  lemma OwnPopLook(m: Mem, p: nat, pc: Pc)
    requires IndexInv(m.head, m.headMark, m.tail, m.headBlock, m.tailBlock)
    requires PopInv(m, p, pc) && (pc.QLoad? || pc.QBlock? || pc.QPlan? || pc.QTail?)
    ensures PopInv(m, p, PopPc(m, pc, false))
  {
    PopPoint(m, p, pc);
  }

  lemma OwnClaim(m: Mem, p: nat, pc: Pc, spurious: bool)
    requires IndexInv(m.head, m.headMark, m.tail, m.headBlock, m.tailBlock)
    requires pc.QCas? && PopInv(m, p, pc) && (pc.t == m.head ==> pc.t !in m.out)
    ensures PopInv(MemAfter(m, p, pc, spurious), p, AfterClaim(m, pc, spurious))
  {
    PopPoint(m, p, pc);
  }

  lemma OwnMoveHead(m: Mem, p: nat, pc: Pc)
    requires LinksInv(m.linked, m.tail) && PopInv(m, p, pc) && CanGo(m, pc)
    requires pc.QNext? || pc.QPeek? || pc.QHeadBlock? || pc.QHeadIndex?
    ensures PopInv(MemAfter(m, p, pc, false), p, PopPc(m, pc, false))
  {
    PopPoint(m, p, pc);
  }

  lemma OwnTake(m: Mem, p: nat, pc: Pc)
    requires ReadInv(m.read, m.out) && PopInv(m, p, pc) && CanGo(m, pc) && Sane(m, pc)
    requires pc.QWait? || pc.QRead? || pc.QMark?
    ensures PopInv(MemAfter(m, p, pc, false), p, PopPc(m, pc, false))
  {
    PopPoint(m, p, pc);
  }

  lemma OwnDestroy(m: Mem, p: nat, pc: Pc)
    requires TokensInv(m.tok, m.read, m.doomed, m.freed) && PopInv(m, p, pc)
    requires pc.QDestroy? || pc.QOr? || pc.QFree?
    ensures PopInv(MemAfter(m, p, pc, false), p, PopPc(m, pc, false))
  {
    PopPoint(m, p, pc);
    assert TokenInv(pc.b, m.tok[pc.b], m.read, m.doomed, m.freed);
  }

  lemma OwnLenHead(m: Mem, p: nat, pc: Pc)
    requires UpTo(m.head, m.tail) && PointerInv(m.head, m.headBlock) && pc.NTail? && PopInv(m, p, pc)
    ensures PopInv(m, p, NHead(pc.t, pc.closed, m.head, Ticket(m.tail) - Ticket(m.head)))
  {
    PopPoint(m, p, pc);
    assert LenInv(m.tail, pc.t, m.head, Ticket(m.tail) - Ticket(m.head));
  }

  lemma OwnLen(m: Mem, p: nat, pc: Pc)
    requires m.tail.i <= BLOCK_CAP && (pc.NLoad? || pc.NHead? || pc.QRet?)
    ensures PopInv(m, p, PopPc(m, pc, false))
  {
  }

  lemma OwnPop(m: Mem, m': Mem, p: nat, pc: Pc, spurious: bool)
    requires MemInv(m) && PopInv(m, p, pc) && !InPush(pc) && CanGo(m, pc) && Sane(m, pc)
    requires m' == MemAfter(m, p, pc, spurious)
    ensures PopInv(m', p, PopPc(m, pc, spurious))
  {
    if pc.QCas? { OwnClaim(m, p, pc, spurious); }
    else if pc.QNext? || pc.QPeek? || pc.QHeadBlock? || pc.QHeadIndex? { OwnMoveHead(m, p, pc); }
    else if pc.QWait? || pc.QRead? || pc.QMark? { OwnTake(m, p, pc); }
    else if pc.QDestroy? || pc.QOr? || pc.QFree? { OwnDestroy(m, p, pc); }
    else if pc.QLoad? || pc.QBlock? || pc.QPlan? || pc.QTail? { OwnPopLook(m, p, pc); }
    else if pc.NTail? { OwnLenHead(m, p, pc); }
    else { OwnLen(m, p, pc); }
  }

  /** A thread in push owes nothing to pop, and the other way round. */
  lemma PushIsPush(m: Mem, pc: Pc, spurious: bool, p: nat, m': Mem)
    requires InPush(pc)
    ensures PopInv(m', p, PushPc(m, pc, spurious))
  {
  }

  lemma PopIsPop(m: Mem, pc: Pc, spurious: bool, p: nat, m': Mem)
    ensures PushInv(m', p, PopPc(m, pc, spurious))
  {
  }

  lemma OwnStep(m: Mem, m': Mem, p: nat, pc: Pc, spurious: bool)
    requires MemInv(m) && ThreadInv(m, p, pc) && CanGo(m, pc) && Sane(m, pc) && m' == MemAfter(m, p, pc, spurious)
    ensures ThreadInv(m', p, PcAfter(m, pc, spurious))
  {
    if InPush(pc) {
      PushIsPush(m, pc, spurious, p, m');
      OwnPush(m, m', p, pc, spurious);
    } else {
      PopIsPop(m, pc, spurious, p, m');
      OwnPop(m, m', p, pc, spurious);
    }
  }

  // ---------- one action ----------

  /** What the memory grants to a thread at pc. */
  ghost predicate Guard(m: Mem, p: nat, pc: Pc) {
    match pc
    case PHeadBlock(_, _, _, _) => m.installer == Some(p) && m.headBlock.None? && m.tailBlock.Some?
    case PCas(c, _, t, _, n) => 1 <= n && t.i + n <= BLOCK_CAP && c.start + n <= |c.stage| && m.tailBlock.Some?
    case PFill(_, _, t, _, _, k) =>
      var x := Plus(t, k);
      x in m.writer && m.writer[x] == p && x !in m.written
    case PMark(_, _, t, _, _, k) =>
      var x := Plus(t, k);
      x in m.writer && m.writer[x] == p && x in m.log && x in m.cells && m.cells[x] == m.log[x]
    case PTailBlock(_, _, b, _) =>
      Linking(m.linked, m.log, m.writer, p, b) && m.tail == Pos(b, 31) && m.tailBlock == Some(b)
    case PBump(_, _, b, _) =>
      Linking(m.linked, m.log, m.writer, p, b) && m.tail == Pos(b, 31) && m.tailBlock == Some(b + 1)
    case PLink(_, _, b, _) => Linking(m.linked, m.log, m.writer, p, b) && b < m.tail.b
    case QCas(t, _, _, nextMark) =>
      IsSlot(t) && Before(t, m.tail) && (nextMark ==> t.b < m.tail.b) && m.headBlock.Some?
    case QHeadBlock(t, b, _) => Moving(m, p, t, b) && m.headBlock == Some(b)
    case QHeadIndex(t, b, nextMark) => Moved(m, p, t, b, nextMark)
    case QRead(t, b) => ReadReady(m, p, t, b)
    case QMark(t, b) => TakenOut(m, p, t, b)
    case QDestroy(b, i) => Holds(m.tok, p, b, i)
    case QOr(b, i) => Holds(m.tok, p, b, i) && i < 30
    case QFree(b) => Holds(m.tok, p, b, 30)
    case _ => true
  }

  lemma PushGuard(m: Mem, p: nat, pc: Pc)
    requires PushInv(m, p, pc) && InPush(pc)
    ensures Guard(m, p, pc)
  {
    PushPoint(m, p, pc);
    if pc.PFill? || pc.PMark? { assert InSpan(Plus(pc.t, pc.k), Plus(pc.t, pc.k), pc.n - pc.k); }
  }

  lemma PopGuard(m: Mem, p: nat, pc: Pc)
    requires PopInv(m, p, pc) && !InPush(pc)
    ensures Guard(m, p, pc)
  {
    PopPoint(m, p, pc);
  }

  /** Thread p may act. */
  ghost predicate Acts(m: Mem, p: nat, pc: Pc) {
    Sane(m, pc) && Guard(m, p, pc)
  }

  lemma ReserveOther(m: Mem, m': Mem, p: nat, c: Call, t: Pos, n: nat)
    requires LogInv(m.tail, m.log, m.writer) && t == m.tail && t.i < BLOCK_CAP && c.start + n <= |c.stage|
    requires m' == Reserve(m, p, c, t, n)
    ensures Kept(m, m', p)
  {
    forall q: nat, qc | q != p && ThreadInv(m, q, qc) ensures ThreadInv(Reserve(m, p, c, t, n), q, qc) {
      ReserveOtherPush(m, p, c, t, n, q, qc);
      ReserveOtherPop(m, p, c, t, n, q, qc);
    }
  }

  lemma MarkOther(m: Mem, m': Mem, p: nat, x: Pos)
    requires x in m.writer && m.writer[x] == p
    requires m' == m.(written := m.written + {x})
    ensures Kept(m, m', p)
  {
    forall q: nat, qc | q != p && ThreadInv(m, q, qc) ensures ThreadInv(m.(written := m.written + {x}), q, qc) {
      SetWriteOther(m, p, x, q, qc);
      SetWriteOtherPop(m, x, q, qc);
    }
  }

  lemma TakeOther(m: Mem, m': Mem, p: nat, t: Pos, b: nat)
    requires StartedInv(m.tok, m.linked, m.out) && ReadReady(m, p, t, b) && t in m.cells
    requires m' == TakeAt(m, p, t, b)
    ensures Kept(m, m', p)
  {
    forall q: nat, qc | q != p && ThreadInv(m, q, qc) ensures ThreadInv(m', q, qc) {
      TakeOtherPush(m, p, t, b, q, qc);
      TakeOtherPop(m, m', p, t, q, qc);
    }
  }

  lemma SetReadOther(m: Mem, m': Mem, p: nat, t: Pos, b: nat)
    requires TokensInv(m.tok, m.read, m.doomed, m.freed) && TakenOut(m, p, t, b)
    requires m' == SetReadBit(m, p, t, b)
    ensures Kept(m, m', p)
  {
    forall q: nat, qc | q != p && ThreadInv(m, q, qc) ensures ThreadInv(SetReadBit(m, p, t, b), q, qc) {
      SetReadOtherPush(m, p, t, b, q, qc);
      SetReadOtherPop(m, p, t, b, q, qc);
    }
  }

  /** The step from m to m', taken by thread p, keeps the memory invariant and disturbs no
      other thread. */
  ghost predicate Keeps(m: Mem, m': Mem, p: nat) {
    MemInv(m) ==> MemInv(m') && Kept(m, m', p)
  }

  lemma KeepsSame(m: Mem, m': Mem, p: nat)
    requires m' == m
    ensures Keeps(m, m', p)
  {
  }

  lemma InstallKeeps(m: Mem, m': Mem, p: nat)
    requires m.tailBlock.None? && m' == m.(tailBlock := Some(0), installer := Some(p))
    ensures Keeps(m, m', p)
  {
    if MemInv(m) {
      InstallMem(m, m', p);
      InstallOther(m, m', p);
    }
  }

  lemma HeadBlockKeeps(m: Mem, m': Mem, p: nat)
    requires m.installer == Some(p) && m.headBlock.None? && m.tailBlock.Some?
    requires m' == m.(headBlock := Some(0), installer := None)
    ensures Keeps(m, m', p)
  {
    if MemInv(m) {
      HeadBlockMem(m, m');
      HeadBlockOther(m, m', p);
    }
  }

  lemma TailBlockKeeps(m: Mem, m': Mem, p: nat, b: nat)
    requires Linking(m.linked, m.log, m.writer, p, b) && m.tail == Pos(b, 31) && m.tailBlock == Some(b)
    requires m' == m.(tailBlock := Some(b + 1))
    ensures Keeps(m, m', p)
  {
    if MemInv(m) {
      TailBlockMem(m, m', b);
      TailBlockOther(m, m', p, b);
    }
  }

  lemma BumpKeeps(m: Mem, m': Mem, p: nat, b: nat)
    requires Linking(m.linked, m.log, m.writer, p, b) && m.tail == Pos(b, 31) && m.tailBlock == Some(b + 1)
    requires m' == m.(tail := Pos(b + 1, 0))
    ensures Keeps(m, m', p)
  {
    if MemInv(m) {
      BumpMem(m, m', b);
      BumpOther(m, m', p, b);
    }
  }

  lemma LinkKeeps(m: Mem, m': Mem, p: nat, b: nat)
    requires Linking(m.linked, m.log, m.writer, p, b) && b < m.tail.b && m' == m.(linked := m.linked + {b})
    ensures Keeps(m, m', p)
  {
    if MemInv(m) {
      LinkMem(m, m', b);
      LinkOther(m, m', p, b);
    }
  }

  lemma ReserveKeeps(m: Mem, m': Mem, p: nat, c: Call, t: Pos, n: nat)
    requires 1 <= n && t == m.tail && t.i + n <= BLOCK_CAP && c.start + n <= |c.stage| && m.tailBlock.Some?
    requires m' == Reserve(m, p, c, t, n)
    ensures Keeps(m, m', p)
  {
    if MemInv(m) {
      ReserveMem(m, m', p, c, n);
      ReserveOther(m, m', p, c, t, n);
    }
  }

  lemma WriteKeeps(m: Mem, m': Mem, p: nat, x: Pos, v: Value)
    requires x in m.writer && m.writer[x] == p && x !in m.written && m' == m.(cells := m.cells[x := v])
    ensures Keeps(m, m', p)
  {
    if MemInv(m) {
      WriteMem(m, m', x, v);
      WriteOther(m, m', p, x, v);
    }
  }

  lemma MarkKeeps(m: Mem, m': Mem, p: nat, x: Pos)
    requires x in m.writer && m.writer[x] == p && x in m.log && x in m.cells && m.cells[x] == m.log[x]
    requires m' == m.(written := m.written + {x})
    ensures Keeps(m, m', p)
  {
    if MemInv(m) {
      SetWriteMem(m, m', x);
      MarkOther(m, m', p, x);
    }
  }

  lemma ClaimKeeps(m: Mem, m': Mem, p: nat, t: Pos, mark: bool)
    requires t == m.head && IsSlot(t) && Before(t, m.tail) && (mark ==> t.b < m.tail.b) && m.headBlock.Some?
    requires m' == Claim(m, p, t, mark)
    ensures Keeps(m, m', p)
  {
    if MemInv(m) {
      ClaimMem(m, m', p, t, mark);
      ClaimOther(m, m', p, t, mark);
    }
  }

  lemma MoveBlockKeeps(m: Mem, m': Mem, p: nat, t: Pos, b: nat)
    requires Moving(m, p, t, b) && m.headBlock == Some(b) && m' == m.(headBlock := Some(b + 1))
    ensures Keeps(m, m', p)
  {
    if MemInv(m) {
      MoveBlockMem(m, m', b);
      MoveBlockOther(m, m', p, t, b);
    }
  }

  lemma MoveHeadKeeps(m: Mem, m': Mem, p: nat, t: Pos, b: nat, mark: bool)
    requires Moved(m, p, t, b, mark) && m' == m.(head := Pos(t.b + 1, 0), headMark := mark)
    ensures Keeps(m, m', p)
  {
    if MemInv(m) {
      MoveHeadMem(m, m', p, t, b, mark);
      MoveHeadOther(m, m', p, t, b, mark);
    }
  }

  lemma TakeKeeps(m: Mem, m': Mem, p: nat, t: Pos, b: nat)
    requires ReadReady(m, p, t, b) && t in m.cells && m' == TakeAt(m, p, t, b)
    ensures Keeps(m, m', p)
  {
    if MemInv(m) {
      TakeMem(m, m', p, t, b);
      TakeOther(m, m', p, t, b);
    }
  }

  lemma SetReadKeeps(m: Mem, m': Mem, p: nat, t: Pos, b: nat)
    requires TakenOut(m, p, t, b) && m' == SetReadBit(m, p, t, b)
    ensures Keeps(m, m', p)
  {
    if MemInv(m) {
      SetReadMem(m, m', p, t, b);
      SetReadOther(m, m', p, t, b);
    }
  }

  lemma AdvanceKeeps(m: Mem, m': Mem, p: nat, b: nat, i: nat)
    requires Holds(m.tok, p, b, i) && i < 30 && Pos(b, i) in m.read && m' == m.(tok := m.tok[b := Held(p, i + 1)])
    ensures Keeps(m, m', p)
  {
    if MemInv(m) {
      AdvanceMem(m, m', p, b, i);
      TokenOther(m, m', p, b, i, Held(p, i + 1), m.freed, m.doomed);
    }
  }

  lemma SetDestroyKeeps(m: Mem, m': Mem, p: nat, b: nat, i: nat)
    requires Holds(m.tok, p, b, i) && i < 30 && m' == SetDestroyBit(m, p, b, i)
    ensures Keeps(m, m', p)
  {
    if MemInv(m) {
      SetDestroyMem(m, m', p, b, i);
      TokenOther(m, m', p, b, i, m'.tok[b], m.freed, m'.doomed);
    }
  }

  lemma FreeKeeps(m: Mem, m': Mem, p: nat, b: nat)
    requires Holds(m.tok, p, b, 30) && m' == m.(freed := m.freed + {b}, tok := m.tok[b := Gone])
    ensures Keeps(m, m', p)
  {
    if MemInv(m) {
      FreeMem(m, m', p, b);
      TokenOther(m, m', p, b, 30, Gone, m.freed + {b}, m.doomed);
    }
  }

  lemma InstallingKeeps(m: Mem, m': Mem, p: nat, pc: Pc, spurious: bool)
    requires Acts(m, p, pc) && m' == MemAfter(m, p, pc, spurious) && (pc.PInstall? || pc.PHeadBlock?)
    ensures Keeps(m, m', p)
  {
    match pc
    case PInstall(_, _, _, _) => if m.tailBlock.None? { InstallKeeps(m, m', p); } else { KeepsSame(m, m', p); }
    case PHeadBlock(_, _, _, _) => HeadBlockKeeps(m, m', p);
  }

  lemma LinkingKeeps(m: Mem, m': Mem, p: nat, pc: Pc, spurious: bool)
    requires Acts(m, p, pc) && m' == MemAfter(m, p, pc, spurious) && (pc.PTailBlock? || pc.PBump? || pc.PLink?)
    ensures Keeps(m, m', p)
  {
    match pc
    case PTailBlock(_, _, b, _) => TailBlockKeeps(m, m', p, b);
    case PBump(_, _, b, _) => BumpKeeps(m, m', p, b);
    case PLink(_, _, b, _) => LinkKeeps(m, m', p, b);
  }

  lemma FillKeeps(m: Mem, m': Mem, p: nat, pc: Pc, spurious: bool)
    requires Acts(m, p, pc) && m' == MemAfter(m, p, pc, spurious)
    requires pc.PCas? || pc.PFill? || pc.PMark?
    ensures Keeps(m, m', p)
  {
    match pc
    case PCas(c, _, t, _, n) =>
      if Reserves(m, pc, spurious) { ReserveKeeps(m, m', p, c, t, n); } else { KeepsSame(m, m', p); }
    case PFill(c, _, t, _, n, k) => WriteKeeps(m, m', p, Plus(t, k), c.stage[c.start - n + k]);
    case PMark(_, _, t, _, _, k) => MarkKeeps(m, m', p, Plus(t, k));
  }

  lemma ClaimingKeeps(m: Mem, m': Mem, p: nat, pc: Pc, spurious: bool)
    requires Acts(m, p, pc) && m' == MemAfter(m, p, pc, spurious) && pc.QCas?
    ensures Keeps(m, m', p)
  {
    if Claims(m, pc, spurious) { ClaimKeeps(m, m', p, pc.t, pc.nextMark); } else { KeepsSame(m, m', p); }
  }

  lemma MovingKeeps(m: Mem, m': Mem, p: nat, pc: Pc, spurious: bool)
    requires Acts(m, p, pc) && m' == MemAfter(m, p, pc, spurious) && (pc.QHeadBlock? || pc.QHeadIndex?)
    ensures Keeps(m, m', p)
  {
    match pc
    case QHeadBlock(t, b, _) => MoveBlockKeeps(m, m', p, t, b);
    case QHeadIndex(t, b, mark) => MoveHeadKeeps(m, m', p, t, b, mark);
  }

  lemma ReadKeeps(m: Mem, m': Mem, p: nat, pc: Pc, spurious: bool)
    requires Acts(m, p, pc) && m' == MemAfter(m, p, pc, spurious) && (pc.QRead? || pc.QMark?)
    ensures Keeps(m, m', p)
  {
    match pc
    case QRead(t, b) => TakeKeeps(m, m', p, t, b);
    case QMark(t, b) => SetReadKeeps(m, m', p, t, b);
  }

  lemma DestroyKeeps(m: Mem, m': Mem, p: nat, pc: Pc, spurious: bool)
    requires Acts(m, p, pc) && m' == MemAfter(m, p, pc, spurious)
    requires pc.QDestroy? || pc.QOr? || pc.QFree?
    ensures Keeps(m, m', p)
  {
    match pc
    case QDestroy(b, i) =>
      if i < BLOCK_CAP - 1 && Pos(b, i) in m.read { AdvanceKeeps(m, m', p, b, i); } else { KeepsSame(m, m', p); }
    case QOr(b, i) => SetDestroyKeeps(m, m', p, b, i);
    case QFree(b) => FreeKeeps(m, m', p, b);
  }

  lemma SharedStep(m: Mem, m': Mem, p: nat, pc: Pc, spurious: bool)
    requires Acts(m, p, pc) && m' == MemAfter(m, p, pc, spurious)
    ensures Keeps(m, m', p)
  {
    if pc.PInstall? || pc.PHeadBlock? { InstallingKeeps(m, m', p, pc, spurious); }
    else if pc.PTailBlock? || pc.PBump? || pc.PLink? { LinkingKeeps(m, m', p, pc, spurious); }
    else if pc.PCas? || pc.PFill? || pc.PMark? { FillKeeps(m, m', p, pc, spurious); }
    else if pc.QCas? { ClaimingKeeps(m, m', p, pc, spurious); }
    else if pc.QHeadBlock? || pc.QHeadIndex? { MovingKeeps(m, m', p, pc, spurious); }
    else if pc.QRead? || pc.QMark? { ReadKeeps(m, m', p, pc, spurious); }
    else if pc.QDestroy? || pc.QOr? || pc.QFree? { DestroyKeeps(m, m', p, pc, spurious); }
    else { KeepsSame(m, m', p); }
  }

  // ---------- the whole state ----------

  ghost predicate ThreadsInv(m: Mem, pcs: seq<Pc>) {
    forall p :: 0 <= p < |pcs| ==> ThreadInv(m, p, pcs[p])
  }

  ghost predicate Inv(s: State) {
    MemInv(s.m) && ThreadsInv(s.m, s.pcs)
  }

  lemma MayAct(m: Mem, p: nat, pc: Pc)
    requires MemInv(m) && ThreadInv(m, p, pc)
    ensures Acts(m, p, pc)
  {
    AlwaysSane(m, p, pc);
    if InPush(pc) { PushGuard(m, p, pc); } else { PopGuard(m, p, pc); }
  }

  lemma ThreadsStep(m: Mem, m': Mem, pcs: seq<Pc>, p: nat, pc: Pc)
    requires ThreadsInv(m, pcs) && p < |pcs| && Kept(m, m', p) && ThreadInv(m', p, pc)
    ensures ThreadsInv(m', pcs[p := pc])
  {
    var pcs' := pcs[p := pc];
    forall q | 0 <= q < |pcs'| ensures ThreadInv(m', q, pcs'[q]) {
      if q != p { assert ThreadInv(m, q, pcs[q]); }
    }
  }

  lemma GoKeeps(m: Mem, m': Mem, pcs: seq<Pc>, p: nat, pc': Pc, spurious: bool)
    requires MemInv(m) && ThreadsInv(m, pcs) && p < |pcs| && CanGo(m, pcs[p]) && Sane(m, pcs[p])
    requires m' == MemAfter(m, p, pcs[p], spurious) && pc' == PcAfter(m, pcs[p], spurious)
    ensures MemInv(m') && ThreadsInv(m', pcs[p := pc'])
  {
    assert ThreadInv(m, p, pcs[p]);
    MayAct(m, p, pcs[p]);
    SharedStep(m, m', p, pcs[p], spurious);
    OwnStep(m, m', p, pcs[p], spurious);
    ThreadsStep(m, m', pcs, p, pc');
  }

  /** A call that starts. */
  lemma StartKeeps(m: Mem, p: nat, items: seq<Value>, len: nat, batch: bool)
    requires !batch ==> |items| == 1 && len == 1
    ensures ThreadInv(m, p, CallPc(items, len, batch))
  {
  }

  lemma CloseKeeps(m: Mem, m': Mem, pcs: seq<Pc>, p: nat)
    requires MemInv(m) && ThreadsInv(m, pcs) && p < |pcs| && pcs[p] == Idle && m' == m.(closed := true)
    ensures MemInv(m') && ThreadsInv(m', pcs)
  {
    CloseOther(m, m', p);
    ThreadsStep(m, m', pcs, p, Idle);
    assert pcs[p := Idle] == pcs;
  }

  /** Every action keeps the invariant, and none is undefined. */
  lemma InvStep(s: State, a: Action)
    requires Inv(s) && Enabled(s, a)
    ensures Sane(s.m, s.pcs[a.p]) && Inv(Apply(s, a))
  {
    assert ThreadInv(s.m, a.p, s.pcs[a.p]);
    AlwaysSane(s.m, a.p, s.pcs[a.p]);
    var t := Apply(s, a);
    KeepsSame(s.m, s.m, a.p);
    match a
    case Start(p, items, len, batch) =>
      StartKeeps(s.m, p, items, len, batch);
      ThreadsStep(s.m, s.m, s.pcs, p, t.pcs[p]);
    case Go(p, spurious) => GoKeeps(s.m, t.m, s.pcs, p, t.pcs[p], spurious);
    case Close(p) => CloseKeeps(s.m, t.m, s.pcs, p);
    case _ => ThreadsStep(s.m, s.m, s.pcs, a.p, t.pcs[a.p]);
  }

  lemma InvNext(s: State, t: State)
    requires Inv(s) && Next(s, t)
    ensures Inv(t)
  {
    var a :| Enabled(s, a) && Sane(s.m, s.pcs[a.p]) && t == Apply(s, a);
    InvStep(s, a);
  }

  lemma InitInv(threads: nat)
    ensures Inv(Initial(threads))
  {
  }
}
