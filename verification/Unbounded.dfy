/**
 The unbounded queue: a linked list of blocks of 31 slots. There are 32 positions per block;
 the last one is only passed through while the next block is installed. Blocks are numbered
 in the order in which they are linked.
 One action is one atomic access, or one access to a value cell or to the caller's iterator.
 */
module Unbounded {
  import opened Basics

  type Value = int

  const LAP := 32
  const BLOCK_CAP := 31

  /** A position: block b and offset i up to BLOCK_CAP; the index word is Pos(b, i), shifted. */
  datatype Pos = Pos(b: nat, i: nat)

  predicate Before(x: Pos, y: Pos) {
    x.b < y.b || (x.b == y.b && x.i < y.i)
  }

  predicate UpTo(x: Pos, y: Pos) {
    x == y || Before(x, y)
  }

  /** A position that holds a value (the last one of a block does not). */
  predicate IsSlot(x: Pos) {
    x.i < BLOCK_CAP
  }

  function Plus(x: Pos, n: nat): Pos {
    Pos(x.b, x.i + n)
  }

  /** A push (one item) or push_n call. `stage` holds the items pulled last from the iterator,
      those from `start` on still to be enqueued; `len` is what the iterator reported. */
  datatype Call = Call(
    items: seq<Value>,
    len: nat,
    batch: bool,
    pulled: nat,
    written: nat,
    stage: seq<Value>,
    start: nat,
    spots: seq<Pos>)     // history: the positions reserved for items[..written], in order

  datatype Pc =
    | Idle
    // push and push_n; `spare`: a block was allocated in advance
    | PLoad(c: Call, spare: bool)
    | PBlock(c: Call, spare: bool, t: Pos, closed: bool)                    // loaded the tail index
    | PPlan(c: Call, spare: bool, t: Pos, closed: bool, ob: Option<nat>)    // and the tail block
    | PInstall(c: Call, spare: bool, t: Pos, n: nat)                        // about to CAS the first block in
    | PHeadBlock(c: Call, spare: bool, t: Pos, n: nat)                      // installed it: about to store head.block
    | PCas(c: Call, spare: bool, t: Pos, b: nat, n: nat)                    // about to reserve t .. t + n
    | PFill(c: Call, spare: bool, t: Pos, b: nat, n: nat, k: nat)           // about to write the cell of t + k
    | PMark(c: Call, spare: bool, t: Pos, b: nat, n: nat, k: nat)           // about to set its WRITE bit
    | PTailBlock(c: Call, t: Pos, b: nat, n: nat)                           // filled block b: about to store tail.block
    | PBump(c: Call, t: Pos, b: nat, n: nat)                                // about to step the tail over the gap
    | PLink(c: Call, t: Pos, b: nat, n: nat)                                // about to store b.next
    | PRet(c: Call)                                                         // about to return
    // pop
    | QLoad
    | QBlock(t: Pos, mark: bool)                                            // loaded the head index
    | QPlan(t: Pos, mark: bool, ob: Option<nat>)                            // and the head block
    | QTail(t: Pos, ob: Option<nat>)                                        // about to load the tail
    | QCas(t: Pos, mark: bool, b: nat, nextMark: bool)                      // about to claim t
    | QNext(t: Pos, b: nat)                                                 // claimed the last slot: waits for b.next
    | QPeek(t: Pos, b: nat)                                                 // about to load next.next
    | QHeadBlock(t: Pos, b: nat, nextMark: bool)                            // about to store head.block
    | QHeadIndex(t: Pos, b: nat, nextMark: bool)                            // about to store head.index
    | QWait(t: Pos, b: nat)                                                 // waits for the WRITE bit
    | QRead(t: Pos, b: nat)
    | QMark(t: Pos, b: nat)                                                 // about to set the READ bit
    | QDestroy(b: nat, i: nat)                                              // in destroy, about to load slot i
    | QOr(b: nat, i: nat)                                                   // about to set DESTROY on slot i
    | QFree(b: nat)
    | QRet
    // len
    | NLoad
    | NTail(t: Pos, closed: bool)
    // diff: outstanding when the head was loaded
    | NHead(t: Pos, closed: bool, h: Pos, diff: int)

  /** How far the destruction of a block got: a thread at slot i, or left to the reader of i. */
  datatype Token = Held(p: nat, i: nat) | Left(i: nat) | Gone

  datatype Mem = Mem(
    head: Pos,
    headMark: bool,
    tail: Pos,
    closed: bool,
    headBlock: Option<nat>,
    tailBlock: Option<nat>,
    linked: set<nat>,            // blocks whose next pointer is set
    written: set<Pos>,           // WRITE bits
    read: set<Pos>,              // READ bits
    doomed: set<Pos>,            // DESTROY bits
    cells: map<Pos, Value>,
    freed: set<nat>,
    // history
    tape: seq<Value>,            // everything ever enqueued, in order
    log: map<Pos, Value>,        // what a position was reserved for
    writer: map<Pos, nat>,       // the thread that reserved it
    reader: map<Pos, nat>,       // the thread that claimed it
    out: map<Pos, Value>,        // what the claiming pop read
    tok: map<nat, Token>,
    installer: Option<nat>)      // the thread between installing the first block and head.block

  datatype State = State(m: Mem, pcs: seq<Pc>)

  datatype Action =
    | Start(p: nat, items: seq<Value>, len: nat, batch: bool)  // push of one item, or push_n
    | StartPop(p: nat) | StartLen(p: nat) | Close(p: nat)
    | Go(p: nat, spurious: bool)                               // the next access of the call under way

  const EMPTY := Mem(Pos(0, 0), false, Pos(0, 0), false, None, None, {}, {}, {}, {}, map[], {}, [], map[], map[],
      map[], map[], map[], None)

  function Initial(threads: nat): State {
    State(EMPTY, seq(threads, _ => Idle))
  }

  /** The call at pc can go on; it waits for a link or for a WRITE bit. */
  predicate CanGo(m: Mem, pc: Pc) {
    match pc
    case Idle => false
    case QNext(_, b) => b in m.linked
    case QWait(t, _) => t in m.written
    case _ => true
  }

  predicate Enabled(s: State, a: Action) {
    && a.p < |s.pcs|
    && (if a.Go? then CanGo(s.m, s.pcs[a.p]) else s.pcs[a.p] == Idle)
    && (a.Start? && !a.batch ==> |a.items| == 1 && a.len == 1)
  }

  // ---------- planning a segment ----------

  function Min(x: int, y: int): int {
    if x < y then x else y
  }

  /** (Re)filling an empty stage of push_n from the iterator, which may hold fewer items than
      it reported. */
  function Refill(c: Call, off: nat): Call {
    if !c.batch || c.start != |c.stage| then c
    else
      var room := Min(BLOCK_CAP - off, c.len - c.written);
      var m := Min(room, |c.items| - c.pulled);
      if m <= 0 then c
      else c.(start := 0, stage := c.items[c.pulled..c.pulled + m], pulled := c.pulled + m)
  }

  function AfterPlan(pc: Pc): Pc
    requires pc.PPlan?
  {
    var off := pc.t.i;
    if pc.closed then PRet(pc.c)
    else if off >= BLOCK_CAP then PLoad(pc.c, pc.spare)
    else
      var c := Refill(pc.c, off);
      if |c.stage| <= c.start then PRet(c)
      else
        var n := Min(|c.stage| - c.start, BLOCK_CAP - off);
        var spare := pc.spare || off + n == BLOCK_CAP;
        if pc.ob.None? then PInstall(c, spare, pc.t, n) else PCas(c, spare, pc.t, pc.ob.value, n)
  }

  /** The n positions from t on. */
  function Span(t: Pos, n: nat): seq<Pos> {
    seq(n, (i: nat) => Plus(t, i))
  }

  /** The segment is reserved: the items of the stage now belong to positions t .. t + n. */
  function Reserved(c: Call, t: Pos, n: nat): Call {
    c.(written := c.written + n, start := c.start + n, spots := c.spots + Span(t, n))
  }

  /** After a finished segment of push_n the loop goes on from where it knows the tail was. */
  function AfterSegment(c: Call, spare: bool, t: Pos, b: nat): Pc {
    if !c.batch || (c.start == |c.stage| && c.written == c.len) then PRet(c)
    else PPlan(c, spare, t, false, Some(b))
  }

  function AfterMark(pc: Pc): Pc
    requires pc.PMark?
  {
    if pc.k + 1 < pc.n then PFill(pc.c, pc.spare, pc.t, pc.b, pc.n, pc.k + 1)
    else if pc.c.batch && pc.t.i + pc.n == BLOCK_CAP then PTailBlock(pc.c, pc.t, pc.b, pc.n)
    else AfterSegment(pc.c, pc.spare, Plus(pc.t, pc.n), pc.b)
  }

  function AfterLookTail(m: Mem, pc: Pc): Pc
    requires pc.QTail?
  {
    if pc.t == m.tail then QRet                                     // Empty or Closed
    else if pc.ob.None? then QLoad
    else QCas(pc.t, false, pc.ob.value, pc.t.b != m.tail.b)
  }

  function AfterPlanPop(pc: Pc): Pc
    requires pc.QPlan?
  {
    if pc.t.i == BLOCK_CAP then QLoad
    else if !pc.mark then QTail(pc.t, pc.ob)
    else if pc.ob.None? then QLoad
    else QCas(pc.t, true, pc.ob.value, true)
  }

  // ---------- the effects on the shared memory ----------

  predicate InSpan(x: Pos, t: Pos, n: nat) {
    x.b == t.b && t.i <= x.i < t.i + n
  }

  /** Binds the positions from t on to the values vs. */
  function Bind<V>(m: map<Pos, V>, t: Pos, vs: seq<V>): (r: map<Pos, V>)
    ensures forall x :: x in r <==> x in m || InSpan(x, t, |vs|)
    ensures forall x :: InSpan(x, t, |vs|) ==> r[x] == vs[x.i - t.i]
    ensures forall x :: x in m && !InSpan(x, t, |vs|) ==> r[x] == m[x]
    decreases |vs|
  {
    if vs == [] then m
    else
      var r := Bind(m[t := vs[0]], Plus(t, 1), vs[1..]);
      assert forall x :: InSpan(x, t, |vs|) <==> x == t || InSpan(x, Plus(t, 1), |vs[1..]|);
      r
  }

  /** The tail CAS: positions t .. t + n are reserved for the next n staged items. */
  function Reserve(m: Mem, p: nat, c: Call, t: Pos, n: nat): Mem
    requires c.start + n <= |c.stage|
  {
    m.(tail := Plus(m.tail, n), tape := m.tape + c.stage[c.start..c.start + n],
       log := Bind(m.log, t, c.stage[c.start..c.start + n]),
       writer := Bind(m.writer, t, seq(n, _ => p)))
  }

  /** The head CAS. */
  function Claim(m: Mem, p: nat, t: Pos, mark: bool): Mem {
    m.(head := Plus(m.head, 1), headMark := mark, reader := m.reader[t := p])
  }

  /** Reading the value; the reader of the last slot starts the destruction of the block. */
  function TakeAt(m: Mem, p: nat, t: Pos, b: nat): Mem
    requires t in m.cells
  {
    m.(cells := m.cells - {t}, out := m.out[t := m.cells[t]],
       tok := if t.i + 1 == BLOCK_CAP then m.tok[b := Held(p, 0)] else m.tok)
  }

  function SetReadBit(m: Mem, p: nat, t: Pos, b: nat): Mem {
    m.(read := m.read + {t}, tok := if t in m.doomed then m.tok[b := Held(p, t.i + 1)] else m.tok)
  }

  function SetDestroyBit(m: Mem, p: nat, b: nat, i: nat): Mem {
    m.(doomed := m.doomed + {Pos(b, i)}, tok := m.tok[b := if Pos(b, i) in m.read then Held(p, i + 1) else Left(i)])
  }

  /** How many slots precede a position. */
  function Ticket(x: Pos): nat {
    31 * x.b + x.i
  }

  /** Within the stage and the cells; every reachable program point is (see Inv). */
  predicate Sane(m: Mem, pc: Pc) {
    match pc
    case PCas(c, _, _, _, n) => c.start + n <= |c.stage|
    case PFill(c, _, _, _, n, k) => k < n <= c.start <= |c.stage|
    case QRead(t, _) => t in m.cells
    case _ => true
  }

  /** The weak CAS on the tail succeeds. */
  predicate Reserves(m: Mem, pc: Pc, spurious: bool) {
    pc.PCas? && m.tail == pc.t && !m.closed && !spurious
  }

  /** The weak CAS on the head succeeds. */
  predicate Claims(m: Mem, pc: Pc, spurious: bool) {
    pc.QCas? && m.head == pc.t && m.headMark == pc.mark && !spurious
  }

  /** The shared memory after the access that thread p is at. */
  function MemAfter(m: Mem, p: nat, pc: Pc, spurious: bool): (m': Mem)
    requires Sane(m, pc)
  {
    match pc
    case PInstall(_, _, _, _) => if m.tailBlock.None? then m.(tailBlock := Some(0), installer := Some(p)) else m
    case PHeadBlock(_, _, _, _) => m.(headBlock := Some(0), installer := None)
    case PCas(_, _, _, _, _) => if Reserves(m, pc, spurious) then Reserve(m, p, pc.c, pc.t, pc.n) else m
    case PFill(_, _, _, _, _, _) => m.(cells := m.cells[Plus(pc.t, pc.k) := pc.c.stage[pc.c.start - pc.n + pc.k]])
    case PMark(_, _, _, _, _, _) => m.(written := m.written + {Plus(pc.t, pc.k)})
    case PTailBlock(_, _, _, _) => m.(tailBlock := Some(pc.b + 1))
    case PBump(_, _, _, _) => m.(tail := Pos(m.tail.b + 1, 0))
    case PLink(_, _, _, _) => m.(linked := m.linked + {pc.b})
    case QCas(_, _, _, _) => if Claims(m, pc, spurious) then Claim(m, p, pc.t, pc.nextMark) else m
    case QHeadBlock(_, _, _) => m.(headBlock := Some(pc.b + 1))
    case QHeadIndex(_, _, _) => m.(head := Pos(pc.t.b + 1, 0), headMark := pc.nextMark)
    case QRead(_, _) => TakeAt(m, p, pc.t, pc.b)
    case QMark(_, _) => SetReadBit(m, p, pc.t, pc.b)
    case QDestroy(_, _) =>
      if pc.i < BLOCK_CAP - 1 && Pos(pc.b, pc.i) in m.read then m.(tok := m.tok[pc.b := Held(p, pc.i + 1)]) else m
    case QOr(_, _) => SetDestroyBit(m, p, pc.b, pc.i)
    case QFree(_) => m.(freed := m.freed + {pc.b}, tok := m.tok[pc.b := Gone])
    case _ => m
  }

  function TailAfter(m: Mem, pc: Pc, spurious: bool): Pos {
    if Reserves(m, pc, spurious) then Plus(m.tail, pc.n)
    else if pc.PBump? then Pos(m.tail.b + 1, 0)
    else m.tail
  }

  function HeadAfter(m: Mem, pc: Pc, spurious: bool): (Pos, bool) {
    if Claims(m, pc, spurious) then (Plus(m.head, 1), pc.nextMark)
    else if pc.QHeadIndex? then (Pos(pc.t.b + 1, 0), pc.nextMark)
    else (m.head, m.headMark)
  }

  lemma TailFrame(m: Mem, m': Mem, p: nat, pc: Pc, spurious: bool)
    requires Sane(m, pc) && m' == MemAfter(m, p, pc, spurious)
    ensures m'.closed == m.closed && m'.tail == TailAfter(m, pc, spurious)
  {
  }

  lemma HeadFrame(m: Mem, m': Mem, p: nat, pc: Pc, spurious: bool)
    requires Sane(m, pc) && m' == MemAfter(m, p, pc, spurious)
    ensures (m'.head, m'.headMark) == HeadAfter(m, pc, spurious)
  {
  }

  lemma LogFrame(m: Mem, m': Mem, p: nat, pc: Pc, spurious: bool)
    requires Sane(m, pc) && m' == MemAfter(m, p, pc, spurious)
    ensures !pc.PCas? ==> m'.tape == m.tape && m'.log == m.log
    ensures !pc.QRead? ==> m'.out == m.out
  {
  }

  lemma FreedFrame(m: Mem, m': Mem, p: nat, pc: Pc, spurious: bool)
    requires Sane(m, pc) && m' == MemAfter(m, p, pc, spurious)
    ensures m'.freed == if pc.QFree? then m.freed + {pc.b} else m.freed
  {
  }

  /** A program point of push or push_n. */
  predicate InPush(pc: Pc) {
    pc.PLoad? || pc.PBlock? || pc.PPlan? || pc.PInstall? || pc.PHeadBlock? || pc.PCas? || pc.PFill? || pc.PMark?
    || pc.PTailBlock? || pc.PBump? || pc.PLink? || pc.PRet?
  }

  /** Where push and push_n start. */
  function CallPc(items: seq<Value>, len: nat, batch: bool): Pc {
    var c := if batch then Call(items, len, true, 0, 0, [], 0, []) else Call(items, 1, false, 1, 0, items, 0, []);
    if len == 0 then PRet(c) else PLoad(c, false)
  }

  /** After the tail CAS: push at a block end links first, everybody else fills first. */
  function AfterCas(m: Mem, pc: Pc, spurious: bool): Pc
    requires pc.PCas?
  {
    if Reserves(m, pc, spurious) then
      var c := Reserved(pc.c, pc.t, pc.n);
      if !pc.c.batch && pc.t.i + 1 == BLOCK_CAP then PTailBlock(c, pc.t, pc.b, pc.n)
      else PFill(c, pc.spare, pc.t, pc.b, pc.n, 0)
    else PBlock(pc.c, pc.spare, m.tail, m.closed)
  }

  function AfterLink(pc: Pc): Pc
    requires pc.PLink?
  {
    if pc.c.batch then AfterSegment(pc.c, false, Pos(pc.b + 1, 0), pc.b + 1)
    else PFill(pc.c, false, pc.t, pc.b, pc.n, 0)
  }

  /** Where push and push_n go on. */
  function PushPc(m: Mem, pc: Pc, spurious: bool): Pc {
    match pc
    case PLoad(_, _) => PBlock(pc.c, pc.spare, m.tail, m.closed)
    case PBlock(_, _, _, _) => PPlan(pc.c, pc.spare, pc.t, pc.closed, m.tailBlock)
    case PPlan(_, _, _, _, _) => AfterPlan(pc)
    case PInstall(_, _, _, _) =>
      if m.tailBlock.None? then PHeadBlock(pc.c, pc.spare, pc.t, pc.n) else PLoad(pc.c, true)
    case PHeadBlock(_, _, _, _) => PCas(pc.c, pc.spare, pc.t, 0, pc.n)
    case PCas(_, _, _, _, _) => AfterCas(m, pc, spurious)
    case PFill(_, _, _, _, _, _) => PMark(pc.c, pc.spare, pc.t, pc.b, pc.n, pc.k)
    case PMark(_, _, _, _, _, _) => AfterMark(pc)
    case PTailBlock(_, _, _, _) => PBump(pc.c, pc.t, pc.b, pc.n)
    case PBump(_, _, _, _) => PLink(pc.c, pc.t, pc.b, pc.n)
    case PLink(_, _, _, _) => AfterLink(pc)
    case _ => Idle
  }

  function AfterClaim(m: Mem, pc: Pc, spurious: bool): Pc
    requires pc.QCas?
  {
    if !Claims(m, pc, spurious) then QBlock(m.head, m.headMark)
    else if pc.t.i + 1 == BLOCK_CAP then QNext(pc.t, pc.b)
    else QWait(pc.t, pc.b)
  }

  function AfterDestroyLook(m: Mem, pc: Pc): Pc
    requires pc.QDestroy?
  {
    if pc.i >= BLOCK_CAP - 1 then QFree(pc.b)
    else if Pos(pc.b, pc.i) in m.read then QDestroy(pc.b, pc.i + 1)
    else QOr(pc.b, pc.i)
  }

  /** Where pop and len go on. */
  function PopPc(m: Mem, pc: Pc, spurious: bool): Pc {
    match pc
    case QLoad => QBlock(m.head, m.headMark)
    case QBlock(_, _) => QPlan(pc.t, pc.mark, m.headBlock)
    case QPlan(_, _, _) => AfterPlanPop(pc)
    case QTail(_, _) => AfterLookTail(m, pc)
    case QCas(_, _, _, _) => AfterClaim(m, pc, spurious)
    case QNext(_, _) => QPeek(pc.t, pc.b)
    case QPeek(_, _) => QHeadBlock(pc.t, pc.b, pc.b + 1 in m.linked)
    case QHeadBlock(_, _, _) => QHeadIndex(pc.t, pc.b, pc.nextMark)
    case QHeadIndex(_, _, _) => QWait(pc.t, pc.b)
    case QWait(_, _) => QRead(pc.t, pc.b)
    case QRead(_, _) => if pc.t.i + 1 == BLOCK_CAP then QDestroy(pc.b, 0) else QMark(pc.t, pc.b)
    case QMark(_, _) => if pc.t in m.doomed then QDestroy(pc.b, pc.t.i + 1) else QRet
    case QDestroy(_, _) => AfterDestroyLook(m, pc)
    case QOr(_, _) => if Pos(pc.b, pc.i) in m.read then QDestroy(pc.b, pc.i + 1) else QRet
    case QFree(_) => QRet
    case NLoad => NTail(m.tail, m.closed)
    case NTail(_, _) => NHead(pc.t, pc.closed, m.head, Ticket(m.tail) - Ticket(m.head))
    case NHead(_, _, _, _) => if m.tail == pc.t && m.closed == pc.closed then Idle else NLoad
    case _ => Idle
  }

  function PcAfter(m: Mem, pc: Pc, spurious: bool): Pc {
    if InPush(pc) then PushPc(m, pc, spurious) else PopPc(m, pc, spurious)
  }

  function Apply(s: State, a: Action): State
    requires Enabled(s, a) && Sane(s.m, s.pcs[a.p])
  {
    match a
    case Start(p, items, len, batch) => State(s.m, s.pcs[p := CallPc(items, len, batch)])
    case StartPop(p) => State(s.m, s.pcs[p := QLoad])
    case StartLen(p) => State(s.m, s.pcs[p := NLoad])
    case Close(_) => State(s.m.(closed := true), s.pcs)
    case Go(p, spurious) =>
      State(MemAfter(s.m, p, s.pcs[p], spurious), s.pcs[p := PcAfter(s.m, s.pcs[p], spurious)])
  }

  ghost predicate Next(s: State, t: State) {
    exists a :: Enabled(s, a) && Sane(s.m, s.pcs[a.p]) && t == Apply(s, a)
  }

  ghost predicate Run(r: seq<State>) {
    && |r| > 0 && r[0] == Initial(|r[0].pcs|)
    && forall i :: 0 <= i < |r| - 1 ==> Next(r[i], r[i + 1])
  }
}
