/**
 The inductive invariant of the work-stealing queues.
 */
module StealInv {
  import opened Basics
  import opened Laps
  import opened StealQueue

  // ---------- one queue ----------

  predicate BoundsInv(q: Queue) {
    q.WellFormed() && q.sh <= q.wh <= q.tail <= q.fill <= q.sh + q.cap
  }

  /** The heads differ exactly while a steal or drain is in progress. */
  predicate BookInv(q: Queue) {
    match q.book
    case None => q.sh == q.wh
    case Some(b) => b.from == q.sh && b.from < b.to <= q.wh && b.from <= b.done <= b.to
  }

  /** A popped position whose item was not read yet. */
  predicate HoldInv(q: Queue) {
    q.hold.Some? ==>
      var h := q.hold.value;
      h < q.wh && q.fill <= h + q.cap && (q.book.Some? ==> h < q.book.value.from || q.book.value.to <= h)
  }

  /** The positions that hold an unread item. */
  predicate Live(q: Queue, pos: nat) {
    || (q.book.Some? && q.book.value.done <= pos < q.book.value.to)
    || q.wh <= pos < q.fill
    || q.hold == Some(pos)
  }

  ghost predicate ContInv(q: Queue) {
    forall pos: nat :: pos in q.cont <==> Live(q, pos)
  }

  ghost predicate BufInv(q: Queue)
    requires q.WellFormed()
  {
    forall pos :: pos in q.cont ==> ReadAt(q, pos) == Some(q.cont[pos])
  }

  /** What is booked and not yet moved out is still there. */
  ghost predicate ItemsInv(q: Queue) {
    q.book.Some? ==>
      var b := q.book.value;
      && b.from + |b.items| == b.to
      && forall u: nat :: b.from <= b.done <= u < b.to ==> u in q.cont && q.cont[u] == b.items[u - b.from]
  }

  ghost predicate QInv(q: Queue) {
    BoundsInv(q) && BookInv(q) && HoldInv(q) && ContInv(q) && BufInv(q) && ItemsInv(q)
  }

  lemma PutBuf(q: Queue, q': Queue, pos: nat, x: Item)
    requires BoundsInv(q) && BookInv(q) && HoldInv(q) && ContInv(q) && BufInv(q) && pos == q.fill
             && pos < q.sh + q.cap && q.hold == None
    requires q' == Put(q, pos, x)
    ensures q'.WellFormed() && BufInv(q')
  {
    forall u | u in q'.cont ensures ReadAt(q', u) == Some(q'.cont[u]) {
      if u != pos && Idx(u, q.cap) == Idx(pos, q.cap) { SameSlot(u, pos, q.cap); }
    }
  }

  lemma PutQ(q: Queue, q': Queue, pos: nat, x: Item)
    requires QInv(q) && pos == q.fill && pos < q.sh + q.cap && q.hold == None
    requires q' == Put(q, pos, x)
    ensures QInv(q')
  {
    PutBuf(q, q', pos, x);
    assert ItemsInv(q');
  }

  lemma PublishQ(q: Queue, q': Queue, t: nat)
    requires QInv(q) && t == q.fill && q' == q.(tail := t)
    ensures QInv(q')
  {
  }

  lemma PopQ(q: Queue, q': Queue)
    requires QInv(q) && q.wh != q.tail && q.fill == q.tail && q.hold == None && q' == PopHead(q)
    ensures QInv(q')
  {
  }

  lemma TakeHeldQ(q: Queue, q': Queue, pos: nat)
    requires QInv(q) && q.hold == Some(pos) && q' == TakeHeld(q, pos)
    ensures QInv(q')
  {
  }

  lemma BookQ(q: Queue, q': Queue, thief: Option<nat>, n: nat)
    requires QInv(q) && q.wh == q.sh && 1 <= n && q.wh + n <= q.tail && q' == BookItems(q, thief, n)
    ensures QInv(q')
  {
  }

  lemma TakeBookedQ(q: Queue, q': Queue, pos: nat)
    requires QInv(q) && q.book.Some? && pos == q.book.value.done && pos < q.book.value.to && q' == TakeBooked(q, pos)
    ensures QInv(q')
  {
  }

  lemma ReleaseQ(q: Queue, q': Queue)
    requires QInv(q) && q.book.Some? && q.book.value.done == q.book.value.to && q' == Release(q, q.wh)
    ensures QInv(q')
  {
  }

  // ---------- all queues ----------

  ghost predicate QsInv(qs: seq<Queue>) {
    forall i :: 0 <= i < |qs| ==> QInv(qs[i])
  }

  /** An item is at a place exactly if that place has the item. */
  ghost predicate PlaceInv(qs: seq<Queue>, loc: map<Item, Loc>) {
    && (forall x :: x in loc && loc[x].At? ==>
          loc[x].q < |qs| && loc[x].pos in qs[loc[x].q].cont && qs[loc[x].q].cont[loc[x].pos] == x)
    && (forall i, pos :: 0 <= i < |qs| && pos in qs[i].cont ==>
          qs[i].cont[pos] in loc && loc[qs[i].cont[pos]] == At(i, pos))
  }

  ghost predicate MemInv(m: Mem) {
    QsInv(m.qs) && PlaceInv(m.qs, m.loc) && |m.own| == |m.qs|
  }

  lemma SetPlace(qs: seq<Queue>, loc: map<Item, Loc>, i: nat, q: Queue)
    requires PlaceInv(qs, loc) && i < |qs| && q.cont == qs[i].cont
    ensures PlaceInv(qs[i := q], loc)
  {
  }

  lemma PutPlace(qs: seq<Queue>, loc: map<Item, Loc>, i: nat, q: Queue, pos: nat, x: Item)
    requires PlaceInv(qs, loc) && i < |qs| && pos !in qs[i].cont && q.cont == qs[i].cont[pos := x]
    requires x in loc ==> !loc[x].At?
    ensures PlaceInv(qs[i := q], loc[x := At(i, pos)])
  {
  }

  lemma TakePlace(qs: seq<Queue>, loc: map<Item, Loc>, i: nat, q: Queue, pos: nat, l: Loc)
    requires PlaceInv(qs, loc) && i < |qs| && pos in qs[i].cont && q.cont == qs[i].cont - {pos} && !l.At?
    ensures PlaceInv(qs[i := q], loc[qs[i].cont[pos] := l])
  {
  }

  // ---------- threads ----------

  /** The queue a thread is filling, and the one it has popped from without having read. */
  function Filling(pc: Pc): Option<nat> {
    match pc
    case PFill(i, _, _, _, _) => Some(i)
    case PPublish(i, _, _) => Some(i)
    case SRead(_, j, _, _, _, _, _) => Some(j)
    case SWrite(_, j, _, _, _, _, _, _) => Some(j)
    case SLast(_, j, _, _, _) => Some(j)
    case SPublish(_, j, _, _) => Some(j)
    case _ => None
  }

  function Popping(pc: Pc): Option<nat> {
    if pc.QRead? then Some(pc.i) else None
  }

  predicate NothingBut(x: Option<nat>, y: Option<nat>, z: Option<nat>) {
    x == None || x == y || x == z
  }

  /** The queues of a thread, but for those, are at rest. */
  predicate AtRest(m: Mem, p: nat, fq: Option<nat>, hq: Option<nat>) {
    forall i :: 0 <= i < |m.qs| && Owns(m, p, i) ==>
      (fq != Some(i) ==> m.qs[i].fill == m.qs[i].tail) && (hq != Some(i) ==> m.qs[i].hold == None)
  }

  /** Thread p has booked items from .. from + n of queue i and moved them out up to done. */
  predicate Booked(m: Mem, p: nat, i: nat, from: nat, n: nat, done: nat) {
    && i < |m.qs| && m.qs[i].book.Some?
    && var b := m.qs[i].book.value;
       b.thief == Some(p) && b.from == from && b.to == from + n && b.done == done && |b.items| == n
  }

  function Items(m: Mem, i: nat): seq<Item> {
    if i < |m.qs| && m.qs[i].book.Some? then m.qs[i].book.value.items else []
  }

  /** The booked items of queue i, up to k, are written into queue j from its tail dt on. */
  predicate Copied(m: Mem, i: nat, j: nat, dt: nat, k: nat) {
    && j < |m.qs| && k <= |Items(m, i)| && m.qs[j].tail == dt
    && forall pos :: dt <= pos < dt + k ==> pos in m.qs[j].cont && m.qs[j].cont[pos] == Items(m, i)[pos - dt]
  }

  /** Thread p writes at position t of its queue j, up to limit. */
  predicate Fills(m: Mem, p: nat, j: nat, t: nat, limit: nat) {
    Owns(m, p, j) && m.qs[j].fill == t <= limit <= m.qs[j].sh + m.qs[j].cap
  }

  /** What a steal remembers of its destination: a count function may have moved the tail. */
  predicate JobInv(m: Mem, p: nat, i: nat, job: Job) {
    && i < |m.qs|
    && match job
       case Steal(j, _, dt, free) => Owns(m, p, j) && dt <= m.qs[j].tail && dt + free <= m.qs[j].sh + m.qs[j].cap
       case Drain => Owns(m, p, i)
  }

  /** The tail is still where the steal will write, or the heads have moved and it will not. */
  predicate MayBook(m: Mem, i: nat, job: Job, wh: nat)
    requires i < |m.qs|
  {
    job.Steal? && job.j < |m.qs| ==> m.qs[job.j].tail == job.dt || wh < m.qs[i].wh
  }

  predicate Releases(m: Mem, p: nat, i: nat) {
    && i < |m.qs| && m.qs[i].book.Some? && m.qs[i].book.value.done == m.qs[i].book.value.to
    && (m.qs[i].book.value.thief == Some(p) || (m.qs[i].book.value.thief == None && Owns(m, p, i)))
  }

  /** What thread p relies on at pc. */
  predicate PcFacts(m: Mem, p: nat, pc: Pc) {
    match pc
    case Idle => true
    case PHeads(i, n, single) => Owns(m, p, i) && (single ==> n == 1)
    case PFill(i, n, t, limit, _) => Fills(m, p, i, t, limit) && n > 0 && t < limit
    case PPublish(i, t, _) => Fills(m, p, i, t, t)
    case QHeads(i) => Owns(m, p, i)
    case QCas(i, wh, _) => Owns(m, p, i) && wh <= m.qs[i].wh
    case QRead(i, pos) => Owns(m, p, i) && m.qs[i].hold == Some(pos)
    case SLook(i, j, _) => i < |m.qs| && Owns(m, p, j)
    case SLookTail(i, j, _, wh) => i < |m.qs| && Owns(m, p, j) && wh <= m.qs[i].wh
    case SDest(i, j, _) => i < |m.qs| && Owns(m, p, j)
    case BHeads(i, job) => JobInv(m, p, i, job)
    case BTail(i, job, wh, sh) => 
      JobInv(m, p, i, job) && sh <= wh <= sh + m.qs[i].cap && wh <= m.qs[i].wh && sh <= m.qs[i].sh
    case BCount(i, job, wh, count) =>
      JobInv(m, p, i, job) && wh <= m.qs[i].wh && wh <= m.qs[i].sh && 1 <= count && wh + count <= m.qs[i].tail
    case BCas(i, job, wh, n) =>
      && JobInv(m, p, i, job) && wh <= m.qs[i].wh && 1 <= n && wh + n <= m.qs[i].tail && MayBook(m, i, job, wh)
      && (job.Steal? ==> Moved(job.pop, n) <= job.free)
    case SRead(i, j, pop, from, n, dt, k) =>
      k < Moved(pop, n) && Booked(m, p, i, from, n, from + k) && Fills(m, p, j, dt + k, dt + Moved(pop, n))
    case SWrite(i, j, pop, from, n, dt, k, x) =>
      && k < Moved(pop, n) && Booked(m, p, i, from, n, from + k + 1) && Fills(m, p, j, dt + k, dt + Moved(pop, n))
      && x in m.loc && m.loc[x] == Held(p)
    case SLast(i, j, from, n, dt) =>
      1 <= n && Booked(m, p, i, from, n, from + n - 1) && Fills(m, p, j, dt + n - 1, dt + n - 1)
    case SPublish(i, j, dt, t) =>
      Releases(m, p, i) && m.qs[i].book.value.thief == Some(p) && Fills(m, p, j, t, t) && dt <= t
    case DNext(i) => Owns(m, p, i) && Draining(m.qs[i])
    case RHeads(i) => Releases(m, p, i)
    case RCas(i, wh, sh) => Releases(m, p, i) && sh == m.qs[i].sh && wh <= m.qs[i].wh
  }

  /** What a thief has copied so far. */
  predicate CopyFacts(m: Mem, pc: Pc) {
    match pc
    case SRead(i, j, _, _, _, dt, k) => Copied(m, i, j, dt, k)
    case SWrite(i, j, _, _, _, dt, k, x) => Copied(m, i, j, dt, k) && k < |Items(m, i)| && x == Items(m, i)[k]
    case SLast(i, j, _, n, dt) => n >= 1 && Copied(m, i, j, dt, n - 1)
    case SPublish(i, j, dt, t) => dt <= t && Copied(m, i, j, dt, t - dt)
    case _ => true
  }

  // The facts of all points make a long formula. The invariants quantify over it, so that it comes
  // into a proof only where PcPoint or CopyPoint is called.

  ghost predicate PcInv(m: Mem, p: nat, pc: Pc) {
    forall x :: x == pc ==> PcFacts(m, p, x)
  }

  ghost predicate CopyInv(m: Mem, pc: Pc) {
    forall x :: x == pc ==> CopyFacts(m, x)
  }

  lemma PcPoint(m: Mem, p: nat, pc: Pc)
    requires PcInv(m, p, pc)
    ensures PcFacts(m, p, pc)
  {
  }

  lemma CopyPoint(m: Mem, pc: Pc)
    requires CopyInv(m, pc)
    ensures CopyFacts(m, pc)
  {
  }

  ghost predicate ThreadInv(m: Mem, p: nat, pc: Pc) {
    AtRest(m, p, Filling(pc), Popping(pc)) && PcInv(m, p, pc) && CopyInv(m, pc)
  }

  /** No thread but p can tell the difference. */
  ghost predicate Kept(m: Mem, m': Mem, p: nat) {
    forall q: nat, qc :: q != p && ThreadInv(m, q, qc) ==> ThreadInv(m', q, qc)
  }

  /** Thread p may end the booking of queue i. */
  predicate MyBook(m: Mem, p: nat, i: nat)
    requires i < |m.qs|
  {
    m.qs[i].book.Some? ==> m.qs[i].book.value.thief == Some(p) || (m.qs[i].book.value.thief == None && Owns(m, p, i))
  }

  /** What the owner has written and not published stays. */
  predicate Hidden(o: Queue, q: Queue) {
    forall pos :: o.tail <= pos < o.fill && pos in o.cont ==> pos in q.cont && q.cont[pos] == o.cont[pos]
  }

  /** What thread p may do to queue i without others noticing. */
  predicate Polite(m: Mem, p: nat, i: nat, q: Queue)
    requires i < |m.qs|
  {
    var o := m.qs[i];
    && q.cap == o.cap && o.wh <= q.wh && o.sh <= q.sh && o.tail <= q.tail
    && (!Owns(m, p, i) ==> q.fill == o.fill && q.tail == o.tail && q.hold == o.hold && Hidden(o, q))
    && (!MyBook(m, p, i) ==> q.book == o.book && q.sh == o.sh)
  }

  /** What other threads hold between two queues stays in their hands. */
  ghost predicate Untouched(loc: map<Item, Loc>, loc': map<Item, Loc>, p: nat) {
    forall x :: x in loc && loc[x].Held? && loc[x].p != p ==> x in loc' && loc'[x] == loc[x]
  }

  /** Only queue i changes, politely. */
  predicate PoliteStep(m: Mem, m': Mem, p: nat, i: nat) {
    i < |m.qs| && m'.own == m.own && |m'.qs| == |m.qs| && m'.qs == m.qs[i := m'.qs[i]] && Polite(m, p, i, m'.qs[i])
  }

  lemma PoliteKept(m: Mem, m': Mem, p: nat, i: nat)
    requires PoliteStep(m, m', p, i) && Untouched(m.loc, m'.loc, p)
    ensures Kept(m, m', p)
  {
    forall q: nat, qc | q != p && ThreadInv(m, q, qc) ensures ThreadInv(m', q, qc) {
      RestKept(m, m', p, i, q, Filling(qc), Popping(qc));
      PcKept(m, m', p, i, q, qc);
      CopyKept(m, m', p, i, q, qc);
    }
  }

  /** Queue j is the destination of a thief other than p, who has booked queue i0. */
  lemma CopiedKept(m: Mem, m': Mem, p: nat, i: nat, q: nat, i0: nat, j: nat, dt: nat, k: nat)
    requires PoliteStep(m, m', p, i) && q != p && Owns(m, q, j) && m.qs[j].fill == dt + k && Copied(m, i0, j, dt, k)
    requires i0 < |m.qs| && m.qs[i0].book.Some? && m.qs[i0].book.value.thief == Some(q)
    ensures Copied(m', i0, j, dt, k) && Items(m', i0) == Items(m, i0)
  {
  }

  lemma CopyKept(m: Mem, m': Mem, p: nat, i: nat, q: nat, qc: Pc)
    requires PoliteStep(m, m', p, i) && q != p && PcInv(m, q, qc) && CopyInv(m, qc)
    ensures CopyInv(m', qc)
  {
    PcPoint(m, q, qc);
    CopyPoint(m, qc);
    match qc
    case SRead(i0, j, _, _, _, dt, k) => CopiedKept(m, m', p, i, q, i0, j, dt, k);
    case SWrite(i0, j, _, _, _, dt, k, _) => CopiedKept(m, m', p, i, q, i0, j, dt, k);
    case SLast(i0, j, _, n, dt) => CopiedKept(m, m', p, i, q, i0, j, dt, n - 1);
    case SPublish(i0, j, dt, t) => CopiedKept(m, m', p, i, q, i0, j, dt, t - dt);
    case _ =>
  }

  lemma RestKept(m: Mem, m': Mem, p: nat, i: nat, q: nat, fq: Option<nat>, hq: Option<nat>)
    requires PoliteStep(m, m', p, i) && q != p && AtRest(m, q, fq, hq)
    ensures AtRest(m', q, fq, hq)
  {
  }

  lemma PcKept(m: Mem, m': Mem, p: nat, i: nat, q: nat, qc: Pc)
    requires PoliteStep(m, m', p, i) && Untouched(m.loc, m'.loc, p) && q != p && PcInv(m, q, qc)
    ensures PcInv(m', q, qc)
  {
    PcPoint(m, q, qc);
  }

  // ---------- what a step does to the memory ----------

  /** Queue i changes to an intact one, and nothing else but the place of the item moved. */
  ghost predicate Changes(m: Mem, m': Mem, i: nat) {
    i < |m.qs| && |m'.qs| == |m.qs| && m'.qs == m.qs[i := m'.qs[i]] && m'.own == m.own && QInv(m'.qs[i])
        && PlaceInv(m'.qs, m'.loc)
  }

  lemma ChangesMem(m: Mem, m': Mem, i: nat)
    requires MemInv(m) && Changes(m, m', i)
    ensures MemInv(m')
  {
  }

  lemma PutMem(m: Mem, m': Mem, i: nat, pos: nat, x: Item)
    requires MemInv(m) && i < |m.qs| && pos == m.qs[i].fill < m.qs[i].sh + m.qs[i].cap && m.qs[i].hold == None
    requires x in m.loc ==> !m.loc[x].At?
    requires m.qs[i].WellFormed() && m' == MoveItem(m, i, Put(m.qs[i], pos, x), x, At(i, pos))
    ensures Changes(m, m', i)
  {
    PutQ(m.qs[i], m'.qs[i], pos, x);
    PutPlace(m.qs, m.loc, i, m'.qs[i], pos, x);
  }

  lemma TakeMem(m: Mem, m': Mem, i: nat, q: Queue, pos: nat, x: Item, l: Loc)
    requires MemInv(m) && i < |m.qs| && QInv(q) && pos in m.qs[i].cont && q.cont == m.qs[i].cont - {pos} && !l.At?
    requires Readable(m, i, pos) && x == ItemAt(m, i, pos) && m' == MoveItem(m, i, q, x, l)
    ensures Changes(m, m', i) && x == m.qs[i].cont[pos]
  {
    assert QInv(m.qs[i]);
    TakePlace(m.qs, m.loc, i, q, pos, l);
  }

  lemma SetMem(m: Mem, m': Mem, i: nat, q: Queue)
    requires MemInv(m) && i < |m.qs| && QInv(q) && q.cont == m.qs[i].cont && m' == SetQueue(m, i, q)
    ensures Changes(m, m', i)
  {
    SetPlace(m.qs, m.loc, i, q);
  }

  /** The slot of a live position holds the item that is there. */
  lemma TakenWasAt(m: Mem, i: nat, pos: nat)
    requires MemInv(m) && Readable(m, i, pos) && Live(m.qs[i], pos)
    ensures ItemAt(m, i, pos) in m.loc && m.loc[ItemAt(m, i, pos)] == At(i, pos)
    ensures pos in m.qs[i].cont && m.qs[i].cont[pos] == ItemAt(m, i, pos)
  {
    assert QInv(m.qs[i]);
    assert pos in m.qs[i].cont;
  }

  /** The step from m to m', taken by thread p, keeps the memory invariant and disturbs no
      other thread. */
  ghost predicate Keeps(m: Mem, m': Mem, p: nat) {
    MemInv(m) ==> MemInv(m') && Kept(m, m', p)
  }

  lemma KeepsSame(m: Mem, m': Mem, p: nat)
    requires m' == m
    ensures Keeps(m, m', p)
  {
  }

  lemma PutKeeps(m: Mem, m': Mem, p: nat, i: nat, pos: nat, limit: nat, x: Item)
    requires Fills(m, p, i, pos, limit) && pos < limit && m.qs[i].hold == None && (x in m.loc ==> m.loc[x] == Held(p))
    requires m.qs[i].WellFormed() && m' == MoveItem(m, i, Put(m.qs[i], pos, x), x, At(i, pos))
    ensures Keeps(m, m', p)
  {
    if MemInv(m) {
      PutMem(m, m', i, pos, x);
      ChangesMem(m, m', i);
      PoliteKept(m, m', p, i);
    }
  }

  lemma PublishKeeps(m: Mem, m': Mem, p: nat, i: nat, t: nat)
    requires Fills(m, p, i, t, t) && m' == SetQueue(m, i, m.qs[i].(tail := t))
    ensures Keeps(m, m', p)
  {
    if MemInv(m) {
      assert QInv(m.qs[i]);
      PublishQ(m.qs[i], m'.qs[i], t);
      SetMem(m, m', i, m'.qs[i]);
      ChangesMem(m, m', i);
      PoliteKept(m, m', p, i);
    }
  }

  lemma PopKeeps(m: Mem, m': Mem, p: nat, i: nat)
    requires Owns(m, p, i) && m.qs[i].fill == m.qs[i].tail && m.qs[i].hold == None && m.qs[i].wh != m.qs[i].tail
    requires m' == SetQueue(m, i, PopHead(m.qs[i]))
    ensures Keeps(m, m', p)
  {
    if MemInv(m) {
      assert QInv(m.qs[i]);
      PopQ(m.qs[i], m'.qs[i]);
      SetMem(m, m', i, m'.qs[i]);
      ChangesMem(m, m', i);
      PoliteKept(m, m', p, i);
    }
  }

  lemma TakeHeldKeeps(m: Mem, m': Mem, p: nat, i: nat, pos: nat)
    requires Owns(m, p, i) && m.qs[i].hold == Some(pos) && Readable(m, i, pos)
    requires m' == MoveItem(m, i, TakeHeld(m.qs[i], pos), ItemAt(m, i, pos), Out(p))
    ensures Keeps(m, m', p)
  {
    if MemInv(m) {
      TakenWasAt(m, i, pos);
      TakeHeldQ(m.qs[i], m'.qs[i], pos);
      TakeMem(m, m', i, m'.qs[i], pos, ItemAt(m, i, pos), Out(p));
      ChangesMem(m, m', i);
      PoliteKept(m, m', p, i);
    }
  }

  lemma BookKeeps(m: Mem, m': Mem, p: nat, i: nat, thief: Option<nat>, n: nat)
    requires i < |m.qs| && m.qs[i].wh == m.qs[i].sh && 1 <= n && m.qs[i].wh + n <= m.qs[i].tail
    requires m' == SetQueue(m, i, BookItems(m.qs[i], thief, n))
    ensures Keeps(m, m', p)
  {
    if MemInv(m) {
      assert QInv(m.qs[i]);
      BookQ(m.qs[i], m'.qs[i], thief, n);
      SetMem(m, m', i, m'.qs[i]);
      ChangesMem(m, m', i);
      PoliteKept(m, m', p, i);
    }
  }

  /** Thread p takes the next item of a booking of its own. */
  lemma TakeBookedKeeps(m: Mem, m': Mem, p: nat, i: nat, pos: nat, l: Loc)
    requires i < |m.qs| && MyBook(m, p, i) && m.qs[i].book.Some?
             && m.qs[i].book.value.done == pos < m.qs[i].book.value.to
    requires Readable(m, i, pos) && !l.At?
    requires m' == MoveItem(m, i, TakeBooked(m.qs[i], pos), ItemAt(m, i, pos), l)
    ensures Keeps(m, m', p)
  {
    if MemInv(m) {
      TakenWasAt(m, i, pos);
      TakeBookedQ(m.qs[i], m'.qs[i], pos);
      TakeMem(m, m', i, m'.qs[i], pos, ItemAt(m, i, pos), l);
      ChangesMem(m, m', i);
      BookedIsVisible(m, m', p, i, pos);
      PoliteKept(m, m', p, i);
    }
  }

  /** A booked position is not one that the owner has yet to publish. */
  lemma BookedIsVisible(m: Mem, m': Mem, p: nat, i: nat, pos: nat)
    requires QsInv(m.qs) && i < |m.qs| && MyBook(m, p, i) && m.qs[i].book.Some?
             && m.qs[i].book.value.done == pos < m.qs[i].book.value.to
    requires m'.own == m.own && m'.qs == m.qs[i := TakeBooked(m.qs[i], pos)]
    ensures PoliteStep(m, m', p, i)
  {
    assert QInv(m.qs[i]);
  }

  lemma EndKeeps(m: Mem, m': Mem, p: nat, i: nat)
    requires Releases(m, p, i) && m' == SetQueue(m, i, Release(m.qs[i], m.qs[i].wh))
    ensures Keeps(m, m', p)
  {
    if MemInv(m) {
      assert QInv(m.qs[i]);
      ReleaseQ(m.qs[i], m'.qs[i]);
      SetMem(m, m', i, m'.qs[i]);
      ChangesMem(m, m', i);
      PoliteKept(m, m', p, i);
    }
  }

  // ---------- one action ----------

  /** What the memory grants to a thread at pc. */
  predicate Guard(m: Mem, p: nat, pc: Pc, c: Choice) {
    match pc
    case PFill(i, _, t, limit, _) => Fills(m, p, i, t, limit) && t < limit && m.qs[i].hold == None && c.item !in m.loc
    case PPublish(i, t, _) => Fills(m, p, i, t, t)
    case QCas(i, _, _) => Owns(m, p, i) && m.qs[i].fill == m.qs[i].tail && m.qs[i].hold == None
    case QRead(i, pos) => Owns(m, p, i) && m.qs[i].hold == Some(pos)
    case BCas(i, _, wh, n) => i < |m.qs| && 1 <= n && wh + n <= m.qs[i].tail
    case SRead(i, _, _, from, n, _, k) => k < n && Booked(m, p, i, from, n, from + k)
    case SWrite(_, j, pop, _, n, dt, k, x) =>
      && Fills(m, p, j, dt + k, dt + Moved(pop, n)) && k < Moved(pop, n)
      && m.qs[j].hold == None && x in m.loc && m.loc[x] == Held(p)
    case SLast(i, _, from, n, _) => 1 <= n && Booked(m, p, i, from, n, from + n - 1)
    case SPublish(_, j, _, t) => Fills(m, p, j, t, t)
    case DNext(i) => Owns(m, p, i) && Draining(m.qs[i]) && m.qs[i].book.value.done < m.qs[i].book.value.to
    case RCas(i, _, _) => Releases(m, p, i)
    case _ => true
  }

  /** Thread p may act. */
  ghost predicate Acts(m: Mem, p: nat, pc: Pc, c: Choice) {
    Sane(m, pc) && forall x :: x == pc ==> Guard(m, p, x, c)
  }

  lemma ActPoint(m: Mem, p: nat, pc: Pc, c: Choice)
    requires Acts(m, p, pc, c)
    ensures InRange(m, pc) && Guard(m, p, pc, c)
  {
    SanePoint(m, pc);
  }

  lemma GuardHolds(m: Mem, p: nat, pc: Pc, c: Choice)
    requires QsInv(m.qs) && AtRest(m, p, Filling(pc), Popping(pc)) && PcInv(m, p, pc)
             && (pc.PFill? ==> c.item !in m.loc)
    ensures Guard(m, p, pc, c)
  {
    PcPoint(m, p, pc);
    if pc.DNext? { assert QInv(m.qs[pc.i]); }
  }

  lemma WorkerKeeps(m: Mem, m': Mem, p: nat, pc: Pc, c: Choice)
    requires Acts(m, p, pc, c) && m' == MemAfter(m, p, pc, c) && (pc.PFill? || pc.PPublish? || pc.QCas? || pc.QRead?)
    ensures Keeps(m, m', p)
  {
    ActPoint(m, p, pc, c);
    match pc
    case PFill(i, _, t, limit, _) => PutKeeps(m, m', p, i, t, limit, c.item);
    case PPublish(i, t, _) => PublishKeeps(m, m', p, i, t);
    case QCas(i, _, _) => if Pops(m, pc, c) { PopKeeps(m, m', p, i); } else { KeepsSame(m, m', p); }
    case QRead(i, pos) => TakeHeldKeeps(m, m', p, i, pos);
  }

  lemma ThiefTakes(m: Mem, m': Mem, p: nat, pc: Pc, c: Choice)
    requires Acts(m, p, pc, c) && m' == MemAfter(m, p, pc, c) && (pc.SRead? || pc.SLast? || pc.DNext?)
    ensures Keeps(m, m', p)
  {
    ActPoint(m, p, pc, c);
    match pc
    case SRead(i, _, _, from, _, _, k) => TakeBookedKeeps(m, m', p, i, from + k, Held(p));
    case SLast(i, _, from, n, _) => TakeBookedKeeps(m, m', p, i, from + n - 1, Out(p));
    case DNext(i) => TakeBookedKeeps(m, m', p, i, m.qs[i].book.value.done, Out(p));
  }

  lemma ThiefWrites(m: Mem, m': Mem, p: nat, pc: Pc, c: Choice)
    requires Acts(m, p, pc, c) && m' == MemAfter(m, p, pc, c) && (pc.SWrite? || pc.SPublish?)
    ensures Keeps(m, m', p)
  {
    ActPoint(m, p, pc, c);
    match pc
    case SWrite(_, j, pop, _, n, dt, k, x) => PutKeeps(m, m', p, j, dt + k, dt + Moved(pop, n), x);
    case SPublish(_, j, _, t) => PublishKeeps(m, m', p, j, t);
  }

  lemma HeadsKeep(m: Mem, m': Mem, p: nat, pc: Pc, c: Choice)
    requires Acts(m, p, pc, c) && m' == MemAfter(m, p, pc, c) && (pc.BCas? || pc.RCas?)
    ensures Keeps(m, m', p)
  {
    ActPoint(m, p, pc, c);
    match pc
    case BCas(i, job, _, n) =>
      if Books(m, pc, c) { BookKeeps(m, m', p, i, Thief(p, job), n); } else { KeepsSame(m, m', p); }
    case RCas(i, _, _) => if Ends(m, pc, c) { EndKeeps(m, m', p, i); } else { KeepsSame(m, m', p); }
  }

  lemma SharedStep(m: Mem, m': Mem, p: nat, pc: Pc, c: Choice)
    requires Acts(m, p, pc, c) && m' == MemAfter(m, p, pc, c)
    ensures Keeps(m, m', p)
  {
    if pc.PFill? || pc.PPublish? || pc.QCas? || pc.QRead? { WorkerKeeps(m, m', p, pc, c); }
    else if pc.SRead? || pc.SLast? || pc.DNext? { ThiefTakes(m, m', p, pc, c); }
    else if pc.SWrite? || pc.SPublish? { ThiefWrites(m, m', p, pc, c); }
    else if pc.BCas? || pc.RCas? { HeadsKeep(m, m', p, pc, c); }
    else { KeepsSame(m, m', p); }
  }

  // ---------- the acting thread ----------

  lemma LiveReadable(m: Mem, i: nat, pos: nat)
    requires QsInv(m.qs) && i < |m.qs| && Live(m.qs[i], pos)
    ensures Readable(m, i, pos)
  {
    assert QInv(m.qs[i]);
    assert pos in m.qs[i].cont;
  }

  lemma BookedReadable(m: Mem, i: nat)
    requires QsInv(m.qs) && i < |m.qs| && m.qs[i].book.Some? && m.qs[i].book.value.done != m.qs[i].book.value.to
    ensures Readable(m, i, m.qs[i].book.value.done)
  {
    assert QInv(m.qs[i]);
    LiveReadable(m, i, m.qs[i].book.value.done);
  }

  lemma ReadsSane(m: Mem, p: nat, pc: Pc)
    requires QsInv(m.qs) && PcInv(m, p, pc) && (pc.QRead? || pc.SRead? || pc.SLast? || pc.DNext?)
    ensures Sane(m, pc)
  {
    PcPoint(m, p, pc);
    if pc.QRead? { LiveReadable(m, pc.i, pc.pos); } else { BookedReadable(m, pc.i); }
  }

  lemma AlwaysSane(m: Mem, p: nat, pc: Pc)
    requires QsInv(m.qs) && PcInv(m, p, pc)
    ensures Sane(m, pc)
  {
    if pc.QRead? || pc.SRead? || pc.SLast? || pc.DNext? { ReadsSane(m, p, pc); }
    else {
      PcPoint(m, p, pc);
      if pc.SDest? || pc.SWrite? { assert QInv(m.qs[pc.j]); }
      else if pc.BTail? || pc.PFill? { assert QInv(m.qs[pc.i]); }
    }
  }

  /** A change of queue i, and of what the thread is up to, leaves its queues at rest. */
  lemma RestAfter(m: Mem, m': Mem, p: nat, i: nat, pc: Pc, pc': Pc)
    requires AtRest(m, p, Filling(pc), Popping(pc)) && m'.own == m.own && |m'.qs| == |m.qs| && i < |m.qs|
    requires m'.qs == m.qs[i := m'.qs[i]]
    requires NothingBut(Filling(pc), Some(i), Filling(pc')) && NothingBut(Popping(pc), Some(i), Popping(pc'))
    requires Owns(m, p, i) ==> (Filling(pc') != Some(i) ==> m'.qs[i].fill == m'.qs[i].tail)
    requires Owns(m, p, i) ==> (Popping(pc') != Some(i) ==> m'.qs[i].hold == None)
    ensures AtRest(m', p, Filling(pc'), Popping(pc'))
  {
  }

  lemma RestSame(m: Mem, p: nat, pc: Pc, pc': Pc)
    requires AtRest(m, p, Filling(pc), Popping(pc))
    requires NothingBut(Filling(pc), None, Filling(pc')) && NothingBut(Popping(pc), None, Popping(pc'))
    ensures AtRest(m, p, Filling(pc'), Popping(pc'))
  {
  }

  /** Thread p is at rest but for what pc says. */
  ghost predicate Rests(m: Mem, p: nat, pc: Pc) {
    AtRest(m, p, Filling(pc), Popping(pc))
  }

  lemma RestWorker(m: Mem, m': Mem, p: nat, pc: Pc, c: Choice)
    requires Acts(m, p, pc, c) && Rests(m, p, pc) && InWorker(pc) && m' == MemAfter(m, p, pc, c)
    ensures Rests(m', p, WorkerPc(m, pc, c))
  {
    ActPoint(m, p, pc, c);
    var pc' := WorkerPc(m, pc, c);
    if pc.PFill? || pc.PPublish? || pc.QRead? { RestAfter(m, m', p, pc.i, pc, pc'); }
    else if pc.QCas? && Pops(m, pc, c) { RestAfter(m, m', p, pc.i, pc, pc'); }
    else { RestSame(m, p, pc, pc'); }
  }

  lemma RestBook(m: Mem, m': Mem, p: nat, pc: Pc, c: Choice)
    requires Acts(m, p, pc, c) && Rests(m, p, pc) && InBook(pc) && m' == MemAfter(m, p, pc, c)
    ensures Rests(m', p, BookPc(m, pc, c))
  {
    ActPoint(m, p, pc, c);
    var pc' := BookPc(m, pc, c);
    if pc.BCas? && Books(m, pc, c) { RestAfter(m, m', p, pc.i, pc, pc'); }
    else { RestSame(m, p, pc, pc'); }
  }

  lemma RestMove(m: Mem, m': Mem, p: nat, pc: Pc, c: Choice)
    requires Acts(m, p, pc, c) && Rests(m, p, pc) && !InWorker(pc) && !InBook(pc) && m' == MemAfter(m, p, pc, c)
    ensures Rests(m', p, MovePc(m, pc, c))
  {
    ActPoint(m, p, pc, c);
    var pc' := MovePc(m, pc, c);
    if pc.SRead? || pc.SLast? || pc.DNext? { RestAfter(m, m', p, pc.i, pc, pc'); }
    else if pc.SWrite? || pc.SPublish? { RestAfter(m, m', p, pc.j, pc, pc'); }
    else if pc.RCas? && Ends(m, pc, c) { RestAfter(m, m', p, pc.i, pc, pc'); }
    else { RestSame(m, p, pc, pc'); }
  }

  lemma OwnWorker(m: Mem, m': Mem, p: nat, pc: Pc, c: Choice)
    requires QsInv(m.qs) && Acts(m, p, pc, c) && Rests(m, p, pc) && PcInv(m, p, pc) && InWorker(pc)
             && m' == MemAfter(m, p, pc, c)
    ensures PcInv(m', p, WorkerPc(m, pc, c))
  {
    PcPoint(m, p, pc);
    ActPoint(m, p, pc, c);
    if pc.PHeads? { assert QInv(m.qs[pc.i]); }
  }

  lemma OwnLook(m: Mem, p: nat, pc: Pc, c: Choice)
    requires QsInv(m.qs) && Sane(m, pc) && PcInv(m, p, pc)
    requires pc.SLook? || pc.SLookTail? || pc.SDest? || pc.BHeads? || pc.BTail? || pc.BCount?
    ensures PcInv(m, p, BookPc(m, pc, c))
  {
    PcPoint(m, p, pc);
    SanePoint(m, pc);
    if pc.SDest? { assert QInv(m.qs[pc.j]); } else { assert QInv(m.qs[pc.i]); }
  }

  lemma OwnBook(m: Mem, m': Mem, p: nat, pc: Pc, c: Choice)
    requires QsInv(m.qs) && Acts(m, p, pc, c) && Rests(m, p, pc) && PcInv(m, p, pc) && pc.BCas?
             && m' == MemAfter(m, p, pc, c)
    ensures PcInv(m', p, BookPc(m, pc, c))
  {
    PcPoint(m, p, pc);
    ActPoint(m, p, pc, c);
    assert QInv(m.qs[pc.i]);
  }

  lemma OwnMove(m: Mem, m': Mem, p: nat, pc: Pc, c: Choice)
    requires Acts(m, p, pc, c) && PcInv(m, p, pc) && (pc.SRead? || pc.SWrite? || pc.SLast?)
             && m' == MemAfter(m, p, pc, c)
    ensures PcInv(m', p, MovePc(m, pc, c))
  {
    PcPoint(m, p, pc);
    ActPoint(m, p, pc, c);
  }

  lemma OwnEnd(m: Mem, m': Mem, p: nat, pc: Pc, c: Choice)
    requires QsInv(m.qs) && Acts(m, p, pc, c) && PcInv(m, p, pc) && m' == MemAfter(m, p, pc, c)
    requires pc == Idle || pc.SPublish? || pc.DNext? || pc.RHeads? || pc.RCas?
    ensures PcInv(m', p, MovePc(m, pc, c))
  {
    PcPoint(m, p, pc);
    ActPoint(m, p, pc, c);
  }

  lemma CopyRead(m: Mem, m': Mem, i: nat, j: nat, pos: nat, x: Item, l: Loc, dt: nat, k: nat)
    requires QsInv(m.qs) && i < |m.qs| && j < |m.qs| && m.qs[i].book.Some?
             && m.qs[i].book.value.done == pos < m.qs[i].book.value.to
    requires Copied(m, i, j, dt, k) && m' == MoveItem(m, i, TakeBooked(m.qs[i], pos), x, l)
    ensures Copied(m', i, j, dt, k) && Items(m', i) == Items(m, i)
  {
    assert QInv(m.qs[i]) && QInv(m.qs[j]);
  }

  lemma CopyWrite(m: Mem, m': Mem, i: nat, j: nat, x: Item, dt: nat, k: nat)
    requires i < |m.qs| && j < |m.qs| && m.qs[j].WellFormed() && Copied(m, i, j, dt, k) && k < |Items(m, i)|
             && x == Items(m, i)[k]
    requires m' == MoveItem(m, j, Put(m.qs[j], dt + k, x), x, At(j, dt + k))
    ensures Copied(m', i, j, dt, k + 1) && Items(m', i) == Items(m, i)
  {
  }

  /** The next booked item is the one that is read. */
  lemma NextItem(m: Mem, i: nat, pos: nat)
    requires MemInv(m) && i < |m.qs| && m.qs[i].book.Some? && m.qs[i].book.value.done == pos < m.qs[i].book.value.to
             && Readable(m, i, pos)
    ensures pos - m.qs[i].book.value.from < |Items(m, i)|
            && ItemAt(m, i, pos) == Items(m, i)[pos - m.qs[i].book.value.from]
  {
    assert QInv(m.qs[i]);
    TakenWasAt(m, i, pos);
  }

  lemma OwnCopyRead(m: Mem, m': Mem, p: nat, pc: Pc, c: Choice)
    requires MemInv(m) && Acts(m, p, pc, c) && pc.SRead? && CopyInv(m, pc) && m' == MemAfter(m, p, pc, c)
    ensures CopyInv(m', MovePc(m, pc, c))
  {
    CopyPoint(m, pc);
    ActPoint(m, p, pc, c);
    var pos := pc.from + pc.k;
    NextItem(m, pc.i, pos);
    CopyRead(m, m', pc.i, pc.j, pos, ItemAt(m, pc.i, pos), Held(p), pc.dt, pc.k);
  }

  lemma OwnCopyLast(m: Mem, m': Mem, p: nat, pc: Pc, c: Choice)
    requires QsInv(m.qs) && Acts(m, p, pc, c) && pc.SLast? && CopyInv(m, pc) && m' == MemAfter(m, p, pc, c)
    ensures CopyInv(m', MovePc(m, pc, c))
  {
    CopyPoint(m, pc);
    ActPoint(m, p, pc, c);
    var pos := pc.from + pc.n - 1;
    CopyRead(m, m', pc.i, pc.j, pos, ItemAt(m, pc.i, pos), Out(p), pc.dt, pc.n - 1);
  }

  lemma OwnCopyWrite(m: Mem, m': Mem, p: nat, pc: Pc, c: Choice)
    requires Acts(m, p, pc, c) && PcInv(m, p, pc) && CopyInv(m, pc) && pc.SWrite? && m' == MemAfter(m, p, pc, c)
    ensures CopyInv(m', MovePc(m, pc, c))
  {
    PcPoint(m, p, pc);
    CopyPoint(m, pc);
    ActPoint(m, p, pc, c);
    CopyWrite(m, m', pc.i, pc.j, pc.x, pc.dt, pc.k);
  }

  /** Other threads have copied nothing. */
  predicate Copies(pc: Pc) {
    pc.SRead? || pc.SWrite? || pc.SLast? || pc.SPublish?
  }

  lemma NoCopy(m: Mem, pc: Pc)
    requires !Copies(pc)
    ensures CopyInv(m, pc)
  {
  }

  lemma OwnCopyStart(m: Mem, m': Mem, p: nat, pc: Pc, c: Choice)
    requires Acts(m, p, pc, c) && PcInv(m, p, pc) && InBook(pc) && m' == MemAfter(m, p, pc, c)
    ensures CopyInv(m', BookPc(m, pc, c))
  {
    PcPoint(m, p, pc);
    ActPoint(m, p, pc, c);
  }

  lemma OwnMoving(m: Mem, m': Mem, p: nat, pc: Pc, c: Choice)
    requires MemInv(m) && Acts(m, p, pc, c) && PcInv(m, p, pc) && CopyInv(m, pc) && !InWorker(pc) && !InBook(pc)
    requires m' == MemAfter(m, p, pc, c)
    ensures PcInv(m', p, MovePc(m, pc, c)) && CopyInv(m', MovePc(m, pc, c))
  {
    if pc.SRead? || pc.SWrite? || pc.SLast? { OwnMove(m, m', p, pc, c); } else { OwnEnd(m, m', p, pc, c); }
    if pc.SRead? { OwnCopyRead(m, m', p, pc, c); }
    else if pc.SLast? { OwnCopyLast(m, m', p, pc, c); }
    else if pc.SWrite? { OwnCopyWrite(m, m', p, pc, c); }
    else { NoCopy(m', MovePc(m, pc, c)); }
  }

  lemma OwnStep(m: Mem, m': Mem, p: nat, pc: Pc, c: Choice)
    requires MemInv(m) && Acts(m, p, pc, c) && ThreadInv(m, p, pc) && m' == MemAfter(m, p, pc, c)
    ensures ThreadInv(m', p, PcAfter(m, pc, c))
  {
    if InWorker(pc) {
      RestWorker(m, m', p, pc, c);
      OwnWorker(m, m', p, pc, c);
      NoCopy(m', WorkerPc(m, pc, c));
    } else if InBook(pc) {
      RestBook(m, m', p, pc, c);
      if pc.BCas? { OwnBook(m, m', p, pc, c); } else { OwnLook(m, p, pc, c); }
      OwnCopyStart(m, m', p, pc, c);
    } else {
      RestMove(m, m', p, pc, c);
      OwnMoving(m, m', p, pc, c);
    }
  }

  // ---------- work in progress has its thread ----------

  /** The queue whose booking a thread works on. */
  function Working(pc: Pc): Option<nat> {
    match pc
    case SRead(i, _, _, _, _, _, _) => Some(i)
    case SWrite(i, _, _, _, _, _, _, _) => Some(i)
    case SLast(i, _, _, _, _) => Some(i)
    case SPublish(i, _, _, _) => Some(i)
    case RHeads(i) => Some(i)
    case RCas(i, _, _) => Some(i)
    case _ => None
  }

  /** The item between two queues that a thread holds. */
  function Holding(pc: Pc): Option<Item> {
    if pc.SWrite? then Some(pc.x) else None
  }

  /** Every booking by a thief, and every drain with no item left, is some thread's work. */
  ghost predicate WorkersInv(qs: seq<Queue>, own: seq<nat>, pcs: seq<Pc>) {
    && (forall i :: 0 <= i < |qs| && qs[i].book.Some? && qs[i].book.value.thief.Some? ==>
          qs[i].book.value.thief.value < |pcs| && Working(pcs[qs[i].book.value.thief.value]) == Some(i))
    && (forall i :: 0 <= i < |qs| && i < |own| && qs[i].book.Some? && qs[i].book.value.thief.None?
                    && !Draining(qs[i]) ==>
          own[i] < |pcs| && Working(pcs[own[i]]) == Some(i))
  }

  ghost predicate HeldInv(loc: map<Item, Loc>, pcs: seq<Pc>) {
    forall x :: x in loc && loc[x].Held? ==> loc[x].p < |pcs| && Holding(pcs[loc[x].p]) == Some(x)
  }

  ghost predicate DutyInv(m: Mem, pcs: seq<Pc>) {
    WorkersInv(m.qs, m.own, pcs) && HeldInv(m.loc, pcs)
  }

  lemma HeldSame(loc: map<Item, Loc>, pcs: seq<Pc>, p: nat, pc: Pc)
    requires HeldInv(loc, pcs) && p < |pcs| && (Holding(pcs[p]).Some? ==> Holding(pc) == Holding(pcs[p]))
    ensures HeldInv(loc, pcs[p := pc])
  {
  }

  lemma HeldMoved(loc: map<Item, Loc>, pcs: seq<Pc>, p: nat, pc: Pc, x: Item, l: Loc)
    requires HeldInv(loc, pcs) && p < |pcs| && (Holding(pcs[p]) == None || Holding(pcs[p]) == Some(x))
    requires l.Held? ==> l.p == p && Holding(pc) == Some(x)
    ensures HeldInv(loc[x := l], pcs[p := pc])
  {
  }

  lemma WorkersSame(qs: seq<Queue>, own: seq<nat>, pcs: seq<Pc>, p: nat, pc: Pc)
    requires WorkersInv(qs, own, pcs) && p < |pcs| && (Working(pcs[p]).Some? ==> Working(pc) == Working(pcs[p]))
    ensures WorkersInv(qs, own, pcs[p := pc])
  {
  }

  /** The work on queue i, before and after, is thread p's. */
  lemma WorkersMoved(qs: seq<Queue>, own: seq<nat>, pcs: seq<Pc>, p: nat, pc: Pc, i: nat, q: Queue)
    requires WorkersInv(qs, own, pcs) && p < |pcs| && i < |qs| && i < |own|
    requires NothingBut(Working(pcs[p]), Some(i), Working(pc))
    requires q.book.Some? ==>
               q.book == qs[i].book || q.book.value.thief == Some(p) || (q.book.value.thief == None && own[i] == p)
    requires q.book.Some? && q.book.value.thief == Some(p) ==> Working(pc) == Some(i)
    requires q.book.Some? && q.book.value.thief == None && own[i] == p && !Draining(q) ==> Working(pc) == Some(i)
    ensures WorkersInv(qs[i := q], own, pcs[p := pc])
  {
  }

  lemma DutySame(m: Mem, pcs: seq<Pc>, p: nat, pc: Pc)
    requires DutyInv(m, pcs) && p < |pcs| && Holding(pcs[p]) == None
             && (Working(pcs[p]).Some? ==> Working(pc) == Working(pcs[p]))
    ensures DutyInv(m, pcs[p := pc])
  {
    HeldSame(m.loc, pcs, p, pc);
    WorkersSame(m.qs, m.own, pcs, p, pc);
  }

  /** A step that changes the book of no queue, outside of a steal. */
  lemma WorkersPlain(qs: seq<Queue>, own: seq<nat>, pcs: seq<Pc>, p: nat, pc: Pc, i: nat, q: Queue)
    requires WorkersInv(qs, own, pcs) && p < |pcs| && i < |qs| && i < |own| && q.book == qs[i].book
    requires Working(pcs[p]).Some? ==> Working(pc) == Working(pcs[p])
    ensures WorkersInv(qs[i := q], own, pcs[p := pc])
  {
  }

  lemma DutyWorker(m: Mem, m': Mem, pcs: seq<Pc>, p: nat, c: Choice)
    requires DutyInv(m, pcs) && |m.own| == |m.qs| && p < |pcs| && Acts(m, p, pcs[p], c)
    requires InWorker(pcs[p]) && m' == MemAfter(m, p, pcs[p], c)
    ensures DutyInv(m', pcs[p := WorkerPc(m, pcs[p], c)])
  {
    ActPoint(m, p, pcs[p], c);
    var pc, pc' := pcs[p], WorkerPc(m, pcs[p], c);
    match pc
    case PFill(i, _, t, _, _) =>
      HeldMoved(m.loc, pcs, p, pc', c.item, At(i, t));
      WorkersPlain(m.qs, m.own, pcs, p, pc', i, m'.qs[i]);
    case QRead(i, pos) =>
      HeldMoved(m.loc, pcs, p, pc', ItemAt(m, i, pos), Out(p));
      WorkersPlain(m.qs, m.own, pcs, p, pc', i, m'.qs[i]);
    case PPublish(i, _, _) =>
      HeldSame(m.loc, pcs, p, pc');
      WorkersPlain(m.qs, m.own, pcs, p, pc', i, m'.qs[i]);
    case QCas(i, _, _) =>
      HeldSame(m.loc, pcs, p, pc');
      if Pops(m, pc, c) { WorkersPlain(m.qs, m.own, pcs, p, pc', i, m'.qs[i]); }
      else { WorkersSame(m.qs, m.own, pcs, p, pc'); }
    case _ => DutySame(m, pcs, p, pc');
  }

  lemma DutyBook(m: Mem, m': Mem, pcs: seq<Pc>, p: nat, c: Choice)
    requires DutyInv(m, pcs) && |m.own| == |m.qs| && p < |pcs| && Acts(m, p, pcs[p], c) && PcInv(m, p, pcs[p])
    requires InBook(pcs[p]) && m' == MemAfter(m, p, pcs[p], c)
    ensures DutyInv(m', pcs[p := BookPc(m, pcs[p], c)])
  {
    ActPoint(m, p, pcs[p], c);
    PcPoint(m, p, pcs[p]);
    var pc, pc' := pcs[p], BookPc(m, pcs[p], c);
    if pc.BCas? && Books(m, pc, c) {
      HeldSame(m.loc, pcs, p, pc');
      WorkersMoved(m.qs, m.own, pcs, p, pc', pc.i, m'.qs[pc.i]);
    } else {
      DutySame(m, pcs, p, pc');
    }
  }

  /** Thread p takes the next item of its booking of queue i. */
  lemma DutyTaken(m: Mem, m': Mem, pcs: seq<Pc>, p: nat, i: nat, pos: nat, x: Item, l: Loc, pc: Pc)
    requires DutyInv(m, pcs) && |m.own| == |m.qs| && p < |pcs| && i < |m.qs| && m.qs[i].book.Some?
    requires m' == MoveItem(m, i, TakeBooked(m.qs[i], pos), x, l)
    requires Holding(pcs[p]) == None && NothingBut(Working(pcs[p]), Some(i), Working(pc))
    requires l.Held? ==> l.p == p && Holding(pc) == Some(x)
    requires MyBook(m, p, i) && (Working(pc) == Some(i) || Draining(m'.qs[i]))
    ensures DutyInv(m', pcs[p := pc])
  {
    HeldMoved(m.loc, pcs, p, pc, x, l);
    WorkersMoved(m.qs, m.own, pcs, p, pc, i, m'.qs[i]);
  }

  lemma DutyRead(m: Mem, m': Mem, pcs: seq<Pc>, p: nat, c: Choice)
    requires DutyInv(m, pcs) && |m.own| == |m.qs| && p < |pcs| && Acts(m, p, pcs[p], c)
    requires pcs[p].SRead? && m' == MemAfter(m, p, pcs[p], c)
    ensures DutyInv(m', pcs[p := MovePc(m, pcs[p], c)])
  {
    ActPoint(m, p, pcs[p], c);
    var pc := pcs[p];
    DutyTaken(m, m', pcs, p, pc.i, pc.from + pc.k, ItemAt(m, pc.i, pc.from + pc.k), Held(p), MovePc(m, pc, c));
  }

  lemma DutyLast(m: Mem, m': Mem, pcs: seq<Pc>, p: nat, c: Choice)
    requires DutyInv(m, pcs) && |m.own| == |m.qs| && p < |pcs| && Acts(m, p, pcs[p], c)
    requires pcs[p].SLast? && m' == MemAfter(m, p, pcs[p], c)
    ensures DutyInv(m', pcs[p := MovePc(m, pcs[p], c)])
  {
    ActPoint(m, p, pcs[p], c);
    var pc := pcs[p];
    DutyTaken(m, m', pcs, p, pc.i, pc.from + pc.n - 1, ItemAt(m, pc.i, pc.from + pc.n - 1), Out(p), MovePc(m, pc, c));
  }

  lemma DutyNext(m: Mem, m': Mem, pcs: seq<Pc>, p: nat, c: Choice)
    requires DutyInv(m, pcs) && |m.own| == |m.qs| && p < |pcs| && Acts(m, p, pcs[p], c)
    requires pcs[p].DNext? && m' == MemAfter(m, p, pcs[p], c)
    ensures DutyInv(m', pcs[p := MovePc(m, pcs[p], c)])
  {
    ActPoint(m, p, pcs[p], c);
    var i := pcs[p].i;
    var pos := m.qs[i].book.value.done;
    DutyTaken(m, m', pcs, p, i, pos, ItemAt(m, i, pos), Out(p), MovePc(m, pcs[p], c));
  }

  lemma DutyMove(m: Mem, m': Mem, pcs: seq<Pc>, p: nat, c: Choice)
    requires DutyInv(m, pcs) && |m.own| == |m.qs| && p < |pcs| && Acts(m, p, pcs[p], c)
    requires (pcs[p].SWrite? || pcs[p].SPublish? || pcs[p].RHeads? || pcs[p].RCas?) && m' == MemAfter(m, p, pcs[p], c)
    ensures DutyInv(m', pcs[p := MovePc(m, pcs[p], c)])
  {
    ActPoint(m, p, pcs[p], c);
    var pc, pc' := pcs[p], MovePc(m, pcs[p], c);
    match pc
    case SWrite(_, j, _, _, _, dt, k, x) =>
      HeldMoved(m.loc, pcs, p, pc', x, At(j, dt + k));
      WorkersPlain(m.qs, m.own, pcs, p, pc', j, m'.qs[j]);
    case SPublish(_, j, _, _) =>
      HeldSame(m.loc, pcs, p, pc');
      WorkersPlain(m.qs, m.own, pcs, p, pc', j, m'.qs[j]);
    case RCas(i, _, _) =>
      if Ends(m, pc, c) {
        HeldSame(m.loc, pcs, p, pc');
        WorkersMoved(m.qs, m.own, pcs, p, pc', i, m'.qs[i]);
      } else {
        DutySame(m, pcs, p, pc');
      }
    case _ => DutySame(m, pcs, p, pc');
  }

  lemma DutyStep(m: Mem, m': Mem, pcs: seq<Pc>, p: nat, c: Choice)
    requires DutyInv(m, pcs) && |m.own| == |m.qs| && p < |pcs| && Acts(m, p, pcs[p], c) && PcInv(m, p, pcs[p])
             && pcs[p] != Idle
    requires m' == MemAfter(m, p, pcs[p], c)
    ensures DutyInv(m', pcs[p := PcAfter(m, pcs[p], c)])
  {
    if InWorker(pcs[p]) { DutyWorker(m, m', pcs, p, c); }
    else if InBook(pcs[p]) { DutyBook(m, m', pcs, p, c); }
    else if pcs[p].SRead? { DutyRead(m, m', pcs, p, c); }
    else if pcs[p].SLast? { DutyLast(m, m', pcs, p, c); }
    else if pcs[p].DNext? { DutyNext(m, m', pcs, p, c); }
    else { DutyMove(m, m', pcs, p, c); }
  }

  // ---------- the whole state ----------

  ghost predicate ThreadsInv(m: Mem, pcs: seq<Pc>) {
    forall p :: 0 <= p < |pcs| ==> ThreadInv(m, p, pcs[p])
  }

  /** Every call that waits for its callback is at its count function. */
  ghost predicate WaitInv(m: Mem, p: nat, calls: seq<Pc>) {
    forall k :: 0 <= k < |calls| ==> calls[k].BCount? && PcInv(m, p, calls[k])
  }

  ghost predicate CallsInv(m: Mem, calls: seq<seq<Pc>>) {
    forall p :: 0 <= p < |calls| ==> WaitInv(m, p, calls[p])
  }

  /** Every worker handle is some thread's. */
  predicate OwnersInv(own: seq<nat>, threads: nat) {
    forall i :: 0 <= i < |own| ==> own[i] < threads
  }

  ghost predicate Inv(s: State) {
    && MemInv(s.m) && ThreadsInv(s.m, s.pcs) && DutyInv(s.m, s.pcs)
    && |s.calls| == |s.pcs| && CallsInv(s.m, s.calls) && OwnersInv(s.m.own, |s.pcs|)
  }

  lemma MayAct(m: Mem, p: nat, pc: Pc, c: Choice)
    requires MemInv(m) && ThreadInv(m, p, pc) && (pc.PFill? ==> c.item !in m.loc)
    ensures Acts(m, p, pc, c)
  {
    AlwaysSane(m, p, pc);
    GuardHolds(m, p, pc, c);
  }

  lemma ThreadsStep(m: Mem, m': Mem, pcs: seq<Pc>, p: nat, pc: Pc)
    requires ThreadsInv(m, pcs) && p < |pcs| && Kept(m, m', p) && ThreadInv(m', p, pc)
    ensures ThreadsInv(m', pcs[p := pc])
  {
    var pcs' := pcs[p := pc];
    forall q | 0 <= q < |pcs'| ensures ThreadInv(m', q, pcs'[q]) {
      if q != p { assert ThreadInv(m, q, pcs[q]); }
    }
  }

  predicate GrowsTo(o: Queue, q: Queue) {
    q.cap == o.cap && o.sh <= q.sh && o.wh <= q.wh && o.tail <= q.tail
  }

  /** No step takes a position back. */
  predicate Grows(m: Mem, m': Mem) {
    && m'.own == m.own && |m'.qs| == |m.qs|
    && forall i :: 0 <= i < |m.qs| ==> GrowsTo(m.qs[i], m'.qs[i])
  }

  predicate MovesTail(pc: Pc) {
    pc.PPublish? || pc.SPublish?
  }

  lemma TailGrows(m: Mem, m': Mem, p: nat, pc: Pc, c: Choice)
    requires QsInv(m.qs) && Acts(m, p, pc, c) && MovesTail(pc) && m' == MemAfter(m, p, pc, c)
    ensures Grows(m, m')
  {
    ActPoint(m, p, pc, c);
    if pc.PPublish? { assert QInv(m.qs[pc.i]); } else { assert QInv(m.qs[pc.j]); }
  }

  lemma HeadsGrow(m: Mem, m': Mem, p: nat, pc: Pc, c: Choice)
    requires QsInv(m.qs) && Acts(m, p, pc, c) && (pc.QCas? || pc.BCas? || pc.RCas?) && m' == MemAfter(m, p, pc, c)
    ensures Grows(m, m')
  {
    ActPoint(m, p, pc, c);
    assert QInv(m.qs[pc.i]);
  }

  lemma StepGrows(m: Mem, m': Mem, p: nat, pc: Pc, c: Choice)
    requires QsInv(m.qs) && Acts(m, p, pc, c) && m' == MemAfter(m, p, pc, c)
    ensures Grows(m, m')
  {
    if MovesTail(pc) { TailGrows(m, m', p, pc, c); }
    else if pc.QCas? || pc.BCas? || pc.RCas? { HeadsGrow(m, m', p, pc, c); }
    else { SanePoint(m, pc); }
  }

  lemma WaitKept(m: Mem, m': Mem, p: nat, pc: Pc)
    requires Grows(m, m') && pc.BCount? && PcInv(m, p, pc)
    ensures PcInv(m', p, pc)
  {
    PcPoint(m, p, pc);
  }

  lemma CallsKept(m: Mem, m': Mem, calls: seq<seq<Pc>>)
    requires Grows(m, m') && CallsInv(m, calls)
    ensures CallsInv(m', calls)
  {
    forall p, k | 0 <= p < |calls| && 0 <= k < |calls[p]|
      ensures calls[p][k].BCount? && PcInv(m', p, calls[p][k])
    {
      assert WaitInv(m, p, calls[p]);
      WaitKept(m, m', p, calls[p][k]);
    }
  }

  lemma GoKeeps(s: State, p: nat, c: Choice)
    requires Inv(s) && Enabled(s, Go(p, c)) && Sane(s.m, s.pcs[p])
    ensures Inv(Apply(s, Go(p, c)))
  {
    var m, m', pc, pc' := s.m, MemAfter(s.m, p, s.pcs[p], c), s.pcs[p], PcAfter(s.m, s.pcs[p], c);
    assert ThreadInv(m, p, pc);
    MayAct(m, p, pc, c);
    SharedStep(m, m', p, pc, c);
    OwnStep(m, m', p, pc, c);
    ThreadsStep(m, m', s.pcs, p, pc');
    DutyStep(m, m', s.pcs, p, c);
    StepGrows(m, m', p, pc, c);
    CallsKept(m, m', s.calls);
  }

  lemma StartFacts(s: State, a: Action)
    requires Enabled(s, a) && Starts(a) && AtRest(s.m, a.p, None, None)
    ensures ThreadInv(s.m, a.p, StartPc(a))
  {
    assert Rests(s.m, a.p, StartPc(a));
  }

  /** Thread p, which works on nothing, turns to something else. */
  lemma TurnKeeps(m: Mem, pcs: seq<Pc>, p: nat, pc: Pc)
    requires ThreadsInv(m, pcs) && DutyInv(m, pcs) && p < |pcs| && Working(pcs[p]) == None && Holding(pcs[p]) == None
    requires ThreadInv(m, p, pc)
    ensures ThreadsInv(m, pcs[p := pc]) && DutyInv(m, pcs[p := pc])
  {
    KeepsSame(m, m, p);
    ThreadsStep(m, m, pcs, p, pc);
    DutySame(m, pcs, p, pc);
  }

  lemma StartKeeps(s: State, a: Action)
    requires Inv(s) && Enabled(s, a) && Starts(a) && Sane(s.m, s.pcs[a.p])
    ensures Inv(Apply(s, a))
  {
    assert ThreadInv(s.m, a.p, s.pcs[a.p]);
    StartFacts(s, a);
    TurnKeeps(s.m, s.pcs, a.p, StartPc(a));
  }

  lemma CallKeeps(s: State, p: nat)
    requires Inv(s) && Enabled(s, Call(p)) && Sane(s.m, s.pcs[p])
    ensures Inv(Apply(s, Call(p)))
  {
    assert ThreadInv(s.m, p, s.pcs[p]);
    TurnKeeps(s.m, s.pcs, p, Idle);
    assert WaitInv(s.m, p, s.calls[p] + [s.pcs[p]]);
  }

  lemma AnswerFacts(m: Mem, p: nat, pc: Pc, wanted: nat)
    requires MemInv(m) && pc.BCount? && PcInv(m, p, pc) && !BooksBlindly(m, pc, wanted)
    ensures PcInv(m, p, Resumed(pc, wanted))
  {
    PcPoint(m, p, pc);
    assert QInv(m.qs[pc.i]);
  }

  lemma ReturnKeeps(s: State, p: nat, wanted: nat)
    requires Inv(s) && Enabled(s, Return(p, wanted)) && !Harmful(s, Return(p, wanted)) && Sane(s.m, s.pcs[p])
    ensures Inv(Apply(s, Return(p, wanted)))
  {
    var pc := Waiting(s, p);
    assert ThreadInv(s.m, p, s.pcs[p]);
    assert WaitInv(s.m, p, s.calls[p]);
    AnswerFacts(s.m, p, pc, wanted);
    assert ThreadInv(s.m, p, Resumed(pc, wanted));
    TurnKeeps(s.m, s.pcs, p, Resumed(pc, wanted));
    assert WaitInv(s.m, p, s.calls[p][..|s.calls[p]| - 1]);
  }

  /** Every action keeps the invariant, but for the harmful callbacks, and none is undefined. */
  lemma InvStep(s: State, a: Action)
    requires Inv(s) && Enabled(s, a)
    ensures Sane(s.m, s.pcs[a.p]) && (!Harmful(s, a) ==> Inv(Apply(s, a)))
  {
    assert ThreadInv(s.m, a.p, s.pcs[a.p]);
    AlwaysSane(s.m, a.p, s.pcs[a.p]);
    match a
    case Go(p, c) => GoKeeps(s, p, c);
    case Call(p) => CallKeeps(s, p);
    case Return(p, wanted) => if !Harmful(s, a) { ReturnKeeps(s, p, wanted); }
    case IterPush(_) =>
    case _ => StartKeeps(s, a);
  }

  lemma InitInv(caps: seq<nat>, own: seq<nat>, threads: nat)
    requires |own| == |caps| && OwnersInv(own, threads) && forall i :: 0 <= i < |caps| ==> caps[i] > 0
    ensures Inv(Initial(caps, own, threads))
  {
    forall i | 0 <= i < |caps| ensures QInv(EmptyQueue(caps[i])) {
    }
  }

  lemma InvNext(s: State, t: State)
    requires Inv(s) && Next(s, t)
    ensures Inv(t)
  {
    var a :| Enabled(s, a) && Sane(s.m, s.pcs[a.p]) && !Harmful(s, a) && t == Apply(s, a);
    InvStep(s, a);
  }

  lemma {:induction false} RunKeepsInv(r: seq<State>, caps: seq<nat>, own: seq<nat>, i: nat)
    requires Run(r, caps, own) && i < |r|
    ensures Inv(r[i])
  {
    if i == 0 {
      InitInv(caps, own, |r[0].pcs|);
    } else {
      RunKeepsInv(r, caps, own, i - 1);
      InvNext(r[i - 1], r[i]);
    }
  }
}
