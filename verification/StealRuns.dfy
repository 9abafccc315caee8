/**
 What every run of the work-stealing queues guarantees.
 */
module StealRuns {
  import opened Basics
  import opened Laps
  import opened StealQueue
  import opened StealInv

  lemma RunMem(r: seq<State>, caps: seq<nat>, own: seq<nat>, k: nat)
    requires Run(r, caps, own) && k < |r|
    ensures MemInv(r[k].m)
  {
    RunKeepsInv(r, caps, own, k);
  }

  lemma RunThread(r: seq<State>, caps: seq<nat>, own: seq<nat>, k: nat, p: nat)
    requires Run(r, caps, own) && k < |r| && p < |r[k].pcs|
    ensures ThreadInv(r[k].m, p, r[k].pcs[p])
  {
    RunKeepsInv(r, caps, own, k);
  }

  lemma RunDuty(r: seq<State>, caps: seq<nat>, own: seq<nat>, k: nat)
    requires Run(r, caps, own) && k < |r|
    ensures DutyInv(r[k].m, r[k].pcs) && |r[k].m.own| == |r[k].m.qs|
  {
    RunKeepsInv(r, caps, own, k);
  }

  // ---------- the heads ----------

  /** A thief, or the owner for a drain, is the one whose booking this is. */
  predicate Booker(q: Queue, owner: nat, p: nat) {
    q.book.Some? && (q.book.value.thief == Some(p) || (q.book.value.thief == None && owner == p))
  }

  lemma WorkerBooked(m: Mem, p: nat, pc: Pc, i: nat)
    requires PcInv(m, p, pc) && Working(pc) == Some(i) && |m.own| == |m.qs|
    ensures i < |m.qs| && Booker(m.qs[i], m.own[i], p)
  {
    PcPoint(m, p, pc);
  }

  /** The positions are in order and within one capacity; the two heads differ exactly while one
      steal or drain is in progress; whoever works on it is its booker, and a thief is always
      at work. */
  lemma HeadsAndTail(r: seq<State>, caps: seq<nat>, own: seq<nat>, k: nat, i: nat)
    requires Run(r, caps, own) && k < |r| && i < |r[k].m.qs|
    ensures var q, pcs := r[k].m.qs[i], r[k].pcs;
            && |r[k].m.own| == |r[k].m.qs|
            && q.sh <= q.wh <= q.tail <= q.sh + q.cap
            && (q.sh != q.wh <==> q.book.Some?)
            && (forall p :: 0 <= p < |pcs| && Working(pcs[p]) == Some(i) ==> Booker(q, r[k].m.own[i], p))
            && (q.book.Some? && q.book.value.thief.Some? ==>
                  q.book.value.thief.value < |pcs| && Working(pcs[q.book.value.thief.value]) == Some(i))
  {
    RunMem(r, caps, own, k);
    RunDuty(r, caps, own, k);
    var m, pcs := r[k].m, r[k].pcs;
    assert QInv(m.qs[i]);
    forall p | 0 <= p < |pcs| && Working(pcs[p]) == Some(i) ensures Booker(m.qs[i], m.own[i], p) {
      RunThread(r, caps, own, k, p);
      WorkerBooked(m, p, pcs[p], i);
    }
  }

  // ---------- conservation ----------

  /** Queue i has item x at position pos: it is live, and its slot holds x. */
  ghost predicate Has(m: Mem, i: nat, pos: nat, x: Item) {
    i < |m.qs| && Live(m.qs[i], pos) && Readable(m, i, pos) && ItemAt(m, i, pos) == x
  }

  lemma HasIsAt(m: Mem, i: nat, pos: nat, x: Item)
    requires MemInv(m)
    ensures Has(m, i, pos, x) <==> x in m.loc && m.loc[x] == At(i, pos)
  {
    if Has(m, i, pos, x) { TakenWasAt(m, i, pos); }
    if x in m.loc && m.loc[x] == At(i, pos) {
      assert QInv(m.qs[i]);
      LiveReadable(m, i, pos);
    }
  }

  /** Every item pushed so far is in exactly one place: in one slot of one queue, in the hands of
      one thief between two queues, or handed out by a pop, drain or steal_and_pop. */
  lemma EveryItemInOnePlace(r: seq<State>, caps: seq<nat>, own: seq<nat>, k: nat, x: Item)
    requires Run(r, caps, own) && k < |r| && x in r[k].m.loc
    ensures var m, pcs, l := r[k].m, r[k].pcs, r[k].m.loc[x];
            && (forall i: nat, pos: nat :: Has(m, i, pos, x) <==> l == At(i, pos))
            && (forall p: nat :: p < |pcs| && Holding(pcs[p]) == Some(x) <==> l == Held(p))
  {
    RunMem(r, caps, own, k);
    RunDuty(r, caps, own, k);
    var m, pcs, l := r[k].m, r[k].pcs, r[k].m.loc[x];
    forall i: nat, pos: nat ensures Has(m, i, pos, x) <==> l == At(i, pos) { HasIsAt(m, i, pos, x); }
    forall p: nat | p < |pcs| && Holding(pcs[p]) == Some(x) ensures l == Held(p) {
      RunThread(r, caps, own, k, p);
      PcPoint(m, p, pcs[p]);
    }
  }

  /** The item a step moves, and where to. */
  function Moves(m: Mem, p: nat, pc: Pc, c: Choice): Option<(Item, Loc)>
    requires Sane(m, pc)
  {
    SanePoint(m, pc);
    match pc
    case PFill(i, _, t, _, _) => Some((c.item, At(i, t)))
    case QRead(i, pos) => Some((ItemAt(m, i, pos), Out(p)))
    case SRead(i, _, _, from, _, _, k) => Some((ItemAt(m, i, from + k), Held(p)))
    case SWrite(_, j, _, _, _, dt, k, x) => Some((x, At(j, dt + k)))
    case SLast(i, _, from, n, _) => Some((ItemAt(m, i, from + n - 1), Out(p)))
    case DNext(i) => Some((ItemAt(m, i, m.qs[i].book.value.done), Out(p)))
    case _ => None
  }

  lemma LocAfter(m: Mem, p: nat, pc: Pc, c: Choice)
    requires Sane(m, pc)
    ensures var mv := Moves(m, p, pc, c);
            MemAfter(m, p, pc, c).loc == if mv.Some? then m.loc[mv.value.0 := mv.value.1] else m.loc
  {
    SanePoint(m, pc);
  }

  /** A step moves a new item in, or one that is not handed out yet. */
  lemma MovedWasIn(m: Mem, p: nat, pc: Pc, c: Choice)
    requires MemInv(m) && Acts(m, p, pc, c)
    ensures var mv := Moves(m, p, pc, c);
            mv.Some? ==> if pc.PFill? then mv.value == (c.item, At(pc.i, pc.t)) && c.item !in m.loc
                         else mv.value.0 in m.loc && !m.loc[mv.value.0].Out?
  {
    ActPoint(m, p, pc, c);
    match pc
    case QRead(i, pos) => TakenWasAt(m, i, pos);
    case SRead(i, _, _, from, _, _, k) => TakenWasAt(m, i, from + k);
    case SLast(i, _, from, n, _) => TakenWasAt(m, i, from + n - 1);
    case DNext(i) => TakenWasAt(m, i, m.qs[i].book.value.done);
    case _ =>
  }

  /** Every item stays somewhere, what was handed out stays so, and only item x may be new. */
  ghost predicate Conserved(m: Mem, m': Mem, pc: Pc, x: Item) {
    && (forall y :: y in m.loc ==> y in m'.loc && (m.loc[y].Out? ==> m'.loc[y] == m.loc[y]))
    && (forall y :: y in m'.loc && y !in m.loc ==> pc.PFill? && y == x && m'.loc[y].At?)
  }

  lemma ConservedGo(m: Mem, p: nat, pc: Pc, c: Choice)
    requires MemInv(m) && Acts(m, p, pc, c)
    ensures Conserved(m, MemAfter(m, p, pc, c), pc, c.item)
  {
    LocAfter(m, p, pc, c);
    MovedWasIn(m, p, pc, c);
  }

  /** No action loses an item or hands one out twice: at most one item moves, only a push brings
      in a new one, and what was handed out stays so. */
  lemma ItemsAreConserved(r: seq<State>, caps: seq<nat>, own: seq<nat>, k: nat, a: Action)
    requires Run(r, caps, own) && k < |r| && Enabled(r[k], a) && Sane(r[k].m, r[k].pcs[a.p])
    ensures Conserved(r[k].m, Apply(r[k], a).m, r[k].pcs[a.p], if a.Go? then a.c.item else 0)
  {
    if a.Go? {
      RunMem(r, caps, own, k);
      RunThread(r, caps, own, k, a.p);
      MayAct(r[k].m, a.p, r[k].pcs[a.p], a.c);
      ConservedGo(r[k].m, a.p, r[k].pcs[a.p], a.c);
    }
  }

  /** The queue and position that a thread is about to write. */
  function Touched(pc: Pc): Option<(nat, nat)> {
    match pc
    case PFill(i, _, t, _, _) => Some((i, t))
    case SWrite(_, j, _, _, _, dt, k, _) => Some((j, dt + k))
    case _ => None
  }

  lemma WriteIsFree(q: Queue, pos: nat, u: nat)
    requires QInv(q) && pos == q.fill < q.sh + q.cap && q.hold == None && Live(q, u)
    ensures Idx(u, q.cap) != Idx(pos, q.cap)
  {
    if Idx(u, q.cap) == Idx(pos, q.cap) { SameSlot(u, pos, q.cap); }
  }

  lemma TouchedIsFree(m: Mem, p: nat, pc: Pc, u: nat)
    requires QsInv(m.qs) && Rests(m, p, pc) && PcInv(m, p, pc) && Touched(pc).Some?
    ensures var (i, pos) := Touched(pc).value;
            && i < |m.qs| && m.qs[i].WellFormed()
            && (Live(m.qs[i], u) ==> Idx(u, m.qs[i].cap) != Idx(pos, m.qs[i].cap))
  {
    PcPoint(m, p, pc);
    var (i, pos) := Touched(pc).value;
    assert QInv(m.qs[i]);
    if Live(m.qs[i], u) { WriteIsFree(m.qs[i], pos, u); }
  }

  /** No slot is written while an item in it is unread, booked or not. */
  lemma NeverOverwrites(r: seq<State>, caps: seq<nat>, own: seq<nat>, k: nat, p: nat, u: nat)
    requires Run(r, caps, own) && k < |r| && p < |r[k].pcs| && Touched(r[k].pcs[p]).Some?
    ensures var (i, pos) := Touched(r[k].pcs[p]).value;
            && i < |r[k].m.qs| && r[k].m.qs[i].WellFormed()
            && (Live(r[k].m.qs[i], u) ==> Idx(u, r[k].m.qs[i].cap) != Idx(pos, r[k].m.qs[i].cap))
  {
    RunMem(r, caps, own, k);
    RunThread(r, caps, own, k, p);
    TouchedIsFree(r[k].m, p, r[k].pcs[p], u);
  }

  // ---------- order ----------

  /** What can be popped or stolen, oldest first. */
  function Visible(q: Queue): seq<Item> {
    if q.wh <= q.tail then Span(q.cont, q.wh, q.tail - q.wh) else []
  }

  /** What the owner has written and not yet made visible. */
  function Unseen(q: Queue): seq<Item> {
    if q.tail <= q.fill then Span(q.cont, q.tail, q.fill - q.tail) else []
  }

  lemma PutOrder(q: Queue, q': Queue, pos: nat, x: Item)
    requires BoundsInv(q) && pos == q.fill && q' == Put(q, pos, x)
    ensures Visible(q') == Visible(q) && Unseen(q') == Unseen(q) + [x]
  {
  }

  lemma PublishOrder(q: Queue, q': Queue, t: nat)
    requires BoundsInv(q) && t == q.fill && q' == q.(tail := t)
    ensures Visible(q') == Visible(q) + Unseen(q) && Unseen(q') == []
  {
    var v := Visible(q) + Unseen(q);
    forall u | 0 <= u < |v| ensures Visible(q')[u] == v[u] {
      if u >= q.tail - q.wh { assert q.wh + u == q.tail + (u - (q.tail - q.wh)); }
    }
  }

  lemma PopOrder(q: Queue, q': Queue)
    requires QInv(q) && q.wh != q.tail && q' == PopHead(q)
    ensures q.wh in q.cont && Visible(q) == [q.cont[q.wh]] + Visible(q') && Unseen(q') == Unseen(q)
  {
    var v := [q.cont[q.wh]] + Visible(q');
    forall u | 0 <= u < |v| ensures Visible(q)[u] == v[u] {
      if u > 0 { assert q.wh + u == q'.wh + (u - 1); }
    }
  }

  lemma BookOrder(q: Queue, q': Queue, thief: Option<nat>, n: nat)
    requires QInv(q) && q.wh + n <= q.tail && q' == BookItems(q, thief, n)
    ensures Visible(q) == q'.book.value.items + Visible(q') && |q'.book.value.items| == n && Unseen(q') == Unseen(q)
  {
    var v := q'.book.value.items + Visible(q');
    forall u | 0 <= u < |v| ensures Visible(q)[u] == v[u] {
      if u >= n { assert q.wh + u == q'.wh + (u - n); }
    }
  }

  /** Taking out a position before the worker head does not show. */
  lemma TakeOrder(q: Queue, q': Queue, pos: nat)
    requires BoundsInv(q) && pos < q.wh && q'.cont == q.cont - {pos}
    requires q'.wh == q.wh && q'.tail == q.tail && q'.fill == q.fill
    ensures Visible(q') == Visible(q) && Unseen(q') == Unseen(q)
  {
  }

  predicate SameOrder(q: Queue, q': Queue) {
    Visible(q') == Visible(q) && Unseen(q') == Unseen(q)
  }

  function Booking(q: Queue): seq<Item> {
    if q.book.Some? then q.book.value.items else []
  }

  /** Each queue is a FIFO queue of visible items: from q to q', the step of a thread
      - in push or extend adds one item to the unseen ones, or publishes those;
      - in pop takes the oldest visible item for itself;
      - in a steal or drain books the n oldest visible items;
      - in a steal that publishes appends the booked items, in order, to the destination;
      and any other step changes nothing. */
  ghost predicate OrderEffect(m: Mem, pc: Pc, c: Choice, q: Queue, q': Queue) {
    match pc
    case PFill(_, _, _, _, _) => Visible(q') == Visible(q) && Unseen(q') == Unseen(q) + [c.item]
    case PPublish(_, _, _) => Visible(q') == Visible(q) + Unseen(q) && Unseen(q') == []
    case QCas(_, _, _) => q.wh in q.cont && Visible(q) == [q.cont[q.wh]] + Visible(q') && Unseen(q') == Unseen(q)
    case BCas(_, _, _, n) => Visible(q) == Booking(q') + Visible(q') && |Booking(q')| == n && Unseen(q') == Unseen(q)
    case SWrite(_, _, _, _, _, _, _, x) => Visible(q') == Visible(q) && Unseen(q') == Unseen(q) + [x]
    case SPublish(i, _, dt, t) =>
      && dt <= t && t - dt <= |Items(m, i)|
      && Visible(q') == Visible(q) + Items(m, i)[..t - dt] && Unseen(q') == []
    case _ => SameOrder(q, q')
  }

  /** The queue a step changes, if it changes any. */
  function Target(m: Mem, pc: Pc, c: Choice): Option<nat>
    requires Sane(m, pc)
  {
    SanePoint(m, pc);
    match pc
    case PFill(i, _, _, _, _) => Some(i)
    case PPublish(i, _, _) => Some(i)
    case QCas(i, _, _) => if Pops(m, pc, c) then Some(i) else None
    case QRead(i, _) => Some(i)
    case BCas(i, _, _, _) => if Books(m, pc, c) then Some(i) else None
    case SRead(i, _, _, _, _, _, _) => Some(i)
    case SWrite(_, j, _, _, _, _, _, _) => Some(j)
    case SLast(i, _, _, _, _) => Some(i)
    case SPublish(_, j, _, _) => Some(j)
    case DNext(i) => Some(i)
    case RCas(i, _, _) => if Ends(m, pc, c) then Some(i) else None
    case _ => None
  }

  /** The order effect on the target of a step, and none on other queues. */
  ghost predicate OneTarget(m: Mem, pc: Pc, c: Choice, m': Mem, i: nat)
    requires Sane(m, pc) && i < |m.qs|
  {
    && |m'.qs| == |m.qs|
    && if Target(m, pc, c) == Some(i) then OrderEffect(m, pc, c, m.qs[i], m'.qs[i]) else m'.qs[i] == m.qs[i]
  }

  lemma OrderWorker(m: Mem, m': Mem, p: nat, pc: Pc, c: Choice)
    requires QsInv(m.qs) && Acts(m, p, pc, c) && InWorker(pc) && Target(m, pc, c).Some? && m' == MemAfter(m, p, pc, c)
    ensures pc.i < |m.qs| == |m'.qs| && OrderEffect(m, pc, c, m.qs[pc.i], m'.qs[pc.i])
  {
    ActPoint(m, p, pc, c);
    var q, q' := m.qs[pc.i], m'.qs[pc.i];
    assert QInv(q);
    match pc
    case PFill(_, _, t, _, _) => PutOrder(q, q', t, c.item);
    case PPublish(_, t, _) => PublishOrder(q, q', t);
    case QCas(_, _, _) => PopOrder(q, q');
    case QRead(_, pos) => TakeOrder(q, q', pos);
    case _ =>
  }

  lemma OrderHeads(m: Mem, m': Mem, p: nat, pc: Pc, c: Choice)
    requires QsInv(m.qs) && Acts(m, p, pc, c) && (pc.BCas? || pc.RCas?) && Target(m, pc, c).Some?
             && m' == MemAfter(m, p, pc, c)
    ensures pc.i < |m.qs| == |m'.qs| && OrderEffect(m, pc, c, m.qs[pc.i], m'.qs[pc.i])
  {
    ActPoint(m, p, pc, c);
    var q, q' := m.qs[pc.i], m'.qs[pc.i];
    assert QInv(q);
    if pc.BCas? { BookOrder(q, q', Thief(p, pc.job), pc.n); }
  }

  /** Taking the next item of a booking does not show. */
  lemma TakeBookedOrder(q: Queue, q': Queue, pos: nat)
    requires QInv(q) && q.book.Some? && pos == q.book.value.done < q.book.value.to && q' == TakeBooked(q, pos)
    ensures SameOrder(q, q')
  {
    TakeOrder(q, q', pos);
  }

  lemma StillSame(m: Mem, pc: Pc, c: Choice, q: Queue, q': Queue)
    requires SameOrder(q, q') && (pc.SRead? || pc.SLast? || pc.DNext? || pc.RCas? || pc.QRead?)
    ensures OrderEffect(m, pc, c, q, q')
  {
  }

  lemma TakenQueue(m: Mem, m': Mem, p: nat, pc: Pc, c: Choice)
    requires Acts(m, p, pc, c) && (pc.SRead? || pc.SLast? || pc.DNext?) && m' == MemAfter(m, p, pc, c)
    ensures pc.i < |m.qs| == |m'.qs| && m.qs[pc.i].book.Some?
    ensures var b := m.qs[pc.i].book.value; b.done < b.to && m'.qs[pc.i] == TakeBooked(m.qs[pc.i], b.done)
  {
    ActPoint(m, p, pc, c);
  }

  lemma OrderTake(m: Mem, m': Mem, p: nat, pc: Pc, c: Choice)
    requires QsInv(m.qs) && Acts(m, p, pc, c) && (pc.SRead? || pc.SLast? || pc.DNext?) && m' == MemAfter(m, p, pc, c)
    ensures pc.i < |m.qs| == |m'.qs| && OrderEffect(m, pc, c, m.qs[pc.i], m'.qs[pc.i])
  {
    TakenQueue(m, m', p, pc, c);
    TakeBookedOrder(m.qs[pc.i], m'.qs[pc.i], m.qs[pc.i].book.value.done);
    StillSame(m, pc, c, m.qs[pc.i], m'.qs[pc.i]);
  }

  lemma UnseenIsCopied(m: Mem, i: nat, j: nat, dt: nat, t: nat)
    requires dt <= t && Copied(m, i, j, dt, t - dt) && m.qs[j].fill == t
    ensures t - dt <= |Items(m, i)| && Unseen(m.qs[j]) == Items(m, i)[..t - dt]
  {
  }

  lemma OrderWrite(m: Mem, m': Mem, p: nat, pc: Pc, c: Choice)
    requires QsInv(m.qs) && Acts(m, p, pc, c) && CopyInv(m, pc) && (pc.SWrite? || pc.SPublish?)
             && m' == MemAfter(m, p, pc, c)
    ensures pc.j < |m.qs| == |m'.qs| && OrderEffect(m, pc, c, m.qs[pc.j], m'.qs[pc.j])
  {
    ActPoint(m, p, pc, c);
    assert QInv(m.qs[pc.j]);
    match pc
    case SWrite(_, j, _, _, _, dt, k, x) => PutOrder(m.qs[j], m'.qs[j], dt + k, x);
    case SPublish(i, j, dt, t) =>
      CopyPoint(m, pc);
      PublishOrder(m.qs[j], m'.qs[j], t);
      UnseenIsCopied(m, i, j, dt, t);
  }

  lemma OthersSame(m: Mem, p: nat, pc: Pc, c: Choice, i: nat)
    requires Sane(m, pc) && i < |m.qs|
    ensures |MemAfter(m, p, pc, c).qs| == |m.qs|
    ensures Target(m, pc, c) != Some(i) ==> MemAfter(m, p, pc, c).qs[i] == m.qs[i]
  {
    SanePoint(m, pc);
  }

  lemma OneTargetGo(m: Mem, m': Mem, p: nat, pc: Pc, c: Choice, i: nat)
    requires QsInv(m.qs) && Acts(m, p, pc, c) && CopyInv(m, pc) && i < |m.qs| && m' == MemAfter(m, p, pc, c)
    ensures OneTarget(m, pc, c, m', i)
  {
    OthersSame(m, p, pc, c, i);
    if Target(m, pc, c) == Some(i) {
      if InWorker(pc) { OrderWorker(m, m', p, pc, c); }
      else if pc.BCas? || pc.RCas? { OrderHeads(m, m', p, pc, c); }
      else if pc.SWrite? || pc.SPublish? { OrderWrite(m, m', p, pc, c); }
      else { OrderTake(m, m', p, pc, c); }
    }
  }

  /** Queues are FIFO, and a steal moves a run of the oldest items to the end of another queue
      in their order. A step changes at most one queue, its target; starting a call changes none. */
  lemma QueuesAreFifo(r: seq<State>, caps: seq<nat>, own: seq<nat>, k: nat, a: Action, i: nat)
    requires Run(r, caps, own) && k < |r| && Enabled(r[k], a) && Sane(r[k].m, r[k].pcs[a.p]) && i < |r[k].m.qs|
    ensures if a.Go? then OneTarget(r[k].m, r[k].pcs[a.p], a.c, Apply(r[k], a).m, i) else Apply(r[k], a).m == r[k].m
  {
    if a.Go? {
      RunMem(r, caps, own, k);
      RunThread(r, caps, own, k, a.p);
      MayAct(r[k].m, a.p, r[k].pcs[a.p], a.c);
      OneTargetGo(r[k].m, Apply(r[k], a).m, a.p, r[k].pcs[a.p], a.c, i);
    }
  }

  lemma LastIsYoungest(m: Mem, p: nat, pc: Pc)
    requires MemInv(m) && PcInv(m, p, pc) && pc.SLast?
    ensures pc.n >= 1 && |Items(m, pc.i)| == pc.n && Readable(m, pc.i, pc.from + pc.n - 1)
    ensures ItemAt(m, pc.i, pc.from + pc.n - 1) == Items(m, pc.i)[pc.n - 1]
  {
    PcPoint(m, p, pc);
    LiveReadable(m, pc.i, pc.from + pc.n - 1);
    NextItem(m, pc.i, pc.from + pc.n - 1);
  }

  /** The item that steal_and_pop returns is the youngest of those it stole. */
  lemma ReturnsYoungest(r: seq<State>, caps: seq<nat>, own: seq<nat>, k: nat, p: nat)
    requires Run(r, caps, own) && k < |r| && p < |r[k].pcs| && r[k].pcs[p].SLast?
    ensures var m, pc := r[k].m, r[k].pcs[p];
            && pc.n >= 1 && |Items(m, pc.i)| == pc.n
            && Readable(m, pc.i, pc.from + pc.n - 1) && ItemAt(m, pc.i, pc.from + pc.n - 1) == Items(m, pc.i)[pc.n - 1]
  {
    RunMem(r, caps, own, k);
    RunThread(r, caps, own, k, p);
    LastIsYoungest(r[k].m, p, r[k].pcs[p]);
  }

  // ---------- verdicts and assertions ----------

  /** push fails only on a full queue. */
  predicate FullIsFull(m: Mem, pc: Pc, c: Choice)
    requires Sane(m, pc)
  {
    SanePoint(m, pc);
    pc.PHeads? && WorkerPc(m, pc, c) == Idle ==> m.qs[pc.i].tail == m.qs[pc.i].sh + m.qs[pc.i].cap
  }

  /** A pop that ends before it has claimed an item, and a steal or drain that finds nothing, does
      so only if nothing is visible. */
  predicate EmptyIsEmpty(m: Mem, pc: Pc, c: Choice)
    requires Sane(m, pc)
  {
    SanePoint(m, pc);
    && ((pc.QHeads? || pc.QCas?) && WorkerPc(m, pc, c) == Idle ==> pc.i < |m.qs| && Visible(m.qs[pc.i]) == [])
    && (pc.SLookTail? && BookPc(m, pc, c) == Idle ==> Visible(m.qs[pc.i]) == [])
    && (pc.BTail? && pc.sh == pc.wh && BookPc(m, pc, c) == Idle ==> Visible(m.qs[pc.i]) == [])
  }

  /** A steal or drain loads differing heads only while another one is in progress. */
  predicate BusyIsBusy(m: Mem, pc: Pc, c: Choice)
    requires Sane(m, pc)
  {
    SanePoint(m, pc);
    pc.BHeads? ==> var pc' := BookPc(m, pc, c); pc'.BTail? && (pc'.sh != pc'.wh ==> m.qs[pc.i].book.Some?)
  }

  lemma Verdicts(m: Mem, p: nat, pc: Pc, c: Choice)
    requires QsInv(m.qs) && PcInv(m, p, pc) && Sane(m, pc)
    ensures FullIsFull(m, pc, c) && EmptyIsEmpty(m, pc, c) && BusyIsBusy(m, pc, c)
  {
    SanePoint(m, pc);
    if pc.PHeads? || pc.QCas? || pc.SLookTail? || pc.BTail? || pc.BHeads? {
      PcPoint(m, p, pc);
      assert QInv(m.qs[pc.i]);
    }
  }

  /** Full, None, Empty and Busy are true at the load that decides them. */
  lemma VerdictsAreTrue(r: seq<State>, caps: seq<nat>, own: seq<nat>, k: nat, p: nat, c: Choice)
    requires Run(r, caps, own) && k < |r| && p < |r[k].pcs| && Sane(r[k].m, r[k].pcs[p])
    ensures FullIsFull(r[k].m, r[k].pcs[p], c) && EmptyIsEmpty(r[k].m, r[k].pcs[p], c)
            && BusyIsBusy(r[k].m, r[k].pcs[p], c)
  {
    RunMem(r, caps, own, k);
    RunThread(r, caps, own, k, p);
    Verdicts(r[k].m, p, r[k].pcs[p], c);
  }

  // ---------- how many items a steal takes ----------

  /** n is the greatest number that is at most what was wanted, at most the items there are, and
      whose items to move fit in the room. */
  ghost predicate Greatest(job: Job, wanted: nat, items: nat, n: nat) {
    && Fits(job, wanted, items, n)
    && forall k: nat :: Fits(job, wanted, items, k) ==> k <= n
  }

  predicate Fits(job: Job, wanted: nat, items: nat, n: nat) {
    n <= wanted && n <= items && (job.Steal? ==> Moved(job.pop, n) <= job.free)
  }

  /** At the loads of a steal the room is what is free in the destination, from its tail on, and its
      count function is offered all that is visible; and the call goes on with the greatest number
      that its answer allows, or ends if that is none. */
  ghost predicate TakesAllItMay(m: Mem, pc: Pc, c: Choice, wanted: nat)
    requires Sane(m, pc)
  {
    SanePoint(m, pc);
    && (pc.SDest? ==>
          var q := m.qs[pc.j];
          BookPc(m, pc, c) == BHeads(pc.i, Steal(pc.j, pc.pop, q.tail, q.sh + q.cap - q.tail)))
    && (pc.BTail? && pc.sh == pc.wh && Visible(m.qs[pc.i]) != [] ==>
          && BookPc(m, pc, c).BCount? && BookPc(m, pc, c).i == pc.i && BookPc(m, pc, c).job == pc.job
          && BookPc(m, pc, c).wh == pc.wh
          && (m.qs[pc.i].wh == pc.wh ==> BookPc(m, pc, c).count == |Visible(m.qs[pc.i])|))
    && (pc.BCount? ==>
          if Resumed(pc, wanted) == Idle then Greatest(pc.job, wanted, pc.count, 0)
          else
            && Resumed(pc, wanted).BCas? && Resumed(pc, wanted) == BCas(pc.i, pc.job, pc.wh, Resumed(pc, wanted).n)
            && Greatest(pc.job, wanted, pc.count, Resumed(pc, wanted).n))
  }

  lemma TakesAt(m: Mem, p: nat, pc: Pc, c: Choice, wanted: nat)
    requires QsInv(m.qs) && PcInv(m, p, pc) && Sane(m, pc)
    ensures TakesAllItMay(m, pc, c, wanted)
  {
    SanePoint(m, pc);
    if pc.SDest? || pc.BTail? || pc.BCount? {
      PcPoint(m, p, pc);
      if pc.SDest? { assert QInv(m.qs[pc.j]); } else { assert QInv(m.qs[pc.i]); }
    }
  }

  lemma StealsTakeAllTheyMay(r: seq<State>, caps: seq<nat>, own: seq<nat>, k: nat, p: nat, c: Choice, wanted: nat)
    requires Run(r, caps, own) && k < |r| && p < |r[k].pcs| && Sane(r[k].m, r[k].pcs[p])
    ensures TakesAllItMay(r[k].m, r[k].pcs[p], c, wanted)
  {
    RunMem(r, caps, own, k);
    RunThread(r, caps, own, k, p);
    TakesAt(r[k].m, p, r[k].pcs[p], c, wanted);
  }

  /** What the assertions of steal say at pc. */
  predicate Asserted(m: Mem, pc: Pc) {
    && (pc.SDest? ==> pc.j < |m.qs| && 0 <= Free(m.qs[pc.j]) <= m.qs[pc.j].cap)
    && (pc.BCas? && pc.job.Steal? ==> Moved(pc.job.pop, pc.n) <= pc.job.free)
    && (pc.RCas? ==> pc.i < |m.qs| && m.qs[pc.i].book.Some? && pc.sh == m.qs[pc.i].book.value.from)
  }

  lemma AssertedAt(m: Mem, p: nat, pc: Pc)
    requires QsInv(m.qs) && PcInv(m, p, pc)
    ensures Asserted(m, pc)
  {
    PcPoint(m, p, pc);
    if pc.SDest? { assert QInv(m.qs[pc.j]); }
    if pc.RCas? { assert QInv(m.qs[pc.i]); }
  }

  /** The assertions of steal: the free capacity is between 0 and the capacity, a steal takes no
      more than fits, and it ends with the stealer head where its booking left it. */
  lemma AssertionsHold(r: seq<State>, caps: seq<nat>, own: seq<nat>, k: nat, p: nat)
    requires Run(r, caps, own) && k < |r| && p < |r[k].pcs|
    ensures Asserted(r[k].m, r[k].pcs[p])
  {
    RunMem(r, caps, own, k);
    RunThread(r, caps, own, k, p);
    AssertedAt(r[k].m, p, r[k].pcs[p]);
  }
}
