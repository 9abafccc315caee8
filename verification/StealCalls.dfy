/**
 The calls of the work-stealing queues: what push, extend, pop, steal and drain have done when
 they return, against what they were asked for and what they saw. A call is observed from
 outside, by what its thread's steps change in the shared memory.
 */
module StealCalls {
  import opened Basics
  import opened Laps
  import opened StealQueue
  import opened StealInv
  import opened StealRuns

  /** A call: how it began; the room in the queue it writes to, at its first step; the items it put
      into a slot, handed out, took from the front of the queue it takes from, and made visible;
      and whether, at one of its steps, that queue was empty or being stolen from, or the other one
      full, and whether its count function asked for nothing. */
  datatype Observed = NoCall | Observed(
    asked: Action,
    room: Option<int>,
    put: seq<Item>,
    got: seq<Item>,
    front: seq<Item>,
    shown: seq<Item>,
    empty: bool,
    busy: bool,
    full: bool,
    zero: bool)

  function Asked(a: Action): Observed {
    Observed(a, None, [], [], [], [], false, false, false, false)
  }

  /** The queue a call writes to. */
  function Dest(a: Action): nat
    requires Starts(a)
  {
    if a.StartSteal? then a.j else a.i
  }

  predicate InQueues(m: Mem, o: Observed) {
    o.Observed? && Starts(o.asked) && o.asked.i < |m.qs| && Dest(o.asked) < |m.qs|
  }

  /** The visible items that left the front, and those added at the end. */
  function Left(q: Queue, q': Queue): seq<Item> {
    var v, v' := Visible(q), Visible(q');
    if |v'| < |v| then v[..|v| - |v'|] else []
  }

  function Added(q: Queue, q': Queue): seq<Item> {
    var v, v' := Visible(q), Visible(q');
    if |v| < |v'| then v'[|v|..] else []
  }

  function Placed(mv: Option<(Item, Loc)>): seq<Item> {
    if mv.Some? && mv.value.1.At? then [mv.value.0] else []
  }

  function Handed(mv: Option<(Item, Loc)>): seq<Item> {
    if mv.Some? && mv.value.1.Out? then [mv.value.0] else []
  }

  /** A step of the call; mv: the item it moves. */
  function Observe(o: Observed, m: Mem, m': Mem, mv: Option<(Item, Loc)>): Observed
    requires InQueues(m, o) && |m'.qs| == |m.qs|
  {
    var i, j := o.asked.i, Dest(o.asked);
    o.(room := if o.room.None? then Some(Free(m.qs[j])) else o.room,
       put := o.put + Placed(mv),
       got := o.got + Handed(mv),
       front := o.front + Left(m.qs[i], m'.qs[i]),
       shown := o.shown + Added(m.qs[j], m'.qs[j]),
       empty := o.empty || Visible(m.qs[i]) == [],
       busy := o.busy || m.qs[i].book.Some?,
       full := o.full || Free(m.qs[j]) == 0)
  }

  // ---------- how far a call got ----------

  predicate Fresh(o: Observed) {
    o.Observed? && o.put == [] && o.got == [] && o.front == [] && o.shown == []
  }

  /** A push or extend that has written what is in o.put, and not made it visible. */
  predicate Writing(m: Mem, o: Observed, i: nat, single: bool) {
    && o.Observed? && o.asked.StartPush? && o.asked.i == i && o.asked.single == single && i < |m.qs|
    && o.got == [] && o.front == [] && o.shown == [] && o.room.Some? && o.room.value >= 0
    && Unseen(m.qs[i]) == o.put
  }

  predicate Popping(o: Observed, i: nat) {
    o.Observed? && o.asked.StartPop? && o.asked.i == i
  }

  predicate Stealing(o: Observed, i: nat, j: nat, pop: bool) {
    o.Observed? && o.asked.StartSteal? && o.asked.i == i && o.asked.j == j && o.asked.pop == pop
  }

  /** A steal or drain that has booked nothing yet. */
  predicate Looking(o: Observed, i: nat, job: Job) {
    && Fresh(o)
    && match job
       case Steal(j, pop, _, free) => Stealing(o, i, j, pop) && (free == 0 ==> o.full)
       case Drain => o.asked.StartDrain? && o.asked.i == i
  }

  /** A steal that has booked o.front and moved the first k items. */
  predicate Moving(m: Mem, o: Observed, i: nat, j: nat, pop: bool, k: nat) {
    && Stealing(o, i, j, pop) && i < |m.qs| && j < |m.qs| && o.shown == [] && o.front != []
    && Items(m, i) == o.front && k <= |o.front| && o.put == o.front[..k] && Unseen(m.qs[j]) == o.put
  }

  /** What a steal hands out. */
  function Last(pop: bool, front: seq<Item>): seq<Item> {
    if pop && front != [] then [front[|front| - 1]] else []
  }

  /** A steal whose items have all arrived. */
  predicate Moved1(o: Observed) {
    && o.Observed? && o.asked.StartSteal? && o.front != [] && o.put == o.front[..Moved(o.asked.pop, |o.front|)]
    && o.got == Last(o.asked.pop, o.front)
  }

  predicate Yielded(o: Observed) {
    o.Observed? && o.asked.StartNext? && |o.got| == 1 && o.put == [] && o.front == [] && o.shown == []
  }

  // ---------- what a call has done when it returns ----------

  /** A push puts its item at the end, unless the queue is full, and an extend as many as fit. */
  predicate Pushed(o: Observed)
    requires o.Observed? && o.asked.StartPush?
  {
    && o.got == [] && o.front == [] && o.shown == o.put
    && o.room.Some? && o.room.value >= 0 && |o.put| == Min(o.asked.n, o.room.value)
  }

  /** A pop hands out the first visible item, or there is none. */
  predicate Popped(o: Observed)
    requires o.Observed?
  {
    o.put == [] && o.shown == [] && |o.got| <= 1 && o.got == o.front && (o.got == [] ==> o.empty)
  }

  /** A steal takes some of the first visible items, puts them at the end of the destination in
      their order, but for the last one that steal_and_pop hands out; or it does nothing, and has
      found nothing to steal, another steal, no room, or has been asked for nothing. */
  predicate Stolen(o: Observed)
    requires o.Observed? && o.asked.StartSteal?
  {
    if o.front == [] then Fresh(o) && (o.empty || o.busy || o.zero || (o.full && !o.asked.pop))
    else Moved1(o) && o.shown == o.put
  }

  predicate Returned(o: Observed) {
    && o.Observed?
    && match o.asked
       case StartPush(_, _, _, _) => Pushed(o)
       case StartPop(_, _) => Popped(o)
       case StartSteal(_, _, _, _) => Stolen(o)
       case StartDrain(_, _) =>
         o.put == [] && o.got == [] && o.shown == [] && (o.front == [] ==> o.empty || o.busy || o.zero)
       case _ => Yielded(o)
  }

  predicate CallFacts(m: Mem, pc: Pc, o: Observed) {
    match pc
    case Idle => o.NoCall? || Returned(o)
    case PHeads(i, n, single) =>
      && Fresh(o) && o.room.None? && o.asked.StartPush? && o.asked.i == i && o.asked.n == n && o.asked.single == single
    case PFill(i, n, t, limit, single) =>
      Writing(m, o, i, single) && |o.put| + n == o.asked.n && limit - t == o.room.value - |o.put|
    case PPublish(i, _, single) => Writing(m, o, i, single) && |o.put| == Min(o.asked.n, o.room.value)
    case QHeads(i) => Fresh(o) && Popping(o, i)
    case QCas(i, _, _) => Fresh(o) && Popping(o, i)
    case QRead(i, pos) =>
      && Popping(o, i) && o.put == [] && o.got == [] && o.shown == [] && i < |m.qs|
      && pos in m.qs[i].cont && o.front == [m.qs[i].cont[pos]]
    case SLook(i, j, pop) => Fresh(o) && Stealing(o, i, j, pop)
    case SLookTail(i, j, pop, _) => Fresh(o) && Stealing(o, i, j, pop)
    case SDest(i, j, pop) => Fresh(o) && Stealing(o, i, j, pop)
    case BHeads(i, job) => Looking(o, i, job)
    case BTail(i, job, wh, sh) => Looking(o, i, job) && (sh != wh ==> o.busy)
    case BCount(i, job, _, _) => Looking(o, i, job)
    case BCas(i, job, _, _) => Looking(o, i, job)
    case SRead(i, j, pop, _, n, _, k) => Moving(m, o, i, j, pop, k) && n == |o.front| && o.got == []
    case SWrite(i, j, pop, _, n, _, k, _) => Moving(m, o, i, j, pop, k) && n == |o.front| && o.got == []
    case SLast(i, j, _, n, _) => o.Observed? && 1 <= n == |o.front| && Moving(m, o, i, j, true, n - 1) && o.got == []
    case SPublish(i, j, _, _) =>
      Moved1(o) && Stealing(o, i, j, o.asked.pop) && o.shown == [] && j < |m.qs| && Unseen(m.qs[j]) == o.put
    case DNext(i) => Fresh(o) && o.asked.StartNext? && o.asked.i == i
    case RHeads(i) => (Moved1(o) && o.shown == o.put) || Yielded(o)
    case RCas(i, _, _) => (Moved1(o) && o.shown == o.put) || Yielded(o)
  }

  ghost predicate CallInv(m: Mem, pc: Pc, o: Observed) {
    (pc != Idle ==> InQueues(m, o)) && forall x :: x == pc ==> CallFacts(m, x, o)
  }

  lemma CallPoint(m: Mem, pc: Pc, o: Observed)
    requires CallInv(m, pc, o)
    ensures CallFacts(m, pc, o)
  {
  }

  // ---------- a step of the call itself ----------

  lemma SameQueue(q: Queue)
    ensures Left(q, q) == [] && Added(q, q) == []
  {
  }

  /** From o to o2 the items xs have left the front of the queue. */
  predicate HasBooked(o: Observed, o2: Observed, xs: seq<Item>) {
    && o.Observed? && o2.Observed? && o2.asked == o.asked && o2.put == o.put && o2.got == o.got
    && o2.front == o.front + xs && o2.shown == o.shown
  }

  /** What a step that changes no queue shows. */
  lemma ObserveLook(o: Observed, m: Mem)
    requires InQueues(m, o)
    ensures var o2 := Observe(o, m, m, None);
            && HasBooked(o, o2, []) && InQueues(m, o2)
            && o2.room == (if o.room.None? then Some(Free(m.qs[Dest(o.asked)])) else o.room) && o2.zero == o.zero
            && o2.empty == (o.empty || Visible(m.qs[o.asked.i]) == [])
            && o2.busy == (o.busy || m.qs[o.asked.i].book.Some?)
            && o2.full == (o.full || Free(m.qs[Dest(o.asked)]) == 0)
  {
    SameQueue(m.qs[o.asked.i]);
    SameQueue(m.qs[Dest(o.asked)]);
  }

  /** A push or extend that found the tail and limit, and its room. */
  lemma HeadsNext(m: Mem, pc: Pc, t: nat, limit: nat, o: Observed, o2: Observed)
    requires pc.PHeads? && CallFacts(m, pc, o) && HasBooked(o, o2, []) && InQueues(m, o2) && pc.i < |m.qs|
    requires t <= limit && o2.room == Some(limit - t) && Unseen(m.qs[pc.i]) == []
    ensures CallInv(m, NextFill(pc.i, pc.n, t, limit, pc.single), o2)
    ensures t == limit ==> CallInv(m, Idle, o2)
  {
  }

  lemma HeadsAt(m: Mem, p: nat, pc: Pc, c: Choice)
    requires QsInv(m.qs) && Rests(m, p, pc) && PcInv(m, p, pc) && Sane(m, pc) && pc.PHeads?
    ensures pc.i < |m.qs| && Unseen(m.qs[pc.i]) == [] && 0 <= m.qs[pc.i].sh + m.qs[pc.i].cap - m.qs[pc.i].tail
    ensures var q, pc' := m.qs[pc.i], WorkerPc(m, pc, c);
            || pc' == NextFill(pc.i, pc.n, q.tail, q.sh + q.cap, pc.single)
            || (pc' == Idle && q.tail == q.sh + q.cap)
  {
    PcPoint(m, p, pc);
    assert QInv(m.qs[pc.i]);
  }

  lemma OwnHeads(m: Mem, p: nat, pc: Pc, c: Choice, o: Observed)
    requires QsInv(m.qs) && Rests(m, p, pc) && PcInv(m, p, pc) && Sane(m, pc) && pc.PHeads? && CallInv(m, pc, o)
    ensures CallInv(m, WorkerPc(m, pc, c), Observe(o, m, m, None))
  {
    CallPoint(m, pc, o);
    ObserveLook(o, m);
    HeadsAt(m, p, pc, c);
    HeadsNext(m, pc, m.qs[pc.i].tail, m.qs[pc.i].sh + m.qs[pc.i].cap, o, Observe(o, m, m, None));
  }

  lemma OwnPopHeads(m: Mem, pc: Pc, c: Choice, o: Observed)
    requires Sane(m, pc) && pc.QHeads? && CallInv(m, pc, o)
    ensures CallInv(m, WorkerPc(m, pc, c), Observe(o, m, m, None))
  {
    CallPoint(m, pc, o);
    ObserveLook(o, m);
    SanePoint(m, pc);
  }

  lemma OwnFill(m: Mem, m': Mem, p: nat, pc: Pc, c: Choice, o: Observed)
    requires QsInv(m.qs) && Acts(m, p, pc, c) && pc.PFill? && CallInv(m, pc, o) && m' == MemAfter(m, p, pc, c)
    requires |m'.qs| == |m.qs|
    ensures CallInv(m', WorkerPc(m, pc, c), Observe(o, m, m', Moves(m, p, pc, c)))
  {
    CallPoint(m, pc, o);
    ActPoint(m, p, pc, c);
    assert QInv(m.qs[pc.i]);
    PutOrder(m.qs[pc.i], m'.qs[pc.i], pc.t, c.item);
  }

  lemma OwnPublish(m: Mem, m': Mem, p: nat, pc: Pc, c: Choice, o: Observed)
    requires QsInv(m.qs) && Acts(m, p, pc, c) && pc.PPublish? && CallInv(m, pc, o) && m' == MemAfter(m, p, pc, c)
    requires |m'.qs| == |m.qs|
    ensures CallInv(m', Idle, Observe(o, m, m', None))
  {
    CallPoint(m, pc, o);
    ActPoint(m, p, pc, c);
    assert QInv(m.qs[pc.i]);
    PublishOrder(m.qs[pc.i], m'.qs[pc.i], pc.t);
  }

  /** A claim takes the first visible item. */
  lemma PopShows(m: Mem, m': Mem, p: nat, pc: Pc, c: Choice, o: Observed)
    requires QsInv(m.qs) && Acts(m, p, pc, c) && pc.QCas? && pc.i < |m.qs| && Pops(m, pc, c)
    requires m' == MemAfter(m, p, pc, c) && |m'.qs| == |m.qs| && InQueues(m, o) && o.asked.i == pc.i
    ensures pc.wh in m'.qs[pc.i].cont && InQueues(m', Observe(o, m, m', None))
    ensures HasBooked(o, Observe(o, m, m', None), [m'.qs[pc.i].cont[pc.wh]])
  {
    ActPoint(m, p, pc, c);
    var q, q' := m.qs[pc.i], m'.qs[pc.i];
    assert QInv(q);
    PopOrder(q, q');
    assert Left(q, q') == [q.cont[q.wh]];
    SameQueue(m.qs[Dest(o.asked)]);
  }

  lemma StartsReading(m: Mem, pc: Pc, o: Observed, o2: Observed)
    requires pc.QCas? && Fresh(o) && Popping(o, pc.i) && InQueues(m, o2) && pc.i < |m.qs| && pc.wh in m.qs[pc.i].cont
    requires HasBooked(o, o2, [m.qs[pc.i].cont[pc.wh]])
    ensures CallInv(m, QRead(pc.i, pc.wh), o2)
  {
  }

  lemma OwnPopLook(m: Mem, p: nat, pc: Pc, c: Choice, o: Observed)
    requires QsInv(m.qs) && Sane(m, pc) && PcInv(m, p, pc) && CallInv(m, pc, o) && pc.QCas?
    requires pc.i < |m.qs| ==> !Pops(m, pc, c)
    ensures CallInv(m, WorkerPc(m, pc, c), Observe(o, m, m, None))
  {
    CallPoint(m, pc, o);
    PcPoint(m, p, pc);
    ObserveLook(o, m);
    assert QInv(m.qs[pc.i]);
  }

  lemma OwnPopCas(m: Mem, m': Mem, p: nat, pc: Pc, c: Choice, o: Observed)
    requires QsInv(m.qs) && Acts(m, p, pc, c) && pc.QCas? && CallInv(m, pc, o) && m' == MemAfter(m, p, pc, c)
    requires PcInv(m, p, pc) && |m'.qs| == |m.qs|
    ensures CallInv(m', WorkerPc(m, pc, c), Observe(o, m, m', None))
  {
    SanePoint(m, pc);
    if Pops(m, pc, c) {
      CallPoint(m, pc, o);
      PopShows(m, m', p, pc, c, o);
      StartsReading(m', pc, o, Observe(o, m, m', None));
    } else {
      OwnPopLook(m, p, pc, c, o);
    }
  }

  /** A step that changes no order of any queue shows only the item it moves. */
  lemma ObserveQuiet(o: Observed, m: Mem, m': Mem, mv: Option<(Item, Loc)>, i: nat)
    requires InQueues(m, o) && i < |m.qs| == |m'.qs| && m'.qs == m.qs[i := m'.qs[i]] && SameOrder(m.qs[i], m'.qs[i])
    ensures var o' := Observe(o, m, m', mv);
            && o'.put == o.put + Placed(mv) && o'.got == o.got + Handed(mv) && o'.asked == o.asked
            && o'.front == o.front && o'.shown == o.shown && (o.room.Some? ==> o'.room == o.room) && InQueues(m', o')
    ensures forall j :: 0 <= j < |m.qs| ==> Unseen(m'.qs[j]) == Unseen(m.qs[j])
  {
  }

  lemma PopReadIs(m: Mem, m': Mem, p: nat, pc: Pc, c: Choice)
    requires QsInv(m.qs) && Acts(m, p, pc, c) && pc.QRead? && m' == MemAfter(m, p, pc, c)
    ensures pc.i < |m.qs| == |m'.qs| && m'.qs == m.qs[pc.i := m'.qs[pc.i]] && SameOrder(m.qs[pc.i], m'.qs[pc.i])
    ensures pc.pos in m.qs[pc.i].cont && Moves(m, p, pc, c) == Some((m.qs[pc.i].cont[pc.pos], Out(p)))
  {
    ActPoint(m, p, pc, c);
    assert QInv(m.qs[pc.i]);
    TakeOrder(m.qs[pc.i], m'.qs[pc.i], pc.pos);
  }

  lemma OwnPopRead(m: Mem, m': Mem, p: nat, pc: Pc, c: Choice, o: Observed)
    requires QsInv(m.qs) && Acts(m, p, pc, c) && pc.QRead? && CallInv(m, pc, o) && m' == MemAfter(m, p, pc, c)
    requires |m'.qs| == |m.qs|
    ensures CallInv(m', Idle, Observe(o, m, m', Moves(m, p, pc, c)))
  {
    CallPoint(m, pc, o);
    PopReadIs(m, m', p, pc, c);
    ObserveQuiet(o, m, m', Moves(m, p, pc, c), pc.i);
  }

  lemma WorkerIs(m: Mem, p: nat, pc: Pc, c: Choice)
    requires Sane(m, pc) && InWorker(pc)
    ensures pc.PHeads? || pc.QHeads? ==> MemAfter(m, p, pc, c) == m
    ensures pc.PHeads? || pc.QHeads? || pc.QCas? || pc.PPublish? ==> Moves(m, p, pc, c) == None
    ensures pc.QRead? || pc.PPublish? ==> WorkerPc(m, pc, c) == Idle
  {
    SanePoint(m, pc);
  }

  lemma OwnWorkerCall(m: Mem, m': Mem, p: nat, pc: Pc, c: Choice, o: Observed)
    requires QsInv(m.qs) && ThreadInv(m, p, pc) && Acts(m, p, pc, c) && InWorker(pc) && CallInv(m, pc, o)
    requires m' == MemAfter(m, p, pc, c) && |m'.qs| == |m.qs|
    ensures CallInv(m', WorkerPc(m, pc, c), Observe(o, m, m', Moves(m, p, pc, c)))
  {
    WorkerIs(m, p, pc, c);
    if pc.PHeads? { OwnHeads(m, p, pc, c, o); }
    else if pc.PFill? { OwnFill(m, m', p, pc, c, o); }
    else if pc.PPublish? { OwnPublish(m, m', p, pc, c, o); }
    else if pc.QCas? { OwnPopCas(m, m', p, pc, c, o); }
    else if pc.QRead? { OwnPopRead(m, m', p, pc, c, o); }
    else { OwnPopHeads(m, pc, c, o); }
  }

  /** A steal looks at its source, and at the room of its destination. */
  lemma SearchNext(m: Mem, i: nat, j: nat, pop: bool, o: Observed, o2: Observed)
    requires Fresh(o) && Stealing(o, i, j, pop) && HasBooked(o, o2, []) && InQueues(m, o2)
    ensures forall wh: nat :: CallInv(m, SLookTail(i, j, pop, wh), o2)
    ensures CallInv(m, SDest(i, j, pop), o2)
    ensures o2.empty ==> CallInv(m, Idle, o2)
    ensures forall dt: nat, free: nat :: (free == 0 ==> o2.full) ==> CallInv(m, BHeads(i, Steal(j, pop, dt, free)), o2)
  {
  }

  lemma SearchIs(m: Mem, p: nat, pc: Pc, c: Choice)
    requires QsInv(m.qs) && PcInv(m, p, pc) && Sane(m, pc) && (pc.SLook? || pc.SLookTail? || pc.SDest?)
    ensures pc.i < |m.qs| && pc.j < |m.qs|
    ensures var pc' := BookPc(m, pc, c);
            && (pc.SLook? ==> pc' == SLookTail(pc.i, pc.j, pc.pop, m.qs[pc.i].wh))
            && (pc.SLookTail? ==> pc' == SDest(pc.i, pc.j, pc.pop) || (pc' == Idle && Visible(m.qs[pc.i]) == []))
            && (pc.SDest? ==>
                  Free(m.qs[pc.j]) >= 0
                  && pc' == BHeads(pc.i, Steal(pc.j, pc.pop, m.qs[pc.j].tail, Free(m.qs[pc.j]))))
  {
    PcPoint(m, p, pc);
    SanePoint(m, pc);
    assert QInv(m.qs[pc.i]);
  }

  lemma OwnSearchCall(m: Mem, p: nat, pc: Pc, c: Choice, o: Observed)
    requires QsInv(m.qs) && PcInv(m, p, pc) && Sane(m, pc) && CallInv(m, pc, o)
    requires pc.SLook? || pc.SLookTail? || pc.SDest?
    ensures CallInv(m, BookPc(m, pc, c), Observe(o, m, m, None))
  {
    CallPoint(m, pc, o);
    ObserveLook(o, m);
    SearchIs(m, p, pc, c);
    SearchNext(m, pc.i, pc.j, pc.pop, o, Observe(o, m, m, None));
  }

  /** It loads the heads, of a queue that is being stolen from if they differ. */
  lemma LoadsHeads(m: Mem, i: nat, job: Job, o: Observed)
    requires QsInv(m.qs) && i < |m.qs| && InQueues(m, o) && Looking(o, i, job)
    ensures CallInv(m, BTail(i, job, m.qs[i].wh, m.qs[i].sh), Observe(o, m, m, None))
  {
    ObserveLook(o, m);
    assert QInv(m.qs[i]);
  }

  lemma OwnTailCall(m: Mem, p: nat, pc: Pc, c: Choice, o: Observed)
    requires QsInv(m.qs) && PcInv(m, p, pc) && Sane(m, pc) && pc.BTail? && CallInv(m, pc, o)
    ensures CallInv(m, BookPc(m, pc, c), Observe(o, m, m, None))
  {
    CallPoint(m, pc, o);
    PcPoint(m, p, pc);
    ObserveLook(o, m);
    assert QInv(m.qs[pc.i]);
  }

  lemma OwnLookCall(m: Mem, p: nat, pc: Pc, c: Choice, o: Observed)
    requires QsInv(m.qs) && PcInv(m, p, pc) && Sane(m, pc) && InBook(pc) && !pc.BCount? && CallInv(m, pc, o)
    requires pc.BCas? && pc.i < |m.qs| ==> !Books(m, pc, c)
    ensures CallInv(m, BookPc(m, pc, c), Observe(o, m, m, None))
  {
    SanePoint(m, pc);
    if pc.SLook? || pc.SLookTail? || pc.SDest? { OwnSearchCall(m, p, pc, c, o); }
    else if pc.BTail? { OwnTailCall(m, p, pc, c, o); }
    else {
      CallPoint(m, pc, o);
      LoadsHeads(m, pc.i, pc.job, o);
    }
  }

  /** What the booking of a steal or drain shows. */
  lemma BookShows(m: Mem, m': Mem, p: nat, pc: Pc, c: Choice, o: Observed)
    requires QsInv(m.qs) && Acts(m, p, pc, c) && pc.BCas? && pc.i < |m.qs| && Books(m, pc, c)
    requires m' == MemAfter(m, p, pc, c) && |m'.qs| == |m.qs| && InQueues(m, o) && o.asked.i == pc.i
    ensures var o' := Observe(o, m, m', None);
            && o'.put == o.put && o'.got == o.got && o'.front == o.front + Items(m', pc.i) && o'.shown == o.shown
            && o'.asked == o.asked && InQueues(m', o') && |Items(m', pc.i)| == pc.n >= 1
    ensures forall j :: 0 <= j < |m.qs| ==> Unseen(m'.qs[j]) == Unseen(m.qs[j])
  {
    ActPoint(m, p, pc, c);
    var q, q' := m.qs[pc.i], m'.qs[pc.i];
    assert QInv(q);
    BookOrder(q, q', Thief(p, pc.job), pc.n);
    assert Left(q, q') == q'.book.value.items;
    SameQueue(m.qs[Dest(o.asked)]);
  }

  lemma StartsMoving(m: Mem, pc: Pc, o: Observed, o2: Observed)
    requires InQueues(m, o2) && pc.BCas? && pc.i < |m.qs| && Looking(o, pc.i, pc.job)
    requires HasBooked(o, o2, Items(m, pc.i))
    requires |Items(m, pc.i)| == pc.n >= 1
    requires pc.job.Steal? ==> pc.job.j < |m.qs| && Unseen(m.qs[pc.job.j]) == []
    ensures pc.job.Drain? ==> CallInv(m, Idle, o2)
    ensures pc.job.Steal? ==> CallInv(m, NextMove(pc.i, pc.job.j, pc.job.pop, pc.wh, pc.n, pc.job.dt, 0), o2)
  {
  }

  lemma NothingUnseen(m: Mem, p: nat, pc: Pc)
    requires Rests(m, p, pc) && PcInv(m, p, pc) && pc.BCas? && pc.job.Steal?
    ensures pc.job.j < |m.qs| && Unseen(m.qs[pc.job.j]) == []
  {
    PcPoint(m, p, pc);
  }

  lemma OwnBookCall(m: Mem, m': Mem, p: nat, pc: Pc, c: Choice, o: Observed)
    requires QsInv(m.qs) && ThreadInv(m, p, pc) && Acts(m, p, pc, c) && pc.BCas? && CallInv(m, pc, o)
    requires pc.i < |m.qs| && Books(m, pc, c) && m' == MemAfter(m, p, pc, c) && |m'.qs| == |m.qs|
    ensures var o2 := Observe(o, m, m', None);
            && (pc.job.Drain? ==> CallInv(m', Idle, o2))
            && (pc.job.Steal? ==>
                  CallInv(m', NextMove(pc.i, pc.job.j, pc.job.pop, pc.wh, pc.n, pc.job.dt, 0), o2))
  {
    CallPoint(m, pc, o);
    BookShows(m, m', p, pc, c, o);
    if pc.job.Steal? { NothingUnseen(m, p, pc); }
    StartsMoving(m', pc, o, Observe(o, m, m', None));
  }

  // ---------- while the items move ----------

  /** The next booked item is taken. */
  lemma TakenMoves(m: Mem, p: nat, pc: Pc, c: Choice)
    requires MemInv(m) && Acts(m, p, pc, c) && (pc.SRead? || pc.SLast? || pc.DNext?)
    ensures pc.i < |m.qs| && m.qs[pc.i].book.Some? && Readable(m, pc.i, m.qs[pc.i].book.value.done)
    ensures m.qs[pc.i].book.value.done < m.qs[pc.i].book.value.to
    ensures var l := if pc.SRead? then Held(p) else Out(p);
            Moves(m, p, pc, c) == Some((ItemAt(m, pc.i, m.qs[pc.i].book.value.done), l))
  {
    ActPoint(m, p, pc, c);
  }

  lemma TakenIs(m: Mem, m': Mem, p: nat, pc: Pc, c: Choice)
    requires MemInv(m) && Acts(m, p, pc, c) && (pc.SRead? || pc.SLast? || pc.DNext?) && m' == MemAfter(m, p, pc, c)
    ensures pc.i < |m.qs| == |m'.qs| && m'.qs == m.qs[pc.i := m'.qs[pc.i]] && SameOrder(m.qs[pc.i], m'.qs[pc.i])
    ensures Items(m', pc.i) == Items(m, pc.i)
    ensures m.qs[pc.i].book.Some? && Readable(m, pc.i, m.qs[pc.i].book.value.done)
    ensures var l := if pc.SRead? then Held(p) else Out(p);
            Moves(m, p, pc, c) == Some((ItemAt(m, pc.i, m.qs[pc.i].book.value.done), l))
    ensures var b := m.qs[pc.i].book.value;
            0 <= b.done - b.from < |b.items| && ItemAt(m, pc.i, b.done) == b.items[b.done - b.from]
  {
    TakenMoves(m, p, pc, c);
    TakenQueue(m, m', p, pc, c);
    TakesOne(m, m', p, pc, c);
    TakeBookedOrder(m.qs[pc.i], m'.qs[pc.i], m.qs[pc.i].book.value.done);
    NextItem(m, pc.i, m.qs[pc.i].book.value.done);
  }

  lemma TakesOne(m: Mem, m': Mem, p: nat, pc: Pc, c: Choice)
    requires Sane(m, pc) && (pc.SRead? || pc.SLast? || pc.DNext?) && m' == MemAfter(m, p, pc, c)
    ensures pc.i < |m.qs| == |m'.qs| && m'.qs == m.qs[pc.i := m'.qs[pc.i]]
  {
    SanePoint(m, pc);
  }

  /** It goes on with the item it read. */
  lemma ReadsNext(m: Mem, m': Mem, pc: Pc, o: Observed, o2: Observed, x: Item)
    requires pc.SRead? && CallFacts(m, pc, o) && InQueues(m', o2) && HasBooked(o, o2, []) && pc.i < |m'.qs|
    requires pc.j < |m'.qs| && Items(m', pc.i) == Items(m, pc.i) && Unseen(m'.qs[pc.j]) == Unseen(m.qs[pc.j])
    ensures CallInv(m', SWrite(pc.i, pc.j, pc.pop, pc.from, pc.n, pc.dt, pc.k, x), o2)
  {
  }

  lemma ReadShows(m: Mem, m': Mem, p: nat, pc: Pc, c: Choice, o: Observed) returns (x: Item)
    requires MemInv(m) && Acts(m, p, pc, c) && pc.SRead? && m' == MemAfter(m, p, pc, c)
    requires |m'.qs| == |m.qs| && InQueues(m, o)
    ensures var o2 := Observe(o, m, m', Moves(m, p, pc, c)); HasBooked(o, o2, []) && InQueues(m', o2)
    ensures Items(m', pc.i) == Items(m, pc.i)
    ensures forall j :: 0 <= j < |m.qs| ==> Unseen(m'.qs[j]) == Unseen(m.qs[j])
    ensures MovePc(m, pc, c) == SWrite(pc.i, pc.j, pc.pop, pc.from, pc.n, pc.dt, pc.k, x)
  {
    TakenIs(m, m', p, pc, c);
    ObserveQuiet(o, m, m', Moves(m, p, pc, c), pc.i);
    x := ReadIs(m, p, pc, c);
  }

  lemma ReadIs(m: Mem, p: nat, pc: Pc, c: Choice) returns (x: Item)
    requires Sane(m, pc) && pc.SRead?
    ensures MovePc(m, pc, c) == SWrite(pc.i, pc.j, pc.pop, pc.from, pc.n, pc.dt, pc.k, x)
  {
    SanePoint(m, pc);
    x := ItemAt(m, pc.i, pc.from + pc.k);
  }

  lemma OwnReadCall(m: Mem, m': Mem, p: nat, pc: Pc, pc': Pc, c: Choice, o: Observed)
    requires MemInv(m) && Acts(m, p, pc, c) && pc.SRead? && CallInv(m, pc, o)
    requires m' == MemAfter(m, p, pc, c) && |m'.qs| == |m.qs| && pc' == MovePc(m, pc, c)
    ensures CallInv(m', pc', Observe(o, m, m', Moves(m, p, pc, c)))
  {
    CallPoint(m, pc, o);
    var x := ReadShows(m, m', p, pc, c, o);
    ReadsNext(m, m', pc, o, Observe(o, m, m', Moves(m, p, pc, c)), x);
  }

  /** From o to o2 the call has handed out x. */
  predicate HasHanded(o: Observed, o2: Observed, x: Item) {
    && o.Observed? && o2.Observed? && o2.asked == o.asked && o2.put == o.put && o2.got == o.got + [x]
    && o2.front == o.front && o2.shown == o.shown
  }

  lemma HandsLast(m: Mem, m': Mem, pc: Pc, t: nat, o: Observed, o2: Observed, x: Item)
    requires pc.SLast? && CallFacts(m, pc, o) && InQueues(m', o2) && HasHanded(o, o2, x) && x == o.front[pc.n - 1]
    requires pc.j < |m'.qs| && Unseen(m'.qs[pc.j]) == o.put
    ensures CallInv(m', SPublish(pc.i, pc.j, pc.dt, t), o2)
  {
  }

  lemma HandsNext(m: Mem, m': Mem, pc: Pc, o: Observed, o2: Observed, x: Item)
    requires pc.DNext? && CallFacts(m, pc, o) && InQueues(m', o2) && HasHanded(o, o2, x)
    ensures CallInv(m', Idle, o2) && CallInv(m', RHeads(pc.i), o2)
  {
  }

  /** What it shows to hand out the next booked item. */
  lemma HandShows(m: Mem, m': Mem, p: nat, pc: Pc, c: Choice, o: Observed) returns (x: Item)
    requires MemInv(m) && Acts(m, p, pc, c) && (pc.SLast? || pc.DNext?) && m' == MemAfter(m, p, pc, c)
    requires |m'.qs| == |m.qs| && InQueues(m, o)
    ensures var o2 := Observe(o, m, m', Moves(m, p, pc, c)); HasHanded(o, o2, x) && InQueues(m', o2)
    ensures pc.i < |m.qs| && m.qs[pc.i].book.Some?
    ensures var b := m.qs[pc.i].book.value; 0 <= b.done - b.from < |b.items| && x == b.items[b.done - b.from]
    ensures forall j :: 0 <= j < |m.qs| ==> Unseen(m'.qs[j]) == Unseen(m.qs[j])
  {
    TakenIs(m, m', p, pc, c);
    ObserveQuiet(o, m, m', Moves(m, p, pc, c), pc.i);
    x := Moves(m, p, pc, c).value.0;
  }

  lemma LastIndex(m: Mem, p: nat, pc: Pc)
    requires PcInv(m, p, pc) && pc.SLast?
    ensures pc.i < |m.qs| && m.qs[pc.i].book.Some? && 1 <= pc.n
    ensures m.qs[pc.i].book.value.done - m.qs[pc.i].book.value.from == pc.n - 1
  {
    PcPoint(m, p, pc);
  }

  lemma OwnLastCall(m: Mem, m': Mem, p: nat, pc: Pc, c: Choice, o: Observed, t: nat)
    requires MemInv(m) && PcInv(m, p, pc) && Acts(m, p, pc, c) && pc.SLast? && CallInv(m, pc, o)
    requires m' == MemAfter(m, p, pc, c) && |m'.qs| == |m.qs|
    ensures CallInv(m', SPublish(pc.i, pc.j, pc.dt, t), Observe(o, m, m', Moves(m, p, pc, c)))
  {
    CallPoint(m, pc, o);
    LastIndex(m, p, pc);
    var x := HandShows(m, m', p, pc, c, o);
    HandsLast(m, m', pc, t, o, Observe(o, m, m', Moves(m, p, pc, c)), x);
  }

  lemma OwnNextCall(m: Mem, m': Mem, p: nat, pc: Pc, c: Choice, o: Observed)
    requires MemInv(m) && Acts(m, p, pc, c) && pc.DNext? && CallInv(m, pc, o)
    requires m' == MemAfter(m, p, pc, c) && |m'.qs| == |m.qs|
    ensures var o2 := Observe(o, m, m', Moves(m, p, pc, c)); CallInv(m', Idle, o2) && CallInv(m', RHeads(pc.i), o2)
  {
    CallPoint(m, pc, o);
    var x := HandShows(m, m', p, pc, c, o);
    HandsNext(m, m', pc, o, Observe(o, m, m', Moves(m, p, pc, c)), x);
  }

  // ---------- and the steps that put and show them ----------

  lemma WriteIs(m: Mem, m': Mem, p: nat, pc: Pc, c: Choice)
    requires QsInv(m.qs) && Acts(m, p, pc, c) && pc.SWrite? && m' == MemAfter(m, p, pc, c)
    ensures pc.j < |m.qs| == |m'.qs| && m'.qs == m.qs[pc.j := m'.qs[pc.j]]
    ensures Visible(m'.qs[pc.j]) == Visible(m.qs[pc.j]) && Unseen(m'.qs[pc.j]) == Unseen(m.qs[pc.j]) + [pc.x]
    ensures Moves(m, p, pc, c) == Some((pc.x, At(pc.j, pc.dt + pc.k)))
    ensures forall i: nat :: Items(m', i) == Items(m, i)
  {
    ActPoint(m, p, pc, c);
    assert QInv(m.qs[pc.j]);
    PutOrder(m.qs[pc.j], m'.qs[pc.j], pc.dt + pc.k, pc.x);
  }

  /** From o to o2 the call has put x into a slot. */
  predicate HasPut(o: Observed, o2: Observed, x: Item) {
    && o.Observed? && o2.Observed? && o2.asked == o.asked && o2.put == o.put + [x] && o2.got == o.got
    && o2.front == o.front && o2.shown == o.shown
  }

  lemma WriteShows(m: Mem, m': Mem, p: nat, pc: Pc, c: Choice, o: Observed)
    requires QsInv(m.qs) && Acts(m, p, pc, c) && pc.SWrite? && m' == MemAfter(m, p, pc, c)
    requires |m'.qs| == |m.qs| && InQueues(m, o)
    ensures var o2 := Observe(o, m, m', Moves(m, p, pc, c)); HasPut(o, o2, pc.x) && InQueues(m', o2)
  {
    WriteIs(m, m', p, pc, c);
    SameQueue(m.qs[o.asked.i]);
    SameQueue(m.qs[Dest(o.asked)]);
  }

  /** It goes on with the next item, the last one, or the tail store. */
  lemma PutsNext(m: Mem, m': Mem, pc: Pc, o: Observed, o2: Observed)
    requires pc.SWrite? && CallFacts(m, pc, o) && InQueues(m', o2) && HasPut(o, o2, pc.x)
    requires pc.k < Moved(pc.pop, pc.n) && pc.x == o.front[pc.k] && pc.i < |m'.qs| && pc.j < |m'.qs|
    requires Items(m', pc.i) == Items(m, pc.i) && Unseen(m'.qs[pc.j]) == Unseen(m.qs[pc.j]) + [pc.x]
    ensures CallInv(m', NextMove(pc.i, pc.j, pc.pop, pc.from, pc.n, pc.dt, pc.k + 1), o2)
  {
    assert o.front[..pc.k] + [pc.x] == o.front[..pc.k + 1];
  }

  lemma WritesNext(m: Mem, p: nat, pc: Pc)
    requires PcInv(m, p, pc) && CopyInv(m, pc) && pc.SWrite?
    ensures pc.k < Moved(pc.pop, pc.n) && pc.k < |Items(m, pc.i)| && pc.x == Items(m, pc.i)[pc.k]
  {
    PcPoint(m, p, pc);
    CopyPoint(m, pc);
  }

  lemma OwnWriteCall(m: Mem, m': Mem, p: nat, pc: Pc, c: Choice, o: Observed)
    requires QsInv(m.qs) && ThreadInv(m, p, pc) && Acts(m, p, pc, c) && pc.SWrite? && CallInv(m, pc, o)
    requires m' == MemAfter(m, p, pc, c) && |m'.qs| == |m.qs|
    ensures CallInv(m', NextMove(pc.i, pc.j, pc.pop, pc.from, pc.n, pc.dt, pc.k + 1),
                    Observe(o, m, m', Moves(m, p, pc, c)))
  {
    CallPoint(m, pc, o);
    WritesNext(m, p, pc);
    WriteIs(m, m', p, pc, c);
    WriteShows(m, m', p, pc, c, o);
    PutsNext(m, m', pc, o, Observe(o, m, m', Moves(m, p, pc, c)));
  }

  lemma PublishIs(m: Mem, m': Mem, p: nat, pc: Pc, c: Choice)
    requires QsInv(m.qs) && Acts(m, p, pc, c) && pc.SPublish? && m' == MemAfter(m, p, pc, c)
    ensures pc.j < |m.qs| == |m'.qs| && m'.qs == m.qs[pc.j := m'.qs[pc.j]] && Moves(m, p, pc, c) == None
    ensures Visible(m'.qs[pc.j]) == Visible(m.qs[pc.j]) + Unseen(m.qs[pc.j])
  {
    ActPoint(m, p, pc, c);
    assert QInv(m.qs[pc.j]);
    PublishOrder(m.qs[pc.j], m'.qs[pc.j], pc.t);
  }

  /** From o to o2 the call has made the items xs visible. */
  predicate HasShown(o: Observed, o2: Observed, xs: seq<Item>) {
    && o.Observed? && o2.Observed? && o2.asked == o.asked && o2.put == o.put && o2.got == o.got
    && o2.front == o.front && o2.shown == o.shown + xs
  }

  lemma ShowsAll(m: Mem, m': Mem, pc: Pc, o: Observed, o2: Observed)
    requires pc.SPublish? && CallFacts(m, pc, o) && InQueues(m', o2) && HasShown(o, o2, o.put)
    ensures CallInv(m', RHeads(pc.i), o2)
  {
  }

  lemma PublishShows(m: Mem, m': Mem, p: nat, pc: Pc, c: Choice, o: Observed)
    requires QsInv(m.qs) && Acts(m, p, pc, c) && pc.SPublish? && m' == MemAfter(m, p, pc, c)
    requires |m'.qs| == |m.qs| && InQueues(m, o) && Dest(o.asked) == pc.j
    ensures pc.j < |m.qs|
    ensures var o2 := Observe(o, m, m', Moves(m, p, pc, c)); HasShown(o, o2, Unseen(m.qs[pc.j])) && InQueues(m', o2)
  {
    PublishIs(m, m', p, pc, c);
    SameQueue(m.qs[o.asked.i]);
    assert Added(m.qs[pc.j], m'.qs[pc.j]) == Unseen(m.qs[pc.j]);
  }

  lemma OwnShowCall(m: Mem, m': Mem, p: nat, pc: Pc, c: Choice, o: Observed)
    requires QsInv(m.qs) && Acts(m, p, pc, c) && pc.SPublish? && CallInv(m, pc, o)
    requires m' == MemAfter(m, p, pc, c) && |m'.qs| == |m.qs|
    ensures CallInv(m', RHeads(pc.i), Observe(o, m, m', Moves(m, p, pc, c)))
  {
    CallPoint(m, pc, o);
    PublishShows(m, m', p, pc, c, o);
    ShowsAll(m, m', pc, o, Observe(o, m, m', Moves(m, p, pc, c)));
  }

  lemma EndIs(m: Mem, m': Mem, p: nat, pc: Pc, c: Choice)
    requires QsInv(m.qs) && Acts(m, p, pc, c) && (pc.RHeads? || pc.RCas?) && m' == MemAfter(m, p, pc, c)
    ensures pc.i < |m.qs| == |m'.qs| && m'.qs == m.qs[pc.i := m'.qs[pc.i]] && SameOrder(m.qs[pc.i], m'.qs[pc.i])
    ensures Moves(m, p, pc, c) == None
  {
    ActPoint(m, p, pc, c);
  }

  lemma Ends(m: Mem, m': Mem, pc: Pc, pc': Pc, o: Observed, o2: Observed)
    requires (pc.RHeads? || pc.RCas?) && CallFacts(m, pc, o) && InQueues(m', o2) && HasShown(o, o2, [])
    requires pc' == Idle || pc'.RCas?
    ensures CallInv(m', pc', o2)
  {
  }

  lemma OwnEndCall(m: Mem, m': Mem, p: nat, pc: Pc, pc': Pc, c: Choice, o: Observed)
    requires QsInv(m.qs) && Acts(m, p, pc, c) && (pc.RHeads? || pc.RCas?) && CallInv(m, pc, o)
    requires m' == MemAfter(m, p, pc, c) && |m'.qs| == |m.qs| && (pc' == Idle || pc'.RCas?)
    ensures CallInv(m', pc', Observe(o, m, m', Moves(m, p, pc, c)))
  {
    CallPoint(m, pc, o);
    EndIs(m, m', p, pc, c);
    ObserveQuiet(o, m, m', None, pc.i);
    Ends(m, m', pc, pc', o, Observe(o, m, m', None));
  }

  /** The next program point of a steal or drain that moves its items. */
  lemma MoveIs(m: Mem, p: nat, pc: Pc, c: Choice)
    requires Sane(m, pc) && PcInv(m, p, pc)
    ensures var pc' := MovePc(m, pc, c);
            && (pc.SWrite? ==> pc' == NextMove(pc.i, pc.j, pc.pop, pc.from, pc.n, pc.dt, pc.k + 1))
            && (pc.SLast? ==> pc.n >= 1 && pc' == SPublish(pc.i, pc.j, pc.dt, pc.dt + pc.n - 1))
            && (pc.SPublish? ==> pc' == RHeads(pc.i)) && (pc.DNext? ==> pc' == Idle || pc' == RHeads(pc.i))
            && (pc.RHeads? || pc.RCas? ==> pc' == Idle || pc'.RCas?)
  {
    SanePoint(m, pc);
    PcPoint(m, p, pc);
  }

  lemma OwnMoveCall(m: Mem, m': Mem, p: nat, pc: Pc, pc': Pc, c: Choice, o: Observed)
    requires MemInv(m) && ThreadInv(m, p, pc) && Acts(m, p, pc, c) && !InWorker(pc) && !InBook(pc) && pc != Idle
    requires CallInv(m, pc, o) && m' == MemAfter(m, p, pc, c) && |m'.qs| == |m.qs| && pc' == MovePc(m, pc, c)
    ensures CallInv(m', pc', Observe(o, m, m', Moves(m, p, pc, c)))
  {
    MoveIs(m, p, pc, c);
    if pc.SRead? { OwnReadCall(m, m', p, pc, pc', c, o); }
    else if pc.SWrite? { OwnWriteCall(m, m', p, pc, c, o); }
    else if pc.SLast? { OwnLastCall(m, m', p, pc, c, o, pc.dt + pc.n - 1); }
    else if pc.SPublish? { OwnShowCall(m, m', p, pc, c, o); }
    else if pc.DNext? { OwnNextCall(m, m', p, pc, c, o); }
    else { OwnEndCall(m, m', p, pc, pc', c, o); }
  }

  lemma OwnBookingCall(m: Mem, m': Mem, p: nat, pc: Pc, c: Choice, o: Observed)
    requires QsInv(m.qs) && ThreadInv(m, p, pc) && Acts(m, p, pc, c) && InBook(pc) && !pc.BCount? && CallInv(m, pc, o)
    requires m' == MemAfter(m, p, pc, c) && |m'.qs| == |m.qs|
    ensures CallInv(m', BookPc(m, pc, c), Observe(o, m, m', Moves(m, p, pc, c)))
  {
    SanePoint(m, pc);
    if pc.BCas? && Books(m, pc, c) { OwnBookCall(m, m', p, pc, c, o); } else { OwnLookCall(m, p, pc, c, o); }
  }

  lemma OwnCall(m: Mem, m': Mem, p: nat, pc: Pc, c: Choice, o: Observed)
    requires MemInv(m) && ThreadInv(m, p, pc) && Acts(m, p, pc, c) && pc != Idle && !pc.BCount? && CallInv(m, pc, o)
    requires m' == MemAfter(m, p, pc, c) && |m'.qs| == |m.qs|
    ensures CallInv(m', PcAfter(m, pc, c), Observe(o, m, m', Moves(m, p, pc, c)))
  {
    if InWorker(pc) { OwnWorkerCall(m, m', p, pc, c, o); }
    else if InBook(pc) { OwnBookingCall(m, m', p, pc, c, o); }
    else { OwnMoveCall(m, m', p, pc, MovePc(m, pc, c), c, o); }
  }

  // ---------- the steps of others ----------

  /** What the call of thread q relies on stays. */
  ghost predicate Spares(m: Mem, m': Mem, q: nat) {
    && |m'.qs| == |m.qs| && m'.own == m.own
    && (forall j :: 0 <= j < |m.qs| && Owns(m, q, j) ==> Unseen(m'.qs[j]) == Unseen(m.qs[j]))
    && (forall i: nat :: i < |m.qs| && m.qs[i].book.Some? && m.qs[i].book.value.thief == Some(q) ==>
          Items(m', i) == Items(m, i))
    && (forall i, pos: nat :: 0 <= i < |m.qs| && Owns(m, q, i) && m.qs[i].hold == Some(pos) && pos in m.qs[i].cont ==>
          pos in m'.qs[i].cont && m'.qs[i].cont[pos] == m.qs[i].cont[pos])
  }

  lemma SparesSame(m: Mem, q: nat)
    ensures Spares(m, m, q)
  {
  }

  lemma SparesQueue(m: Mem, m': Mem, q: nat, i: nat)
    requires i < |m.qs| == |m'.qs| && m'.own == m.own && m'.qs == m.qs[i := m'.qs[i]]
    requires Owns(m, q, i) ==> Unseen(m'.qs[i]) == Unseen(m.qs[i])
    requires m.qs[i].book.Some? && m.qs[i].book.value.thief == Some(q) ==> Items(m', i) == Items(m, i)
    requires forall pos: nat :: Owns(m, q, i) && m.qs[i].hold == Some(pos) && pos in m.qs[i].cont ==>
               pos in m'.qs[i].cont && m'.qs[i].cont[pos] == m.qs[i].cont[pos]
    ensures Spares(m, m', q)
  {
  }

  /** A step on a queue of the acting thread's own. */
  lemma SparesOwn(m: Mem, m': Mem, p: nat, q: nat, i: nat)
    requires p != q && i < |m.qs| == |m'.qs| && m'.own == m.own && m'.qs == m.qs[i := m'.qs[i]] && Owns(m, p, i)
    requires Items(m', i) == Items(m, i)
    ensures Spares(m, m', q)
  {
    SparesQueue(m, m', q, i);
  }

  lemma WorkerSpares(m: Mem, m': Mem, p: nat, pc: Pc, c: Choice, q: nat)
    requires QsInv(m.qs) && Acts(m, p, pc, c) && p != q && m' == MemAfter(m, p, pc, c)
    requires pc.PFill? || pc.PPublish? || pc.QRead? || pc.SWrite? || pc.SPublish?
             || (pc.QCas? && Target(m, pc, c).Some?)
    ensures Spares(m, m', q)
  {
    ActPoint(m, p, pc, c);
    SparesOwn(m, m', p, q, if pc.SWrite? || pc.SPublish? then pc.j else pc.i);
  }

  lemma TakeSpares(m: Mem, m': Mem, p: nat, pc: Pc, c: Choice, q: nat)
    requires MemInv(m) && Acts(m, p, pc, c) && p != q && (pc.SRead? || pc.SLast? || pc.DNext?)
             && m' == MemAfter(m, p, pc, c)
    ensures Spares(m, m', q)
  {
    TakenIs(m, m', p, pc, c);
    TakenQueue(m, m', p, pc, c);
    OthersSame(m, p, pc, c, pc.i);
    assert m'.own == m.own by { SanePoint(m, pc); }
    assert QInv(m.qs[pc.i]);
    SparesQueue(m, m', q, pc.i);
  }

  lemma HeadsSpare(m: Mem, m': Mem, p: nat, pc: Pc, c: Choice, q: nat)
    requires QsInv(m.qs) && Acts(m, p, pc, c) && p != q && (pc.BCas? || pc.RCas?) && Target(m, pc, c).Some?
             && m' == MemAfter(m, p, pc, c)
    ensures Spares(m, m', q)
  {
    ActPoint(m, p, pc, c);
    assert QInv(m.qs[pc.i]);
    SparesQueue(m, m', q, pc.i);
  }

  lemma StepSpares(m: Mem, m': Mem, p: nat, pc: Pc, c: Choice, q: nat)
    requires MemInv(m) && Acts(m, p, pc, c) && p != q && m' == MemAfter(m, p, pc, c)
    ensures Spares(m, m', q)
  {
    if pc.SRead? || pc.SLast? || pc.DNext? { TakeSpares(m, m', p, pc, c, q); }
    else if Target(m, pc, c) == None { NoTarget(m, p, pc, c); SparesSame(m, q); }
    else if pc.BCas? || pc.RCas? { HeadsSpare(m, m', p, pc, c, q); }
    else { WorkerSpares(m, m', p, pc, c, q); }
  }

  lemma NoTarget(m: Mem, p: nat, pc: Pc, c: Choice)
    requires Sane(m, pc) && Target(m, pc, c) == None
    ensures MemAfter(m, p, pc, c).qs == m.qs && MemAfter(m, p, pc, c).own == m.own
  {
    SanePoint(m, pc);
  }

  lemma OtherCall(m: Mem, m': Mem, q: nat, qc: Pc, o: Observed)
    requires Spares(m, m', q) && PcInv(m, q, qc) && CallInv(m, qc, o)
    ensures CallInv(m', qc, o)
  {
    CallPoint(m, qc, o);
    PcPoint(m, q, qc);
  }

  // ---------- the calls of a run ----------

  ghost predicate Steps(s: State, a: Action, t: State) {
    Enabled(s, a) && Sane(s.m, s.pcs[a.p]) && !Harmful(s, a) && t == Apply(s, a)
  }

  /** A run and the actions it took. */
  ghost predicate Trace(r: seq<State>, acts: seq<Action>, caps: seq<nat>, own: seq<nat>) {
    && |r| == |acts| + 1 && |own| == |caps| && r[0] == Initial(caps, own, |r[0].pcs|)
    && (forall i :: 0 <= i < |caps| ==> caps[i] > 0 && own[i] < |r[0].pcs|)
    && forall i :: 0 <= i < |acts| ==> Steps(r[i], acts[i], r[i + 1])
  }

  lemma TraceIsRun(r: seq<State>, acts: seq<Action>, caps: seq<nat>, own: seq<nat>)
    requires Trace(r, acts, caps, own)
    ensures Run(r, caps, own)
  {
    forall i | 0 <= i < |r| - 1 ensures Next(r[i], r[i + 1]) { assert Steps(r[i], acts[i], r[i + 1]); }
  }

  /** The calls of a thread, those that wait for their callback first. */
  function ObserveAll(st: seq<Observed>, s: State, a: Action, t: State): (st': seq<Observed>)
    requires |st| > 0 && Enabled(s, a) && Sane(s.m, s.pcs[a.p])
    ensures |st'| > 0
  {
    var n := |st| - 1;
    match a
    case Go(p, c) =>
      if InQueues(s.m, st[n]) && |t.m.qs| == |s.m.qs| then
        st[n := Observe(st[n], s.m, t.m, Moves(s.m, p, s.pcs[p], c))]
      else st
    case Call(_) => st + [NoCall]
    case IterPush(_) => st
    case Return(_, wanted) =>
      if n == 0 || st[n - 1].NoCall? then st
      else st[..n - 1] + [st[n - 1].(zero := st[n - 1].zero || wanted == 0)]
    case _ => st[n := Asked(a)]
  }

  /** The calls of thread p after the first k actions; the last one is its current or last call. */
  ghost function CallsOf(r: seq<State>, acts: seq<Action>, caps: seq<nat>, own: seq<nat>, k: nat, p: nat):
      (st: seq<Observed>)
    requires Trace(r, acts, caps, own) && k <= |acts|
    ensures |st| > 0
  {
    if k == 0 then [NoCall]
    else
      var st := CallsOf(r, acts, caps, own, k - 1, p);
      assert Steps(r[k - 1], acts[k - 1], r[k]);
      if acts[k - 1].p != p then st else ObserveAll(st, r[k - 1], acts[k - 1], r[k])
  }

  /** The calls of a thread are as far as its program counter and its waiting calls say. */
  ghost predicate StackInv(m: Mem, pc: Pc, calls: seq<Pc>, st: seq<Observed>) {
    && |st| == |calls| + 1 && CallInv(m, pc, st[|calls|])
    && forall k :: 0 <= k < |calls| ==> CallInv(m, calls[k], st[k])
  }

  lemma WaitingCall(m: Mem, m': Mem, pc: Pc, o: Observed)
    requires pc.BCount? && CallInv(m, pc, o) && |m'.qs| == |m.qs|
    ensures CallInv(m', pc, o)
  {
    CallPoint(m, pc, o);
  }

  lemma WaitingCalls(m: Mem, m': Mem, calls: seq<Pc>, st: seq<Observed>)
    requires |st| >= |calls| && |m'.qs| == |m.qs| && forall k :: 0 <= k < |calls| ==> calls[k].BCount?
    requires forall k :: 0 <= k < |calls| ==> CallInv(m, calls[k], st[k])
    ensures forall k :: 0 <= k < |calls| ==> CallInv(m', calls[k], st[k])
  {
    forall k | 0 <= k < |calls| ensures CallInv(m', calls[k], st[k]) { WaitingCall(m, m', calls[k], st[k]); }
  }

  /** The answer of a count function. */
  lemma AnswerCall(m: Mem, p: nat, pc: Pc, wanted: nat, o: Observed)
    requires pc.BCount? && CallInv(m, pc, o) && PcInv(m, p, pc)
    ensures o.Observed? && CallInv(m, Resumed(pc, wanted), o.(zero := o.zero || wanted == 0))
  {
    CallPoint(m, pc, o);
    PcPoint(m, p, pc);
  }

  lemma StartCall(s: State, a: Action)
    requires Enabled(s, a) && Starts(a)
    ensures CallInv(s.m, StartPc(a), Asked(a))
  {
  }

  lemma GoStack(s: State, t: State, p: nat, c: Choice, st: seq<Observed>)
    requires Inv(s) && Steps(s, Go(p, c), t) && StackInv(s.m, s.pcs[p], s.calls[p], st)
    ensures StackInv(t.m, t.pcs[p], t.calls[p], ObserveAll(st, s, Go(p, c), t))
  {
    var m, pc := s.m, s.pcs[p];
    assert ThreadInv(m, p, pc) && WaitInv(m, p, s.calls[p]);
    MayAct(m, p, pc, c);
    SameNumber(m, p, pc, c);
    OwnCall(m, t.m, p, pc, c, st[|st| - 1]);
    WaitingCalls(m, t.m, s.calls[p], st);
  }

  lemma SameNumber(m: Mem, p: nat, pc: Pc, c: Choice)
    requires Sane(m, pc)
    ensures |MemAfter(m, p, pc, c).qs| == |m.qs|
  {
    SanePoint(m, pc);
  }

  lemma ReturnStack(s: State, t: State, p: nat, wanted: nat, st: seq<Observed>)
    requires Inv(s) && Steps(s, Return(p, wanted), t) && StackInv(s.m, s.pcs[p], s.calls[p], st)
    ensures StackInv(t.m, t.pcs[p], t.calls[p], ObserveAll(st, s, Return(p, wanted), t))
    ensures ObserveAll(st, s, Return(p, wanted), t)[|st| - 2].Observed?
  {
    assert WaitInv(s.m, p, s.calls[p]);
    AnswerCall(s.m, p, Waiting(s, p), wanted, st[|st| - 2]);
  }

  lemma OwnStack(s: State, a: Action, t: State, st: seq<Observed>)
    requires Inv(s) && Steps(s, a, t) && StackInv(s.m, s.pcs[a.p], s.calls[a.p], st)
    ensures StackInv(t.m, t.pcs[a.p], t.calls[a.p], ObserveAll(st, s, a, t))
  {
    match a
    case Go(p, c) => GoStack(s, t, p, c, st);
    case Return(p, wanted) => ReturnStack(s, t, p, wanted, st);
    case Call(_) =>
    case IterPush(_) =>
    case _ => StartCall(s, a);
  }

  lemma OtherStack(s: State, a: Action, t: State, q: nat, st: seq<Observed>)
    requires Inv(s) && Steps(s, a, t) && q != a.p && q < |s.pcs| && StackInv(s.m, s.pcs[q], s.calls[q], st)
    ensures StackInv(t.m, t.pcs[q], t.calls[q], st)
  {
    if a.Go? {
      var m, pc := s.m, s.pcs[a.p];
      assert ThreadInv(m, a.p, pc) && ThreadInv(m, q, s.pcs[q]) && WaitInv(m, q, s.calls[q]);
      MayAct(m, a.p, pc, a.c);
      StepSpares(m, t.m, a.p, pc, a.c, q);
      OtherCall(m, t.m, q, s.pcs[q], st[|st| - 1]);
      WaitingCalls(m, t.m, s.calls[q], st);
    }
  }

  ghost predicate StacksInv(r: seq<State>, acts: seq<Action>, caps: seq<nat>, own: seq<nat>, k: nat)
    requires Trace(r, acts, caps, own) && k <= |acts|
  {
    && |r[k].calls| == |r[k].pcs|
    && forall p :: 0 <= p < |r[k].pcs| ==>
         StackInv(r[k].m, r[k].pcs[p], r[k].calls[p], CallsOf(r, acts, caps, own, k, p))
  }

  lemma TraceStep(r: seq<State>, acts: seq<Action>, caps: seq<nat>, own: seq<nat>, k: nat)
    requires Trace(r, acts, caps, own) && k < |acts| && StacksInv(r, acts, caps, own, k)
    ensures StacksInv(r, acts, caps, own, k + 1)
  {
    TraceIsRun(r, acts, caps, own);
    RunKeepsInv(r, caps, own, k);
    var s, a, t := r[k], acts[k], r[k + 1];
    assert Steps(s, a, t);
    OwnStack(s, a, t, CallsOf(r, acts, caps, own, k, a.p));
    forall p | 0 <= p < |t.pcs|
      ensures StackInv(t.m, t.pcs[p], t.calls[p], CallsOf(r, acts, caps, own, k + 1, p))
    {
      if p != a.p { OtherStack(s, a, t, p, CallsOf(r, acts, caps, own, k, p)); }
    }
  }

  lemma {:induction false} TraceInv(r: seq<State>, acts: seq<Action>, caps: seq<nat>, own: seq<nat>, k: nat)
    requires Trace(r, acts, caps, own) && k <= |acts|
    ensures StacksInv(r, acts, caps, own, k)
    decreases k
  {
    if k > 0 {
      TraceInv(r, acts, caps, own, k - 1);
      TraceStep(r, acts, caps, own, k - 1);
    }
  }

  /** Whatever else goes on, in callbacks too: push puts its item at the end, unless there was no
      room; extend as many items as there was room for; pop hands out the first visible item, or
      has seen none; steal moves the first visible items, in their order, and steal_and_pop hands
      out the last of them, or nothing happens, for a reason it has seen. */
  lemma EveryCallReturnsWhatItShould(r: seq<State>, acts: seq<Action>, caps: seq<nat>, own: seq<nat>, k: nat)
    requires Trace(r, acts, caps, own) && k < |acts| && (acts[k].Go? || acts[k].Return?)
    requires acts[k].p < |r[k + 1].pcs| && r[k + 1].pcs[acts[k].p] == Idle
    ensures var st := CallsOf(r, acts, caps, own, k + 1, acts[k].p); Returned(st[|st| - 1])
  {
    TraceInv(r, acts, caps, own, k);
    TraceInv(r, acts, caps, own, k + 1);
    var s, a, t := r[k], acts[k], r[k + 1];
    assert Steps(s, a, t);
    var st := CallsOf(r, acts, caps, own, k, a.p);
    CallPoint(t.m, Idle, ObserveAll(st, s, a, t)[|t.calls[a.p]|]);
    if a.Return? {
      TraceIsRun(r, acts, caps, own);
      RunKeepsInv(r, caps, own, k);
      ReturnStack(s, t, a.p, a.wanted, st);
    } else {
      SameNumber(s.m, a.p, s.pcs[a.p], a.c);
    }
  }
}
