/**
 The work-stealing queues: any number of FIFO rings, each with one worker handle held by one
 thread, and any number of threads that push, pop, drain and steal from one ring into another
 (or into the same one). Positions are unbounded here; StealWords relates them to the 32-bit
 ones of the source.
 One action is one atomic access, or one access to a buffer slot. A thread reads the tail of a
 queue it owns together with its other load, as nobody else writes it.
 Two calls run code of their caller: a steal or drain its count function, which may make any call
 it likes, and extend its iterator, which may push to the same queue.
 */
module StealQueue {
  import opened Basics
  import opened Laps

  /** The identity of a pushed item. */
  type Item = nat

  /** The items at from..to are being stolen, or drained by the owner (no thief); those before
      `done` have been moved out. */
  datatype Book = Book(thief: Option<nat>, from: nat, to: nat, done: nat, items: seq<Item>)

  datatype Queue = Queue(
    cap: nat,
    wh: nat,                     // worker head
    sh: nat,                     // stealer head, in the same word
    tail: nat,
    buf: seq<Option<Item>>,
    // history
    fill: nat,                   // slots tail..fill are written and not yet visible
    hold: Option<nat>,           // a position popped and not yet read
    book: Option<Book>,
    cont: map<nat, Item>)        // the unread items, by position
  {
    predicate WellFormed() {
      cap > 0 && |buf| == cap
    }
  }

  datatype Loc = At(q: nat, pos: nat) | Held(p: nat) | Out(p: nat)

  datatype Mem = Mem(
    qs: seq<Queue>,
    own: seq<nat>,               // the thread that has the worker handle of a queue
    loc: map<Item, Loc>)         // history: where every item pushed so far is

  /** A steal of the items of one queue into queue j (keeping the last one if `pop`), or a drain. */
  datatype Job = Steal(j: nat, pop: bool, dt: nat, free: nat) | Drain   // dt, free: tail and room of j

  datatype Pc =
    | Idle
    | PHeads(i: nat, n: nat, single: bool)                     // push (single) or extend with n items
    // n more to write, from t on, below the limit; extend first asks its iterator
    | PFill(i: nat, n: nat, t: nat, limit: nat, single: bool)
    | PPublish(i: nat, t: nat, single: bool)                   // about to store t as the tail
    | QHeads(i: nat)                                           // pop
    | QCas(i: nat, wh: nat, sh: nat)
    | QRead(i: nat, pos: nat)
    | SLook(i: nat, j: nat, pop: bool)                         // steal: is_likely_empty
    | SLookTail(i: nat, j: nat, pop: bool, wh: nat)
    | SDest(i: nat, j: nat, pop: bool)                         // about to compute the free capacity
    | BHeads(i: nat, job: Job)                                 // book_items
    | BTail(i: nat, job: Job, wh: nat, sh: nat)
    | BCount(i: nat, job: Job, wh: nat, count: nat)            // about to call count_fn
    | BCas(i: nat, job: Job, wh: nat, n: nat)
    | SRead(i: nat, j: nat, pop: bool, from: nat, n: nat, dt: nat, k: nat)  // moved k of the n booked items to dt..
    | SWrite(i: nat, j: nat, pop: bool, from: nat, n: nat, dt: nat, k: nat, x: Item)
    | SLast(i: nat, j: nat, from: nat, n: nat, dt: nat)        // steal_and_pop: about to read the last item
    | SPublish(i: nat, j: nat, dt: nat, t: nat)                // about to store t as the destination tail
    | DNext(i: nat)                                            // a Drain is about to yield an item
    | RHeads(i: nat)                                           // about to end the steal or drain
    | RCas(i: nat, wh: nat, sh: nat)

  /** Of each thread, the call under way and those around it that wait for their callback. */
  datatype State = State(m: Mem, pcs: seq<Pc>, calls: seq<seq<Pc>>)

  /** What a step does not decide itself: whether a weak CAS fails spuriously, and the item that
      a push or extend is given. */
  datatype Choice = Choice(spurious: bool, item: Item)

  datatype Action =
    | StartPush(p: nat, i: nat, n: nat, single: bool) | StartPop(p: nat, i: nat)
    | StartSteal(p: nat, i: nat, j: nat, pop: bool) | StartDrain(p: nat, i: nat) | StartNext(p: nat, i: nat)
    | Go(p: nat, c: Choice)                                    // the next access of the call under way
    | Call(p: nat)                                             // it calls its count function
    | IterPush(p: nat)                                         // it asks its iterator, which calls push
    | Return(p: nat, wanted: nat)                              // the callback ends; a count function answers

  function EmptyQueue(cap: nat): Queue {
    Queue(cap, 0, 0, 0, seq(cap, _ => None), 0, None, None, map[])
  }

  function Initial(caps: seq<nat>, own: seq<nat>, threads: nat): State {
    var qs := seq(|caps|, (i: nat) requires i < |caps| => EmptyQueue(caps[i]));
    State(Mem(qs, own, map[]), seq(threads, _ => Idle), seq(threads, _ => []))
  }

  /** A Drain with items left to yield. */
  predicate Draining(q: Queue) {
    q.book.Some? && q.book.value.thief == None && q.book.value.done != q.book.value.to
  }

  predicate Owns(m: Mem, p: nat, i: nat) {
    i < |m.qs| && i < |m.own| && m.own[i] == p
  }

  predicate InExtend(pc: Pc) {
    (pc.PFill? || pc.PPublish?) && !pc.single
  }

  /** A call starts only on a queue whose worker handle the thread has; new items are fresh. */
  predicate Enabled(s: State, a: Action) {
    && a.p < |s.pcs| == |s.calls|
    && match a
       case StartPush(p, i, n, single) => s.pcs[p] == Idle && Owns(s.m, p, i) && (single ==> n == 1)
       case StartPop(p, i) => s.pcs[p] == Idle && Owns(s.m, p, i)
       case StartSteal(p, i, j, _) => s.pcs[p] == Idle && Owns(s.m, p, j) && i < |s.m.qs|
       case StartDrain(p, i) => s.pcs[p] == Idle && Owns(s.m, p, i)
       case StartNext(p, i) => s.pcs[p] == Idle && Owns(s.m, p, i) && Draining(s.m.qs[i])
       case Go(p, c) => s.pcs[p] != Idle && !s.pcs[p].BCount? && (s.pcs[p].PFill? ==> c.item !in s.m.loc)
       case Call(p) => s.pcs[p].BCount?
       case IterPush(p) => InExtend(s.pcs[p]) && s.pcs[p].i < |s.m.qs|
       case Return(p, _) => s.pcs[p] == Idle && s.calls[p] != []
  }

  // ---------- what an action does to a queue ----------

  function Put(q: Queue, pos: nat, x: Item): Queue
    requires q.WellFormed()
  {
    q.(buf := q.buf[Idx(pos, q.cap) := Some(x)], cont := q.cont[pos := x], fill := pos + 1)
  }

  /** Pop moves the worker head, and the stealer head with it unless a steal is under way. */
  function PopHead(q: Queue): Queue {
    q.(wh := q.wh + 1, sh := if q.sh == q.wh then q.sh + 1 else q.sh, hold := Some(q.wh))
  }

  function TakeHeld(q: Queue, pos: nat): Queue {
    q.(hold := None, cont := q.cont - {pos})
  }

  /** The n items from a position on. */
  function Span(cont: map<nat, Item>, from: nat, n: nat): (s: seq<Item>)
    ensures |s| == n
  {
    seq(n, (u: nat) => if from + u in cont then cont[from + u] else 0)
  }

  function BookItems(q: Queue, thief: Option<nat>, n: nat): Queue {
    q.(wh := q.wh + n, book := Some(Book(thief, q.sh, q.sh + n, q.sh, Span(q.cont, q.wh, n))))
  }

  function TakeBooked(q: Queue, pos: nat): Queue
    requires q.book.Some?
  {
    q.(book := Some(q.book.value.(done := pos + 1)), cont := q.cont - {pos})
  }

  function Release(q: Queue, wh: nat): Queue {
    q.(sh := wh, book := None)
  }

  function ReadAt(q: Queue, pos: nat): Option<Item>
    requires q.WellFormed()
  {
    q.buf[Idx(pos, q.cap)]
  }

  predicate Readable(m: Mem, i: nat, pos: nat) {
    i < |m.qs| && m.qs[i].WellFormed() && ReadAt(m.qs[i], pos).Some?
  }

  /** Room in the destination: its capacity minus what lies between its stealer head and tail. */
  function Free(q: Queue): int {
    q.cap - (q.tail - q.sh)
  }

  function Min(x: nat, y: nat): nat {
    if x < y then x else y
  }

  /** book_items takes what count_fn wants, but at most its bound (a drain has none) and at
      most the items there are. */
  function Count(job: Job, wanted: nat, items: nat): nat {
    var bounded := match job
                   case Steal(_, pop, _, free) => Min(wanted, if pop then free + 1 else free)
                   case Drain => wanted;
    Min(bounded, items)
  }

  /** How many of the n stolen items go into the destination. */
  function Moved(pop: bool, n: nat): nat {
    if pop && n > 0 then n - 1 else n
  }

  /** Within the buffers; every reachable program point is (see Inv). */
  predicate InRange(m: Mem, pc: Pc) {
    match pc
    case Idle => true
    case PFill(i, n, _, _, _) => i < |m.qs| && m.qs[i].WellFormed() && n > 0
    case QRead(i, pos) => Readable(m, i, pos)
    case SLook(i, j, _) => i < |m.qs| && j < |m.qs|
    case SLookTail(i, j, _, _) => i < |m.qs| && j < |m.qs|
    case SDest(i, j, _) => i < |m.qs| && j < |m.qs| && Free(m.qs[j]) >= 0
    case BTail(i, _, wh, _) => i < |m.qs| && wh <= m.qs[i].tail
    case SRead(i, j, _, from, _, _, k) => Readable(m, i, from + k) && j < |m.qs| && m.qs[i].book.Some?
    case SWrite(_, j, _, _, _, _, _, x) => j < |m.qs| && m.qs[j].WellFormed()
    case SLast(i, j, from, n, _) => n > 0 && Readable(m, i, from + n - 1) && j < |m.qs| && m.qs[i].book.Some?
    case SPublish(i, j, _, _) => i < |m.qs| && j < |m.qs|
    case DNext(i) => i < |m.qs| && m.qs[i].book.Some? && Readable(m, i, m.qs[i].book.value.done)
    case _ => pc.i < |m.qs|
  }

  /** Quantified, so that the cases come into a proof only where SanePoint is called. */
  ghost predicate Sane(m: Mem, pc: Pc) {
    forall x :: x == pc ==> InRange(m, x)
  }

  lemma SanePoint(m: Mem, pc: Pc)
    requires Sane(m, pc)
    ensures InRange(m, pc)
  {
  }

  function SetQueue(m: Mem, i: nat, q: Queue): Mem
    requires i < |m.qs|
  {
    m.(qs := m.qs[i := q])
  }

  /** Queue i becomes q, and item x is now at l. */
  function MoveItem(m: Mem, i: nat, q: Queue, x: Item, l: Loc): Mem
    requires i < |m.qs|
  {
    m.(qs := m.qs[i := q], loc := m.loc[x := l])
  }

  /** The item a thread reads. */
  function ItemAt(m: Mem, i: nat, pos: nat): Item
    requires Readable(m, i, pos)
  {
    ReadAt(m.qs[i], pos).value
  }

  function Thief(p: nat, job: Job): Option<nat> {
    if job.Drain? then None else Some(p)
  }

  predicate HeadsAre(q: Queue, wh: nat, sh: nat) {
    q.wh == wh && q.sh == sh
  }

  /** The CAS on the heads succeeds. */
  predicate Pops(m: Mem, pc: Pc, c: Choice)
    requires pc.QCas? && pc.i < |m.qs|
  {
    HeadsAre(m.qs[pc.i], pc.wh, pc.sh) && m.qs[pc.i].tail != pc.wh && !c.spurious
  }

  predicate Books(m: Mem, pc: Pc, c: Choice)
    requires pc.BCas? && pc.i < |m.qs|
  {
    HeadsAre(m.qs[pc.i], pc.wh, pc.wh) && !c.spurious
  }

  predicate Ends(m: Mem, pc: Pc, c: Choice)
    requires pc.RCas? && pc.i < |m.qs|
  {
    HeadsAre(m.qs[pc.i], pc.wh, pc.sh) && !c.spurious
  }

  /** The shared memory after the access that thread p is at. */
  function MemAfter(m: Mem, p: nat, pc: Pc, c: Choice): Mem
    requires Sane(m, pc)
  {
    SanePoint(m, pc);
    match pc
    case PFill(i, _, t, _, _) => MoveItem(m, i, Put(m.qs[i], t, c.item), c.item, At(i, t))
    case PPublish(i, t, _) => SetQueue(m, i, m.qs[i].(tail := t))
    case QCas(i, _, _) => if Pops(m, pc, c) then SetQueue(m, i, PopHead(m.qs[i])) else m
    case QRead(i, pos) => MoveItem(m, i, TakeHeld(m.qs[i], pos), ItemAt(m, i, pos), Out(p))
    case BCas(i, job, _, n) => if Books(m, pc, c) then SetQueue(m, i, BookItems(m.qs[i], Thief(p, job), n)) else m
    case SRead(i, _, _, from, _, _, k) =>
      MoveItem(m, i, TakeBooked(m.qs[i], from + k), ItemAt(m, i, from + k), Held(p))
    case SWrite(_, j, _, _, _, dt, k, x) => MoveItem(m, j, Put(m.qs[j], dt + k, x), x, At(j, dt + k))
    case SLast(i, _, from, n, _) =>
      MoveItem(m, i, TakeBooked(m.qs[i], from + n - 1), ItemAt(m, i, from + n - 1), Out(p))
    case SPublish(_, j, _, t) => SetQueue(m, j, m.qs[j].(tail := t))
    case DNext(i) =>
      var pos := m.qs[i].book.value.done;
      MoveItem(m, i, TakeBooked(m.qs[i], pos), ItemAt(m, i, pos), Out(p))
    case RCas(i, wh, _) => if Ends(m, pc, c) then SetQueue(m, i, Release(m.qs[i], wh)) else m
    case _ => m
  }

  /** With n more items to write, from t on. */
  function NextFill(i: nat, n: nat, t: nat, limit: nat, single: bool): Pc {
    if n > 0 && t != limit then PFill(i, n, t, limit, single) else PPublish(i, t, single)
  }

  /** What push tests. */
  predicate Full(q: Queue) {
    q.tail - q.sh > q.cap - 1
  }

  /** After moving k items of n. */
  function NextMove(i: nat, j: nat, pop: bool, from: nat, n: nat, dt: nat, k: nat): Pc {
    if k < Moved(pop, n) then SRead(i, j, pop, from, n, dt, k)
    else if pop then SLast(i, j, from, n, dt)
    else SPublish(i, j, dt, dt + n)
  }

  /** Where push, extend and pop go on. */
  function WorkerPc(m: Mem, pc: Pc, c: Choice): Pc
    requires Sane(m, pc)
  {
    SanePoint(m, pc);
    match pc
    case PHeads(i, n, single) =>
      var q := m.qs[i];
      if single && Full(q) then Idle else NextFill(i, n, q.tail, q.sh + q.cap, single)
    case PFill(i, n, t, limit, single) => NextFill(i, n - 1, t + 1, limit, single)
    case QHeads(i) => QCas(i, m.qs[i].wh, m.qs[i].sh)
    case QCas(i, wh, _) =>
      if m.qs[i].tail == wh then Idle                                     // None
      else if Pops(m, pc, c) then QRead(i, wh)
      else QCas(i, m.qs[i].wh, m.qs[i].sh)
    case _ => Idle
  }

  /** Where a steal goes on, up to its booking; a drain starts in the middle. */
  function BookPc(m: Mem, pc: Pc, c: Choice): Pc
    requires Sane(m, pc)
  {
    SanePoint(m, pc);
    match pc
    case SLook(i, j, pop) => SLookTail(i, j, pop, m.qs[i].wh)
    case SLookTail(i, j, pop, wh) => if m.qs[i].tail == wh then Idle else SDest(i, j, pop)
    case SDest(i, j, pop) => BHeads(i, Steal(j, pop, m.qs[j].tail, Free(m.qs[j])))
    case BHeads(i, job) => BTail(i, job, m.qs[i].wh, m.qs[i].sh)
    case BTail(i, job, wh, sh) =>
      if sh != wh then Idle                                               // Busy
      else if m.qs[i].tail - wh == 0 then Idle                            // Empty
      else BCount(i, job, wh, m.qs[i].tail - wh)
    case BCas(i, job, wh, n) =>
      if !Books(m, pc, c) then BTail(i, job, m.qs[i].wh, m.qs[i].sh)
      else if job.Drain? then Idle
      else NextMove(i, job.j, job.pop, wh, n, job.dt, 0)
    case _ => Idle
  }

  /** Where a steal or drain goes on from there. */
  function MovePc(m: Mem, pc: Pc, c: Choice): Pc
    requires Sane(m, pc)
  {
    SanePoint(m, pc);
    match pc
    case SRead(i, j, pop, from, n, dt, k) => SWrite(i, j, pop, from, n, dt, k, ItemAt(m, i, from + k))
    case SWrite(i, j, pop, from, n, dt, k, _) => NextMove(i, j, pop, from, n, dt, k + 1)
    case SLast(i, j, from, n, dt) => SPublish(i, j, dt, dt + n - 1)
    case SPublish(i, _, _, _) => RHeads(i)
    case DNext(i) => if m.qs[i].book.value.done + 1 == m.qs[i].book.value.to then RHeads(i) else Idle
    case RHeads(i) => RCas(i, m.qs[i].wh, m.qs[i].sh)
    case RCas(i, _, _) => if Ends(m, pc, c) then Idle else RCas(i, m.qs[i].wh, m.qs[i].sh)
    case _ => Idle
  }

  predicate InWorker(pc: Pc) {
    pc.PHeads? || pc.PFill? || pc.PPublish? || pc.QHeads? || pc.QCas? || pc.QRead?
  }

  predicate InBook(pc: Pc) {
    pc.SLook? || pc.SLookTail? || pc.SDest? || pc.BHeads? || pc.BTail? || pc.BCount? || pc.BCas?
  }

  function PcAfter(m: Mem, pc: Pc, c: Choice): Pc
    requires Sane(m, pc)
  {
    if InWorker(pc) then WorkerPc(m, pc, c) else if InBook(pc) then BookPc(m, pc, c) else MovePc(m, pc, c)
  }

  /** The first program point of a call. */
  predicate Starts(a: Action) {
    !a.Go? && !a.Call? && !a.IterPush? && !a.Return?
  }

  function StartPc(a: Action): Pc
    requires Starts(a)
  {
    match a
    case StartPush(_, i, n, single) => PHeads(i, n, single)
    case StartPop(_, i) => QHeads(i)
    case StartSteal(_, i, j, pop) => SLook(i, j, pop)
    case StartDrain(_, i) => BHeads(i, Drain)
    case StartNext(_, i) => DNext(i)
  }

  /** Where a call goes on after its callback: a count function that in the end gets nothing makes
      its call return Empty. */
  function Resumed(pc: Pc, wanted: nat): Pc {
    if !pc.BCount? then pc
    else
      var n := Count(pc.job, wanted, pc.count);
      if n == 0 then Idle else BCas(pc.i, pc.job, pc.wh, n)
  }

  /** The call that waits for the callback that thread p is in. */
  function Waiting(s: State, p: nat): Pc
    requires p < |s.calls| && s.calls[p] != []
  {
    s.calls[p][|s.calls[p]| - 1]
  }

  /** Thread p leaves the call it is in for one within its callback. */
  function Enter(s: State, p: nat, pc: Pc): State
    requires p < |s.pcs| == |s.calls|
  {
    s.(pcs := s.pcs[p := pc], calls := s.calls[p := s.calls[p] + [s.pcs[p]]])
  }

  function Leave(s: State, p: nat, pc: Pc): State
    requires p < |s.pcs| == |s.calls| && s.calls[p] != []
  {
    s.(pcs := s.pcs[p := pc], calls := s.calls[p := s.calls[p][..|s.calls[p]| - 1]])
  }

  function Apply(s: State, a: Action): State
    requires Enabled(s, a) && Sane(s.m, s.pcs[a.p])
  {
    match a
    case Go(p, c) => s.(m := MemAfter(s.m, p, s.pcs[p], c), pcs := s.pcs[p := PcAfter(s.m, s.pcs[p], c)])
    case Call(p) => Enter(s, p, Idle)
    case IterPush(p) =>
      var i := s.pcs[p].i;
      var q := s.m.qs[i];
      if Full(q) then s else Enter(s, p, NextFill(i, 1, q.tail, q.sh + q.cap, true))
    case Return(p, wanted) => Leave(s, p, Resumed(Waiting(s, p), wanted))
    case _ => s.(pcs := s.pcs[a.p := StartPc(a)])
  }

  /** The answer makes a steal book items under the heads it loaded, although the tail of its
      destination is no longer the one it remembers. */
  predicate BooksBlindly(m: Mem, pc: Pc, wanted: nat) {
    && pc.BCount? && pc.job.Steal? && Count(pc.job, wanted, pc.count) > 0
    && pc.job.j < |m.qs| && m.qs[pc.job.j].tail != pc.job.dt
    && pc.i < |m.qs| && HeadsAre(m.qs[pc.i], pc.wh, pc.wh)
  }

  /** What no callback may do (StealBreak shows that it breaks a queue, and that nothing else
      does): give such an answer, or push an item into a queue that is being extended. */
  predicate Harmful(s: State, a: Action)
    requires Enabled(s, a)
  {
    match a
    case Return(p, wanted) => BooksBlindly(s.m, Waiting(s, p), wanted)
    case IterPush(p) => !Full(s.m.qs[s.pcs[p].i])
    case _ => false
  }

  ghost predicate Next(s: State, t: State) {
    exists a :: Enabled(s, a) && Sane(s.m, s.pcs[a.p]) && !Harmful(s, a) && t == Apply(s, a)
  }

  ghost predicate Run(r: seq<State>, caps: seq<nat>, own: seq<nat>) {
    && |r| > 0 && |own| == |caps| && r[0] == Initial(caps, own, |r[0].pcs|)
       && (forall i :: 0 <= i < |caps| ==> caps[i] > 0 && own[i] < |r[0].pcs|)
    && forall i :: 0 <= i < |r| - 1 ==> Next(r[i], r[i + 1])
  }
}
