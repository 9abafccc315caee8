/**
 The calls of the unbounded queue: what a push, a push_n and a pop have done when they return,
 against what they were asked for. A call is observed from outside, by what its thread's steps
 change in the shared memory.
 */
module UnboundedCalls {
  import opened Basics
  import opened Unbounded
  import opened UnboundedInv
  import opened UnboundedDuty
  import opened UnboundedQueue

  ghost predicate Steps(s: State, a: Action, t: State) {
    Enabled(s, a) && Sane(s.m, s.pcs[a.p]) && t == Apply(s, a)
  }

  /** A run and the actions it took. */
  ghost predicate Trace(r: seq<State>, acts: seq<Action>) {
    && |r| == |acts| + 1 && r[0] == Initial(|r[0].pcs|)
    && forall i :: 0 <= i < |acts| ==> Steps(r[i], acts[i], r[i + 1])
  }

  lemma TraceIsRun(r: seq<State>, acts: seq<Action>)
    requires Trace(r, acts)
    ensures Run(r)
  {
    forall i | 0 <= i < |r| - 1 ensures Next(r[i], r[i + 1]) { assert Steps(r[i], acts[i], r[i + 1]); }
  }

  /** The current or last call of a thread: how it began, the values it added, the slots it
      claimed, and whether head and tail were equal at one of its steps. */
  datatype Observed = NoCall | Observed(asked: Action, added: seq<Value>, claimed: seq<Pos>, empty: bool)

  function Observe(c: Observed, a: Action, m: Mem, m': Mem): Observed {
    if !a.Go? then Observed(a, [], [], m.head == m.tail)
    else if c.NoCall? then c
    else
      c.(added := if |m'.tape| > |m.tape| then c.added + m'.tape[|m.tape|..] else c.added,
         claimed := if m'.reader == m.reader then c.claimed else c.claimed + [m.head],
         empty := c.empty || m.head == m.tail)
  }

  /** The call of thread p after the first k actions. */
  ghost function CallOf(r: seq<State>, acts: seq<Action>, k: nat, p: nat): Observed
    requires Trace(r, acts) && k <= |acts|
  {
    if k == 0 then NoCall
    else if acts[k - 1].p != p then CallOf(r, acts, k - 1, p)
    else Observe(CallOf(r, acts, k - 1, p), acts[k - 1], r[k - 1].m, r[k].m)
  }

  /** A push has added the first items it was given, and its local record says so. */
  predicate Pushing(c: Call, o: Observed) {
    && o.Observed? && o.asked.Start? && o.claimed == []
    && c.items == o.asked.items && c.len == o.asked.len && c.batch == o.asked.batch
    && c.written <= |c.items| && o.added == c.items[..c.written]
  }

  predicate Popping(o: Observed) {
    o.Observed? && o.asked.StartPop? && o.added == []
  }

  /** A pop has claimed slot t, and no other. */
  predicate Claimed1(m: Mem, p: nat, o: Observed, t: Pos) {
    Popping(o) && o.claimed == [t] && t in m.reader && m.reader[t] == p
  }

  /** And has taken its value out. */
  predicate Took(m: Mem, p: nat, o: Observed) {
    o.Observed? && |o.claimed| == 1 && Claimed1(m, p, o, o.claimed[0]) && o.claimed[0] in m.out
  }

  /** How far the call of thread p at pc got. */
  predicate CallFacts(m: Mem, p: nat, pc: Pc, o: Observed) {
    if InPush(pc) then Pushing(pc.c, o)
    else match pc
      case Idle => true
      case QNext(t, _) => Claimed1(m, p, o, t)
      case QPeek(t, _) => Claimed1(m, p, o, t)
      case QHeadBlock(t, _, _) => Claimed1(m, p, o, t)
      case QHeadIndex(t, _, _) => Claimed1(m, p, o, t)
      case QWait(t, _) => Claimed1(m, p, o, t)
      case QRead(t, _) => Claimed1(m, p, o, t)
      case QMark(t, _) => Took(m, p, o)
      case QDestroy(_, _) => Took(m, p, o)
      case QOr(_, _) => Took(m, p, o)
      case QFree(_) => Took(m, p, o)
      case QRet => Took(m, p, o) || (Popping(o) && o.claimed == [] && o.empty)
      case NLoad => o.Observed? && o.asked.StartLen? && o.added == [] && o.claimed == []
      case NTail(_, _) => o.Observed? && o.asked.StartLen? && o.added == [] && o.claimed == []
      case NHead(_, _, _, _) => o.Observed? && o.asked.StartLen? && o.added == [] && o.claimed == []
      case _ => Popping(o) && o.claimed == []
  }

  ghost predicate CallInv(m: Mem, p: nat, pc: Pc, o: Observed) {
    forall x :: x == pc ==> CallFacts(m, p, x, o)
  }

  lemma CallPoint(m: Mem, p: nat, pc: Pc, o: Observed)
    requires CallInv(m, p, pc, o)
    ensures CallFacts(m, p, pc, o)
  {
  }

  lemma OtherCall(m: Mem, m': Mem, p: nat, pc: Pc, o: Observed)
    requires Grows(m.reader, m'.reader) && Grows(m.out, m'.out) && CallInv(m, p, pc, o)
    ensures CallInv(m', p, pc, o)
  {
    CallPoint(m, p, pc, o);
  }

  // ---------- a step of the call itself ----------

  lemma ReaderFrame(m: Mem, m': Mem, p: nat, pc: Pc, spurious: bool)
    requires Sane(m, pc) && !pc.QCas? && m' == MemAfter(m, p, pc, spurious)
    ensures m'.reader == m.reader
  {
  }

  lemma PushStep(m: Mem, m': Mem, p: nat, pc: Pc, spurious: bool, o: Observed)
    requires PushInv(m, p, pc) && Sane(m, pc) && InPush(pc) && !pc.PRet? && CallInv(m, p, pc, o)
    requires m'.reader == m.reader
    requires m'.tape == if Reserves(m, pc, spurious) then m.tape + pc.c.stage[pc.c.start..pc.c.start + pc.n] else m.tape
    ensures CallInv(m', p, PushPc(m, pc, spurious), Observe(o, Go(p, spurious), m, m'))
  {
    CallPoint(m, p, pc, o);
    ReportFollowsReservations(m, pc, spurious);
    SameCall(m, pc, spurious);
    if Reserves(m, pc, spurious) {
      ReserveFacts(m, p, pc);
      StagedItems(pc.c, pc.n);
      var w, n := pc.c.written, pc.n;
      assert pc.c.items[..w] + pc.c.items[w..w + n] == pc.c.items[..w + n];
      assert m'.tape[|m.tape|..] == pc.c.items[w..w + n];
    }
  }

  lemma SameCall(m: Mem, pc: Pc, spurious: bool)
    requires InPush(pc) && !pc.PRet?
    ensures InPush(PushPc(m, pc, spurious))
    ensures PushPc(m, pc, spurious).c.len == pc.c.len && PushPc(m, pc, spurious).c.batch == pc.c.batch
  {
  }

  lemma LookStep(m: Mem, m': Mem, p: nat, pc: Pc, spurious: bool, o: Observed)
    requires CallInv(m, p, pc, o) && m'.reader == m.reader && m'.tape == m.tape && Grows(m.out, m'.out)
    requires !InPush(pc) && pc != Idle && !pc.QCas? && !pc.QRead?
    requires pc.QTail? && pc.t == m.tail ==> m.head == m.tail
    ensures CallInv(m', p, PopPc(m, pc, spurious), Observe(o, Go(p, spurious), m, m'))
  {
    CallPoint(m, p, pc, o);
  }

  lemma ClaimStep(m: Mem, m': Mem, p: nat, pc: Pc, spurious: bool, o: Observed)
    requires pc.QCas? && CallInv(m, p, pc, o) && m'.tape == m.tape
             && (Claims(m, pc, spurious) ==> pc.t !in m.reader)
    requires m'.reader == if Claims(m, pc, spurious) then m.reader[pc.t := p] else m.reader
    ensures CallInv(m', p, PopPc(m, pc, spurious), Observe(o, Go(p, spurious), m, m'))
  {
    CallPoint(m, p, pc, o);
  }

  lemma ReadStep(m: Mem, m': Mem, p: nat, pc: Pc, spurious: bool, o: Observed)
    requires pc.QRead? && CallInv(m, p, pc, o) && m'.tape == m.tape && m'.reader == m.reader && pc.t in m'.out
    ensures CallInv(m', p, PopPc(m, pc, spurious), Observe(o, Go(p, spurious), m, m'))
  {
    CallPoint(m, p, pc, o);
  }

  lemma OwnPush(m: Mem, m': Mem, p: nat, pc: Pc, spurious: bool, o: Observed)
    requires Acts(m, p, pc) && ThreadInv(m, p, pc) && InPush(pc) && !pc.PRet? && CallInv(m, p, pc, o)
    requires m' == MemAfter(m, p, pc, spurious)
    ensures CallInv(m', p, PushPc(m, pc, spurious), Observe(o, Go(p, spurious), m, m'))
  {
    ReaderFrame(m, m', p, pc, spurious);
    LogFrame(m, m', p, pc, spurious);
    PushStep(m, m', p, pc, spurious, o);
  }

  lemma OwnPop(m: Mem, m': Mem, p: nat, pc: Pc, spurious: bool, o: Observed)
    requires MemInv(m) && TapeInv(m.tail, m.tape, m.log) && Acts(m, p, pc) && ThreadInv(m, p, pc) && !InPush(pc)
    requires pc != Idle && CallInv(m, p, pc, o) && m' == MemAfter(m, p, pc, spurious)
    ensures CallInv(m', p, PopPc(m, pc, spurious), Observe(o, Go(p, spurious), m, m'))
  {
    LogFrame(m, m', p, pc, spurious);
    if pc.QCas? { OwnClaim(m, m', p, pc, spurious, o); }
    else {
      ReaderFrame(m, m', p, pc, spurious);
      if pc.QRead? { ReadStep(m, m', p, pc, spurious, o); }
      else {
        if pc.QTail? && pc.t == m.tail { NothingLeft(m, p, pc); }
        LookStep(m, m', p, pc, spurious, o);
      }
    }
  }

  lemma OwnClaim(m: Mem, m': Mem, p: nat, pc: Pc, spurious: bool, o: Observed)
    requires MemInv(m) && PopInv(m, p, pc) && pc.QCas? && CallInv(m, p, pc, o) && m' == MemAfter(m, p, pc, spurious)
    ensures CallInv(m', p, PopPc(m, pc, spurious), Observe(o, Go(p, spurious), m, m'))
  {
    if Claims(m, pc, spurious) { ClaimsReserved(m, p, pc); }
    ClaimStep(m, m', p, pc, spurious, o);
  }

  // ---------- every call of a run ----------

  lemma ReadersGrow(m: Mem, m': Mem, p: nat, pc: Pc, spurious: bool)
    requires MemInv(m) && ThreadInv(m, p, pc) && Acts(m, p, pc) && m' == MemAfter(m, p, pc, spurious)
    ensures Grows(m.reader, m'.reader) && Grows(m.out, m'.out)
  {
    if pc.QRead? { TakesOwn(m, p, pc); }
    MapsGrow(m, m', p, pc, spurious);
    if Claims(m, pc, spurious) { ClaimsReserved(m, p, pc); }
    if !pc.QCas? { ReaderFrame(m, m', p, pc, spurious); }
  }

  /** The call of every thread is as far as its program counter says. */
  ghost predicate CallsInv(r: seq<State>, acts: seq<Action>, k: nat)
    requires Trace(r, acts) && k <= |acts|
  {
    forall p :: 0 <= p < |r[k].pcs| ==> CallInv(r[k].m, p, r[k].pcs[p], CallOf(r, acts, k, p))
  }

  lemma GoCalls(m: Mem, m': Mem, p: nat, pc: Pc, pc': Pc, spurious: bool, o: Observed)
    requires MemInv(m) && TapeInv(m.tail, m.tape, m.log) && ThreadInv(m, p, pc) && Acts(m, p, pc)
    requires pc != Idle && CallInv(m, p, pc, o) && m' == MemAfter(m, p, pc, spurious)
    requires pc' == PcAfter(m, pc, spurious)
    ensures CallInv(m', p, pc', Observe(o, Go(p, spurious), m, m'))
  {
    if pc.PRet? { assert pc' == Idle; }
    else if InPush(pc) { OwnPush(m, m', p, pc, spurious, o); }
    else { OwnPop(m, m', p, pc, spurious, o); }
  }

  lemma StartCall(m: Mem, p: nat, a: Action, o: Observed)
    requires !a.Go? && (a.Start? && !a.batch ==> |a.items| == 1 && a.len == 1)
    requires o == Observed(a, [], [], m.head == m.tail)
    ensures a.Start? ==> CallInv(m, p, CallPc(a.items, a.len, a.batch), o)
    ensures a.StartPop? ==> CallInv(m, p, QLoad, o)
    ensures a.StartLen? ==> CallInv(m, p, NLoad, o)
  {
  }

  lemma GoEffects(m: Mem, m': Mem, p: nat, pc: Pc, pc': Pc, spurious: bool, o: Observed)
    requires MemInv(m) && TapeInv(m.tail, m.tape, m.log) && ThreadInv(m, p, pc) && CanGo(m, pc) && Sane(m, pc)
    requires CallInv(m, p, pc, o) && m' == MemAfter(m, p, pc, spurious) && pc' == PcAfter(m, pc, spurious)
    ensures CallInv(m', p, pc', Observe(o, Go(p, spurious), m, m'))
    ensures Grows(m.reader, m'.reader) && Grows(m.out, m'.out)
  {
    MayAct(m, p, pc);
    GoCalls(m, m', p, pc, pc', spurious, o);
    ReadersGrow(m, m', p, pc, spurious);
  }

  /** The call of the acting thread, and what the other calls rely on. */
  lemma StepCall(r: seq<State>, k: nat, a: Action, o: Observed)
    requires Run(r) && k < |r| - 1 && Steps(r[k], a, r[k + 1]) && CallInv(r[k].m, a.p, r[k].pcs[a.p], o)
    ensures a.p < |r[k + 1].pcs| && CallInv(r[k + 1].m, a.p, r[k + 1].pcs[a.p], Observe(o, a, r[k].m, r[k + 1].m))
    ensures Grows(r[k].m.reader, r[k + 1].m.reader) && Grows(r[k].m.out, r[k + 1].m.out)
  {
    if a.Go? {
      RunMem(r, k);
      RunThread(r, k, a.p);
      GoEffects(r[k].m, r[k + 1].m, a.p, r[k].pcs[a.p], r[k + 1].pcs[a.p], a.spurious, o);
    } else {
      StartCall(r[k].m, a.p, a, Observe(o, a, r[k].m, r[k + 1].m));
    }
  }

  lemma InitCalls(r: seq<State>, acts: seq<Action>)
    requires Trace(r, acts)
    ensures CallsInv(r, acts, 0)
  {
  }

  lemma {:induction false} TraceInv(r: seq<State>, acts: seq<Action>, k: nat)
    requires Trace(r, acts) && k <= |acts|
    ensures CallsInv(r, acts, k)
    decreases k
  {
    if k == 0 { InitCalls(r, acts); }
    else {
      TraceInv(r, acts, k - 1);
      TraceStep(r, acts, k - 1);
    }
  }

  lemma TraceStep(r: seq<State>, acts: seq<Action>, k: nat)
    requires Trace(r, acts) && k < |acts| && CallsInv(r, acts, k)
    ensures CallsInv(r, acts, k + 1)
  {
    TraceIsRun(r, acts);
    var s, a, t := r[k], acts[k], r[k + 1];
    assert Steps(s, a, t);
    StepCall(r, k, a, CallOf(r, acts, k, a.p));
    forall p | 0 <= p < |t.pcs| ensures CallInv(t.m, p, t.pcs[p], CallOf(r, acts, k + 1, p)) {
      if p != a.p { OtherCall(s.m, t.m, p, s.pcs[p], CallOf(r, acts, k, p)); }
    }
  }

  // ---------- what a call has done when it returns ----------

  /** All that thread p reserved is filled. */
  ghost predicate NothingOwed(m: Mem, p: nat) {
    forall x :: x in m.log && x in m.writer && m.writer[x] == p ==> x in m.written
  }

  /** pc: the last program point of the call. */
  ghost predicate Returned(m: Mem, p: nat, pc: Pc, o: Observed) {
    && o.Observed?
    && match o.asked
       case Start(_, items, len, _) =>
         && o.claimed == [] && |o.added| <= |items| && o.added == items[..|o.added|]
         && pc.PRet? && pc.c.written == |o.added|
         && (|o.added| < len && |o.added| < |items| ==> m.closed) && NothingOwed(m, p)
       case StartPop(_) =>
         && o.added == []
         && if o.claimed == [] then o.empty
            else Took(m, p, o) && o.claimed[0] in m.log && m.out[o.claimed[0]] == m.log[o.claimed[0]]
       case _ => o.added == [] && o.claimed == []
  }

  lemma PushReturns(m: Mem, pcs: seq<Pc>, p: nat, o: Observed)
    requires p < |pcs| && pcs[p].PRet? && PushInv(m, p, pcs[p]) && CallInv(m, p, pcs[p], o)
    requires WritersInv(m.log, m.writer, m.written, pcs)
    ensures Returned(m, p, pcs[p], o)
  {
    CallPoint(m, p, pcs[p], o);
    ReportedCall(m, p, pcs[p]);
  }

  lemma PopReturns(m: Mem, p: nat, pc: Pc, o: Observed)
    requires OutInv(m.out, m.written, m.reader, m.log) && CallInv(m, p, pc, o) && (pc.QRet? || pc.NHead?)
    ensures Returned(m, p, pc, o)
  {
    CallPoint(m, p, pc, o);
  }

  /** Whatever else goes on: a push or push_n that returns has enqueued exactly the prefix of its
      items that it reports, in order and all filled in, and all of them unless the queue is
      closed; a pop has claimed one slot and taken its value out, or claimed none and seen the
      queue with every reserved slot claimed. */
  lemma EveryCallReturnsWhatItShould(r: seq<State>, acts: seq<Action>, k: nat)
    requires Trace(r, acts) && k < |acts| && acts[k].Go? && r[k + 1].pcs[acts[k].p] == Idle
    ensures Returned(r[k].m, acts[k].p, r[k].pcs[acts[k].p], CallOf(r, acts, k, acts[k].p))
  {
    TraceIsRun(r, acts);
    RunKeepsGood(r, k);
    TraceInv(r, acts, k);
    assert Steps(r[k], acts[k], r[k + 1]);
    var p := acts[k].p;
    assert ThreadInv(r[k].m, p, r[k].pcs[p]);
    LastPoint(r[k].m, r[k].pcs[p], acts[k].spurious);
    if r[k].pcs[p].PRet? { PushReturns(r[k].m, r[k].pcs, p, CallOf(r, acts, k, p)); }
    else { PopReturns(r[k].m, p, r[k].pcs[p], CallOf(r, acts, k, p)); }
  }

  lemma LastPoint(m: Mem, pc: Pc, spurious: bool)
    requires pc != Idle && PcAfter(m, pc, spurious) == Idle
    ensures pc.PRet? || pc.QRet? || pc.NHead?
  {
  }

  lemma GivesUpLooking(m: Mem, pc: Pc, spurious: bool)
    requires PopPc(m, pc, spurious) == QRet && (pc.QLoad? || pc.QBlock? || pc.QPlan? || pc.QTail? || pc.QCas?)
    ensures pc.QTail? && AfterLookTail(m, pc) == QRet
  {
  }

  /** A pop that gives up, at whatever access, does so with every reserved slot claimed. */
  lemma GivesUpOnlyWhenDrained(r: seq<State>, i: nat, p: nat, spurious: bool)
    requires Run(r) && i < |r| && p < |r[i].pcs| && PopPc(r[i].m, r[i].pcs[p], spurious) == QRet
    requires r[i].pcs[p].QLoad? || r[i].pcs[p].QBlock? || r[i].pcs[p].QPlan? || r[i].pcs[p].QTail? || r[i].pcs[p].QCas?
    ensures Drained(r[i].m)
  {
    RunMem(r, i);
    RunThread(r, i, p);
    GivesUpLooking(r[i].m, r[i].pcs[p], spurious);
    NothingLeft(r[i].m, p, r[i].pcs[p]);
  }

  /** A close closes, whatever state the queue is in. */
  lemma CloseCloses(s: State, a: Action)
    requires Enabled(s, a) && Sane(s.m, s.pcs[a.p]) && a.Close?
    ensures Apply(s, a).m.closed && Contents(Apply(s, a).m) == Contents(s.m)
  {
  }
}
