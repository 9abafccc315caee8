/**
 What every run of the wake protocol guarantees.
 */
module WakeRuns {
  import opened Basics
  import opened WakeProtocol
  import opened WakeInv
  import opened WakeSteps
  import opened WakeDuty

  ghost predicate ThreadsInv(m: Mem, pcs: seq<Pc>) {
    forall p :: 0 <= p < |pcs| ==> ThreadInv(m, p, pcs[p])
  }

  ghost predicate Inv(s: State) {
    MemInv(s.m) && ThreadsInv(s.m, s.pcs) && Duty(s.m, s.pcs) && |s.pcs| == |s.m.words|
  }

  lemma ThreadsStep(m: Mem, m': Mem, pcs: seq<Pc>, p: nat, pc: Pc)
    requires MemInv(m) && ThreadsInv(m, pcs) && p < |pcs| && Calm(m, m', p) && ThreadInv(m', p, pc)
    ensures ThreadsInv(m', pcs[p := pc])
  {
    CalmKept(m, m', p);
    var pcs' := pcs[p := pc];
    forall q | 0 <= q < |pcs'| ensures ThreadInv(m', q, pcs'[q]) {
      if q != p { assert ThreadInv(m, q, pcs[q]); }
    }
  }

  /** A step of thread p that cares for everybody. */
  lemma StepKeeps(s: State, m': Mem, p: nat, pc: Pc)
    requires Inv(s) && p < |s.pcs| && Keeps(s.m, m', p) && ThreadInv(m', p, pc) && Cares(s.m, m', p, s.pcs[p], pc)
    requires UnparkInv(m'.unparker, s.pcs[p := pc]) && CloserInv(m'.closer, s.pcs[p := pc]) && |m'.words| == |s.m.words|
    ensures Inv(State(m', s.pcs[p := pc]))
  {
    ThreadsStep(s.m, m', s.pcs, p, pc);
    CaresJoined(s.m, m', s.pcs, p, pc);
  }

  lemma GoStep(s: State, p: nat, flip: bool)
    requires Inv(s) && Enabled(s, Go(p, flip)) && Sane(s.m, p, s.pcs[p])
    ensures Inv(Apply(s, Go(p, flip)))
  {
    var m, m', pc, pc' := s.m, GoMem(s.m, p, s.pcs[p], flip), s.pcs[p], GoPc(s.m, p, s.pcs[p], flip);
    assert ThreadInv(m, p, pc);
    GoKeeps(m, m', p, pc, flip);
    GoOwn(m, p, pc, flip);
    GoCares(m, p, pc, flip);
    UnparkGo(m, s.pcs, p, flip);
    if IsClose(pc) { CloserClose(m, p, pc, flip); } else { SameCloser(m, p, pc, flip); }
    CloserKept(m.closer, m'.closer, s.pcs, p, pc');
    CaresPoint(m, m', p, pc, pc');
    StepKeeps(s, m', p, pc');
  }

  /** An action of an idle thread that leaves queue, picks and pending unparks alone. */
  lemma IdleStep(s: State, m': Mem, p: nat, pc: Pc)
    requires Inv(s) && p < |s.pcs| && s.pcs[p] == Idle && Keeps(s.m, m', p) && ThreadInv(m', p, pc)
             && |m'.words| == |s.m.words|
    requires m'.queue == s.m.queue && m'.picked == s.m.picked && m'.joined == s.m.joined && m'.unparker == s.m.unparker
    requires PicksOf(pc) == [] && Closing(pc) == None && Unparking(pc) == None
    requires m'.closer == s.m.closer || (m'.closer == Some(p) && Emptying(pc))
    ensures Inv(State(m', s.pcs[p := pc]))
  {
    IdleFacts(s, p);
    SameCares(s.m, m', p, s.pcs[p], pc);
    UnparkSame(s.m.unparker, s.pcs, p, pc);
    StepKeeps(s, m', p, pc);
  }

  lemma IdleFacts(s: State, p: nat)
    requires Inv(s) && p < |s.pcs| && s.pcs[p] == Idle
    ensures p < |s.m.words| && SizesInv(s.m) && TxInv(s.m) && s.m.armed <= s.m.joined && Quiet(s.m, p)
  {
    MemPoint(s.m);
    assert ThreadInv(s.m, p, s.pcs[p]);
    ThreadPoint(s.m, p, s.pcs[p]);
  }

  lemma PushStep(s: State, a: Action)
    requires Inv(s) && a.Push? && Enabled(s, a) && Sane(s.m, a.p, s.pcs[a.p])
    ensures Inv(Apply(s, a))
  {
    IdleFacts(s, a.p);
    HandleCounts(s.m, a.h);
    var m' := MemAfter(s, a);
    PushKeeps(s.m, m', a.p, a.k);
    PushOwn(s.m, m', a.p, a.k);
    IdleStep(s, m', a.p, FFlag(NewFire(a.k)));
  }

  lemma CloneStep(s: State, a: Action)
    requires Inv(s) && a.Clone? && Enabled(s, a) && Sane(s.m, a.p, s.pcs[a.p])
    ensures Inv(Apply(s, a))
  {
    IdleFacts(s, a.p);
    HandleCounts(s.m, a.h);
    var m' := MemAfter(s, a);
    AddKeeps(s.m, m', a.p, a.to);
    IdleIs(m', a.p);
    IdleStep(s, m', a.p, Idle);
  }

  lemma DropStep(s: State, a: Action)
    requires Inv(s) && a.DropTx? && Enabled(s, a) && Sane(s.m, a.p, s.pcs[a.p])
    ensures Inv(Apply(s, a))
  {
    IdleFacts(s, a.p);
    HandleCounts(s.m, a.h);
    var m' := MemAfter(s, a);
    DropKeeps(s.m, m', a.p, a.h);
    DropOwn(s.m, m', a.p, a.h);
    IdleStep(s, m', a.p, PcAfter(s, a));
  }

  lemma DropOwn(m: Mem, m': Mem, p: nat, h: nat)
    requires SizesInv(m) && p < |m.words| && Quiet(m, p) && m.tx > 0 && m' == DropSender(m, p, h)
    ensures ThreadInv(m', p, if m.tx <= 1 then KLock else Idle)
  {
    if m.tx <= 1 { CloseIs(m', p, KLock); } else { IdleIs(m', p); }
  }

  lemma BeginOwn(m: Mem, p: nat, pc: Pc)
    requires SizesInv(m) && p < |m.words| && m.armed <= m.joined && Quiet(m, p)
    requires pc == RTry || pc == Idle || (pc.UCas? && pc.count > 0)
    ensures ThreadInv(m, p, pc)
  {
    if pc == RTry { RegIs(m, p, pc); } else if pc == Idle { IdleIs(m, p); } else { CloseIs(m, p, pc); }
  }

  lemma BeginStep(s: State, a: Action)
    requires Inv(s) && (a.Recv? || a.Upgrade?) && Enabled(s, a) && Sane(s.m, a.p, s.pcs[a.p])
    ensures Inv(Apply(s, a))
  {
    IdleFacts(s, a.p);
    SameKeeps(s.m, s.m, a.p);
    BeginOwn(s.m, a.p, PcAfter(s, a));
    IdleStep(s, s.m, a.p, PcAfter(s, a));
  }

  lemma ElsewhereStep(s: State, a: Action)
    requires Inv(s) && a.Elsewhere? && Enabled(s, a) && Sane(s.m, a.p, s.pcs[a.p])
    ensures Inv(Apply(s, a))
  {
    IdleFacts(s, a.p);
    var m' := MemAfter(s, a);
    AnewKeeps(s.m, m', a.p, a.st);
    IdleIs(m', a.p);
    IdleStep(s, m', a.p, Idle);
  }

  /** What happens to a node from outside. */
  lemma OutsideStep(s: State, m': Mem)
    requires Inv(s) && Keeps(s.m, m', |s.m.words|) && Duty(m', s.pcs) && |m'.words| == |s.m.words|
    ensures Inv(State(m', s.pcs))
  {
    CalmKept(s.m, m', |s.m.words|);
    forall q | 0 <= q < |s.pcs| ensures ThreadInv(m', q, s.pcs[q]) {
      assert ThreadInv(s.m, q, s.pcs[q]);
    }
  }

  lemma MeddleStep(s: State, m': Mem, q: nat, st: nat)
    requires Inv(s) && q < |s.m.words| && q < |s.m.tokens| && s.m.words[q].st <= WAITING
             && (st == WOKEN || st == CLOSED)
    requires m' == Meddle(s.m, q, s.m.words[q].(st := st))
    ensures Inv(State(m', s.pcs))
  {
    MeddleKeeps(s.m, m', q, st);
    MeddleDuty(s.m, m', s.pcs, q, st);
    OutsideStep(s, m');
  }

  lemma TokenStep(s: State, m': Mem, q: nat)
    requires Inv(s) && q < |s.m.tokens| && m' == s.m.(tokens := s.m.tokens[q := true])
    ensures Inv(State(m', s.pcs))
  {
    TokenKeeps(s.m, m', |s.m.words|, q);
    forall x | x in m'.joined && m'.words[x].st <= WAITING
        ensures Listed(m', s.pcs, x) { assert Listed(s.m, s.pcs, x); }
    OutsideStep(s, m');
  }

  lemma ForeignStep(s: State, a: Action)
    requires Inv(s) && (a.ForeignWake? || a.ForeignClose? || a.ForeignToken?) && Enabled(s, a)
             && Sane(s.m, a.p, s.pcs[a.p])
    ensures Inv(Apply(s, a))
  {
    var m' := MemAfter(s, a);
    assert s.pcs[a.p := s.pcs[a.p]] == s.pcs;
    if a.ForeignToken? { TokenStep(s, m', a.p); }
    else if s.m.words[a.p].st <= WAITING { MeddleStep(s, m', a.p, if a.ForeignWake? then WOKEN else CLOSED); }
  }

  /** Every action keeps the invariant, and none is undefined. */
  lemma InvStep(s: State, a: Action)
    requires Inv(s) && Enabled(s, a)
    ensures Sane(s.m, a.p, s.pcs[a.p]) && Inv(Apply(s, a))
  {
    assert ThreadInv(s.m, a.p, s.pcs[a.p]);
    AlwaysSane(s.m, a.p, s.pcs[a.p]);
    if a.Go? { GoStep(s, a.p, a.flip); }
    else if a.Push? { PushStep(s, a); }
    else if a.Clone? { CloneStep(s, a); }
    else if a.DropTx? { DropStep(s, a); }
    else if a.Recv? || a.Upgrade? { BeginStep(s, a); }
    else if a.Elsewhere? { ElsewhereStep(s, a); }
    else { ForeignStep(s, a); }
  }

  lemma InitInv(cap: nat, threads: nat, owner: nat)
    ensures Inv(Initial(cap, threads, owner))
  {
  }

  lemma InvNext(s: State, t: State)
    requires Inv(s) && Step(s, t)
    ensures Inv(t)
  {
    var a :| Enabled(s, a) && Sane(s.m, a.p, s.pcs[a.p]) && t == Apply(s, a);
    InvStep(s, a);
  }

  lemma {:induction false} RunKeepsInv(r: seq<State>, cap: nat, owner: nat, i: nat)
    requires Run(r, cap, owner) && i < |r|
    ensures Inv(r[i])
  {
    if i == 0 {
      InitInv(cap, |r[0].pcs|, owner);
    } else {
      RunKeepsInv(r, cap, owner, i - 1);
      InvNext(r[i - 1], r[i]);
    }
  }

  lemma RunMem(r: seq<State>, cap: nat, owner: nat, i: nat)
    requires Run(r, cap, owner) && i < |r|
    ensures MemInv(r[i].m) && |r[i].pcs| == |r[i].m.words|
  {
    RunKeepsInv(r, cap, owner, i);
  }

  lemma RunThread(r: seq<State>, cap: nat, owner: nat, i: nat, p: nat)
    requires Run(r, cap, owner) && i < |r| && p < |r[i].pcs|
    ensures ThreadInv(r[i].m, p, r[i].pcs[p])
  {
    RunKeepsInv(r, cap, owner, i);
  }

  lemma RunDuty(r: seq<State>, cap: nat, owner: nat, i: nat)
    requires Run(r, cap, owner) && i < |r|
    ensures Duty(r[i].m, r[i].pcs)
  {
    RunKeepsInv(r, cap, owner, i);
  }

  // ---------- wake accounting ----------

  /** A receiver that registered, found the channel empty and is still in the queue. */
  predicate Waiter(m: Mem, q: nat) {
    q < |m.words| && q in m.armed && Entry(q, m.words[q].stamp) in m.queue
  }

  /** As long as a sender is alive and such a receiver is queued, the channel holds no more items
      than there are events owed by fires that have not found the registry empty, plus receivers
      woken by an event that have not yet taken an item or looked again. */
  lemma WakeAccounting(r: seq<State>, cap: nat, owner: nat, i: nat, q: nat)
    requires Run(r, cap, owner) && i < |r| && r[i].m.tx > 0 && Waiter(r[i].m, q)
    ensures r[i].m.buf <= Total(r[i].m.credits)
  {
    RunMem(r, cap, owner, i);
    var m := r[i].m;
    MemPoint(m);
    var k :| 0 <= k < |m.queue| && m.queue[k] == Entry(q, m.words[q].stamp);
    assert ArmedEntry(m.queue[k], m.words, m.armed);
  }

  /** Those are all the credits there are. */
  ghost predicate CreditMeans(m: Mem, p: nat, pc: Pc)
    requires p < |m.credits| && p < |m.words|
  {
    if IsFire(pc) then m.credits[p] == Owed(pc.f)
    else m.credits[p] <= 1 && (m.credits[p] == 1 ==> pc.RTake? || (IsWait(pc) && m.words[p].st == WOKEN))
  }

  lemma CreditsAreEvents(r: seq<State>, cap: nat, owner: nat, i: nat, p: nat)
    requires Run(r, cap, owner) && i < |r| && r[i].m.tx > 0 && p < |r[i].pcs|
    ensures p < |r[i].m.credits| && p < |r[i].m.words| && CreditMeans(r[i].m, p, r[i].pcs[p])
  {
    RunThread(r, cap, owner, i, p);
    ThreadSizes(r[i].m, p, r[i].pcs[p]);
    CreditOf(r[i].m, p, r[i].pcs[p]);
  }

  lemma CreditOf(m: Mem, p: nat, pc: Pc)
    requires m.tx > 0 && p < |m.words| == |m.credits| && ThreadInv(m, p, pc)
    ensures CreditMeans(m, p, pc)
  {
    ThreadPoint(m, p, pc);
  }

  predicate Asleep(s: State, p: nat) {
    p < |s.pcs| && p < |s.m.tokens| && s.pcs[p] == RPark && !s.m.tokens[p]
  }

  /** Nobody has anything to do: every thread is idle or asleep. */
  ghost predicate Resting(s: State) {
    forall p :: 0 <= p < |s.pcs| ==> s.pcs[p] == Idle || Asleep(s, p)
  }

  /** A sleeper is committed, and queued unless somebody is about to wake it. */
  lemma SleeperIsQueued(s: State, q: nat)
    requires MemInv(s.m) && Duty(s.m, s.pcs) && Resting(s) && Asleep(s, q) && ThreadInv(s.m, q, s.pcs[q])
    ensures Waiter(s.m, q) && q < |s.m.credits| && (s.m.tx > 0 ==> s.m.credits[q] == 0)
  {
    MemPoint(s.m);
    ThreadPoint(s.m, q, s.pcs[q]);
    NobodyWorks(s);
    if s.m.words[q].st >= WOKEN { assert false; }
    assert Listed(s.m, s.pcs, q);
  }

  lemma NobodyWorks(s: State)
    requires Resting(s)
    ensures forall p :: 0 <= p < |s.pcs| ==>
              Unparking(s.pcs[p]) == None && PicksOf(s.pcs[p]) == [] && Closing(s.pcs[p]) == None
  {
  }

  lemma {:induction false} TotalZero(c: seq<nat>)
    requires forall i :: 0 <= i < |c| ==> c[i] == 0
    ensures Total(c) == 0
    decreases |c|
  {
    if c != [] { TotalZero(c[1..]); }
  }

  lemma NobodyOwes(s: State)
    requires MemInv(s.m) && ThreadsInv(s.m, s.pcs) && Duty(s.m, s.pcs) && |s.pcs| == |s.m.words| && s.m.tx > 0
             && Resting(s)
    ensures Total(s.m.credits) == 0
  {
    MemPoint(s.m);
    forall p | 0 <= p < |s.m.credits| ensures s.m.credits[p] == 0 {
      assert ThreadInv(s.m, p, s.pcs[p]);
      if s.pcs[p] != Idle { SleeperIsQueued(s, p); } else { ThreadPoint(s.m, p, s.pcs[p]); }
    }
    TotalZero(s.m.credits);
  }

  /** No item is stranded: with a sender alive, nobody rests over a non-empty channel while a
      receiver sleeps. */
  lemma NoStrandedItem(r: seq<State>, cap: nat, owner: nat, i: nat, q: nat)
    requires Run(r, cap, owner) && i < |r| && r[i].m.tx > 0 && Resting(r[i]) && Asleep(r[i], q)
    ensures r[i].m.buf == 0
  {
    RunKeepsInv(r, cap, owner, i);
    NobodyOwes(r[i]);
    assert ThreadInv(r[i].m, q, r[i].pcs[q]);
    SleeperIsQueued(r[i], q);
    WakeAccounting(r, cap, owner, i, q);
  }

  // ---------- fires ----------

  /** A fire for n events returns after n of them have landed, or having seen no waiter; in every
      state those landed and those not landed make n. */
  lemma FireReturns(r: seq<State>, cap: nat, owner: nat, i: nat, p: nat)
    requires Run(r, cap, owner) && i < |r| && p < |r[i].pcs| && IsFire(r[i].pcs[p])
    ensures var f := r[i].pcs[p].f;
            && f.n == f.landed + f.remaining + f.wasted + Committed(f.picks)
            && (r[i].pcs[p].FRet? ==> f.landed + f.remaining == f.n && (f.landed == f.n || f.empty))
  {
    RunThread(r, cap, owner, i, p);
    FirePoint(r[i].m, p, r[i].pcs[p]);
  }

  /** A fire takes note of having seen no waiter only if the queue is empty at that moment. */
  lemma EmptyIsEmpty(r: seq<State>, cap: nat, owner: nat, i: nat, p: nat, flip: bool)
    requires Run(r, cap, owner) && i < |r| && p < |r[i].pcs| && IsFire(r[i].pcs[p]) && Sane(r[i].m, p, r[i].pcs[p])
    requires !r[i].pcs[p].f.empty
    ensures var pc' := FirePc(r[i].m, p, r[i].pcs[p], flip); IsFire(pc') && pc'.f.empty ==> r[i].m.queue == []
  {
    RunMem(r, cap, owner, i);
    MemPoint(r[i].m);
  }

  /** An event lands only on a receiver that is in its wait, having found the channel empty,
      under the very stamp its entry was queued with. */
  lemma LandsOnWaiter(r: seq<State>, cap: nat, owner: nat, i: nat, p: nat)
    requires Run(r, cap, owner) && i < |r| && p < |r[i].pcs| && r[i].m.tx > 0 && r[i].pcs[p].FCas?
    requires var pc := r[i].pcs[p];
             && pc.f.picks != [] && pc.f.picks[0].node < |r[i].m.words| && r[i].m.words[pc.f.picks[0].node] == pc.w
                && pc.w.st == WAITING
    ensures var pc := r[i].pcs[p]; pc.f.picks[0].node in r[i].m.armed && pc.w.stamp == pc.f.picks[0].stamp
  {
    RunThread(r, cap, owner, i, p);
    FirePoint(r[i].m, p, r[i].pcs[p]);
  }

  // ---------- the registry ----------

  /** In every state the queue is strictly sorted by stamp, a clear flag means an empty queue, and
      the entry with a node's current stamp is that node's. */
  lemma RegistryIsSound(r: seq<State>, cap: nat, owner: nat, i: nat)
    requires Run(r, cap, owner) && i < |r|
    ensures var m := r[i].m;
            && (forall j, k :: 0 <= j < k < |m.queue| ==> m.queue[j].stamp < m.queue[k].stamp)
            && (!m.flag ==> m.queue == [])
            && (forall j, q :: 0 <= j < |m.queue| && 0 <= q < |m.words| && m.words[q].stamp == m.queue[j].stamp ==>
               m.queue[j].node == q)
  {
    RunMem(r, cap, owner, i);
    MemPoint(r[i].m);
  }

  /** A cancellation takes from the queue only entries of its own node and of nodes already woken
      or closed; never one of another receiver that still waits. */
  lemma CancelIsHarmless(r: seq<State>, cap: nat, owner: nat, i: nat, p: nat)
    requires Run(r, cap, owner) && i < |r| && p < |r[i].pcs| && IsClear(r[i].pcs[p]) && Sane(r[i].m, p, r[i].pcs[p])
    ensures var m, m' := r[i].m, ClearMem(r[i].m, p, r[i].pcs[p]);
            m'.queue == m.queue
            || (m.queue != [] && m'.queue == m.queue[1..] && m.queue[0].node < |m.words|
                && (m.queue[0].node == p || m.words[m.queue[0].node].st >= WOKEN))
  {
    RunMem(r, cap, owner, i);
    MemPoint(r[i].m);
    var m, pc := r[i].m, r[i].pcs[p];
    if pc.CStep? && m.queue != [] { assert m.queue[0].stamp in m.owner; }
  }

  /** And it ends only with the queue empty, its own entry gone, or at an entry to be left: of a later
      registration, or of another node that is neither woken nor closed; a oneshot one also after
      an entry of a node that is. */
  lemma CancelGoesOn(m: Mem, p: nat, pc: Pc)
    requires Sane(m, p, pc) && pc.CStep? && ClearPc(m, p, pc) != pc && m.queue != []
    ensures var e, dropped := m.queue[0], ClearMem(m, p, pc).queue != m.queue;
            if dropped then e.stamp == m.words[p].stamp || (pc.oneshot && e.node != p && m.words[e.node].st >= WOKEN)
            else e.stamp > m.words[p].stamp
                 || (e.stamp < m.words[p].stamp && e.node != p && m.words[e.node].st < WOKEN)
  {
    assert |m.queue[1..]| < |m.queue|;
  }

  // ---------- disconnection ----------

  lemma NoRevivalGo(m: Mem, p: nat, pc: Pc, flip: bool)
    requires MemInv(m) && Sane(m, p, pc) && ThreadInv(m, p, pc) && MayGo(m, pc) && m.tx == 0
    ensures GoMem(m, p, pc, flip).tx == 0 && GoMem(m, p, pc, flip).buf <= m.buf
  {
    MemPoint(m);
    ThreadPoint(m, p, pc);
    GoKeeps(m, GoMem(m, p, pc, flip), p, pc, flip);
    CalmPoint(m, GoMem(m, p, pc, flip), p);
  }

  lemma NoRevivalStep(s: State, a: Action)
    requires Inv(s) && Enabled(s, a) && Sane(s.m, a.p, s.pcs[a.p]) && s.m.tx == 0
    ensures Apply(s, a).m.tx == 0 && Apply(s, a).m.buf <= s.m.buf
  {
    MemPoint(s.m);
    assert ThreadInv(s.m, a.p, s.pcs[a.p]);
    if a.Go? { NoRevivalGo(s.m, a.p, s.pcs[a.p], a.flip); }
    NoHandles(s.m);
  }

  lemma NoHandles(m: Mem)
    requires TxInv(m) && m.tx == 0
    ensures forall h :: h !in m.senders
  {
    assert m.senders.Keys == {};
  }

  lemma NoRevivalNext(s: State, t: State)
    requires Inv(s) && Step(s, t) && s.m.tx == 0
    ensures t.m.tx == 0 && t.m.buf <= s.m.buf
  {
    var a :| Enabled(s, a) && Sane(s.m, a.p, s.pcs[a.p]) && t == Apply(s, a);
    NoRevivalStep(s, a);
  }

  lemma NoRevivalAt(r: seq<State>, cap: nat, owner: nat, i: nat)
    requires Run(r, cap, owner) && i < |r| - 1 && r[i].m.tx == 0
    ensures r[i + 1].m.tx == 0 && r[i + 1].m.buf <= r[i].m.buf
  {
    RunKeepsInv(r, cap, owner, i);
    NoRevivalNext(r[i], r[i + 1]);
  }

  /** Without senders now, without senders and with no more items in the next state. */
  predicate Dying(s: State, t: State) {
    s.m.tx == 0 ==> t.m.tx == 0 && t.m.buf <= s.m.buf
  }

  lemma {:induction false} StaysDead(r: seq<State>, i: nat, j: nat)
    requires i <= j < |r| && r[i].m.tx == 0 && forall k :: 0 <= k < |r| - 1 ==> Dying(r[k], r[k + 1])
    ensures r[j].m.tx == 0 && r[j].m.buf <= r[i].m.buf
    decreases j
  {
    if i < j {
      StaysDead(r, i, j - 1);
      assert Dying(r[j - 1], r[j]);
    }
  }

  /** The sender count never rises from zero, and then no item is ever sent. */
  lemma NoRevival(r: seq<State>, cap: nat, owner: nat, i: nat, j: nat)
    requires Run(r, cap, owner) && i <= j < |r| && r[i].m.tx == 0
    ensures r[j].m.tx == 0 && r[j].m.buf <= r[i].m.buf
  {
    forall k | 0 <= k < |r| - 1 ensures Dying(r[k], r[k + 1]) {
      if r[k].m.tx == 0 { NoRevivalAt(r, cap, owner, k); }
    }
    StaysDead(r, i, j);
  }

  /** recv returns Disconnected only with no live sender and an empty channel, which is so for
      ever after; whatever other channels do to the receiver's node. */
  lemma DisconnectedIsFinal(r: seq<State>, cap: nat, owner: nat, i: nat, j: nat, p: nat)
    requires Run(r, cap, owner) && i <= j < |r| && p < |r[i].pcs| && r[i].pcs[p] == RDisc
    ensures r[j].m.tx == 0 && r[j].m.buf == 0
  {
    RunThread(r, cap, owner, i, p);
    AfterPoint(r[i].m, p, r[i].pcs[p]);
    NoRevival(r, cap, owner, i, j);
  }

  /** Once the last sender is gone and everybody rests, no receiver is left asleep. */
  lemma CloseWakesEverybody(r: seq<State>, cap: nat, owner: nat, i: nat, q: nat)
    requires Run(r, cap, owner) && i < |r| && r[i].m.tx == 0 && Resting(r[i])
    ensures !Asleep(r[i], q)
  {
    var s := r[i];
    if Asleep(s, q) {
      RunMem(r, cap, owner, i);
      RunDuty(r, cap, owner, i);
      RunThread(r, cap, owner, i, q);
      WaitPoint(s.m, q, s.pcs[q]);
      SleeperIsQueued(s, q);
      NobodyCloses(s);
      assert false;
    }
  }

  lemma NobodyCloses(s: State)
    requires Resting(s) && CloserInv(s.m.closer, s.pcs)
    ensures s.m.closer == None
  {
  }
}
