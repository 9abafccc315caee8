/**
 A receiver in its wait is queued, or about to be woken or closed; and every step of the wake
 protocol keeps the whole invariant.
 */
module WakeDuty {
  import opened Basics
  import opened WakeProtocol
  import opened WakeInv
  import opened WakeSteps

  function PicksOf(pc: Pc): seq<Pick> {
    if IsFire(pc) then pc.f.picks else []
  }

  /** The node a thread is closing. */
  function Closing(pc: Pc): Option<nat> {
    if pc.KLoad? || pc.KCas? then Some(pc.q) else None
  }

  /** The node a thread is about to unpark. */
  function Unparking(pc: Pc): Option<nat> {
    if pc.FUnpark? || pc.KUnpark? then Some(pc.q) else None
  }

  /** The thread will wake or close the node under this stamp. */
  predicate HasPick(pc: Pc, q: nat, s: nat) {
    Pick(q, true, s) in PicksOf(pc) || Pick(q, false, s) in PicksOf(pc) || Closing(pc) == Some(q)
  }

  predicate Listed(m: Mem, pcs: seq<Pc>, q: nat)
    requires q < |m.words|
  {
    || Entry(q, m.words[q].stamp) in m.queue
    || (q in m.picked && m.picked[q] < |pcs| && HasPick(pcs[m.picked[q]], q, m.words[q].stamp))
  }

  ghost predicate JoinedInv(m: Mem, pcs: seq<Pc>) {
    forall q :: q in m.joined ==> q < |m.words| && (m.words[q].st <= WAITING ==> Listed(m, pcs, q))
  }

  ghost predicate UnparkInv(unparker: map<nat, nat>, pcs: seq<Pc>) {
    forall q :: q in unparker ==> unparker[q] < |pcs| && Unparking(pcs[unparker[q]]) == Some(q)
  }

  ghost predicate CloserInv(closer: Option<nat>, pcs: seq<Pc>) {
    closer.Some? ==> closer.value < |pcs| && Emptying(pcs[closer.value])
  }

  ghost predicate Duty(m: Mem, pcs: seq<Pc>) {
    JoinedInv(m, pcs) && UnparkInv(m.unparker, pcs) && CloserInv(m.closer, pcs)
  }

  lemma CloserKept(closer: Option<nat>, closer': Option<nat>, pcs: seq<Pc>, p: nat, pc: Pc)
    requires CloserInv(closer, pcs) && p < |pcs|
    requires closer' == None || (closer' == closer && (Emptying(pcs[p]) ==> Emptying(pc)))
    ensures CloserInv(closer', pcs[p := pc])
  {
  }

  /** A closer empties the queue, or goes on doing so. */
  lemma CloserClose(m: Mem, p: nat, pc: Pc, flip: bool)
    requires Sane(m, p, pc) && IsClose(pc)
    ensures var c := GoMem(m, p, pc, flip).closer;
            c == None || (c == m.closer && (Emptying(pc) ==> Emptying(GoPc(m, p, pc, flip))))
  {
    assert GoMem(m, p, pc, flip) == CloseMem(m, p, pc, flip) && GoPc(m, p, pc, flip) == ClosePc(m, p, pc, flip);
  }

  lemma SameCloser(m: Mem, p: nat, pc: Pc, flip: bool)
    requires Sane(m, p, pc) && !IsClose(pc)
    ensures GoMem(m, p, pc, flip).closer == m.closer && !Emptying(pc)
  {
  }

  // ---------- unparking ----------

  lemma UnparkSame(unparker: map<nat, nat>, pcs: seq<Pc>, p: nat, pc: Pc)
    requires UnparkInv(unparker, pcs) && p < |pcs| && (Unparking(pcs[p]) == None || Unparking(pc) == Unparking(pcs[p]))
    ensures UnparkInv(unparker, pcs[p := pc])
  {
  }

  lemma UnparkAdded(unparker: map<nat, nat>, pcs: seq<Pc>, p: nat, pc: Pc, q: nat)
    requires UnparkInv(unparker, pcs) && p < |pcs| && Unparking(pcs[p]) == None && Unparking(pc) == Some(q)
    ensures UnparkInv(unparker[q := p], pcs[p := pc])
  {
  }

  lemma UnparkDone(unparker: map<nat, nat>, pcs: seq<Pc>, p: nat, pc: Pc, q: nat)
    requires UnparkInv(unparker, pcs) && p < |pcs| && Unparking(pcs[p]) == Some(q)
    ensures UnparkInv(unparker - {q}, pcs[p := pc])
  {
  }

  lemma UnparkFire(m: Mem, pcs: seq<Pc>, p: nat, flip: bool)
    requires UnparkInv(m.unparker, pcs) && p < |pcs| && Sane(m, p, pcs[p]) && IsFire(pcs[p])
    ensures UnparkInv(FireMem(m, p, pcs[p], flip).unparker, pcs[p := FirePc(m, p, pcs[p], flip)])
  {
    var pc, pc' := pcs[p], FirePc(m, p, pcs[p], flip);
    if pc.FUnpark? { UnparkDone(m.unparker, pcs, p, pc', pc.q); }
    else if pc.FCas? && m.words[pc.f.picks[0].node] == pc.w && !(flip && pc.w.st == INIT) {
      UnparkAdded(m.unparker, pcs, p, pc', pc.f.picks[0].node);
    }
    else { UnparkSame(m.unparker, pcs, p, pc'); }
  }

  lemma UnparkClose(m: Mem, pcs: seq<Pc>, p: nat, flip: bool)
    requires UnparkInv(m.unparker, pcs) && p < |pcs| && Sane(m, p, pcs[p]) && IsClose(pcs[p])
    ensures UnparkInv(CloseMem(m, p, pcs[p], flip).unparker, pcs[p := ClosePc(m, p, pcs[p], flip)])
  {
    var pc, pc' := pcs[p], ClosePc(m, p, pcs[p], flip);
    if pc.KUnpark? { UnparkDone(m.unparker, pcs, p, pc', pc.q); }
    else if pc.KCas? && m.words[pc.q] == pc.w && !flip { UnparkAdded(m.unparker, pcs, p, pc', pc.q); }
    else { UnparkSame(m.unparker, pcs, p, pc'); }
  }

  lemma NoUnpark(m: Mem, p: nat, pc: Pc, flip: bool)
    requires Sane(m, p, pc) && !IsFire(pc) && !IsClose(pc)
    ensures GoMem(m, p, pc, flip).unparker == m.unparker && Unparking(pc) == None
  {
  }

  lemma UnparkGo(m: Mem, pcs: seq<Pc>, p: nat, flip: bool)
    requires UnparkInv(m.unparker, pcs) && p < |pcs| && Sane(m, p, pcs[p])
    ensures UnparkInv(GoMem(m, p, pcs[p], flip).unparker, pcs[p := GoPc(m, p, pcs[p], flip)])
  {
    if IsFire(pcs[p]) { UnparkFire(m, pcs, p, flip); }
    else if IsClose(pcs[p]) { UnparkClose(m, pcs, p, flip); }
    else {
      NoUnpark(m, p, pcs[p], flip);
      UnparkSame(m.unparker, pcs, p, GoPc(m, p, pcs[p], flip));
    }
  }

  // ---------- staying listed ----------

  /** What the step of p from pc to pc' does for another receiver q that is still waiting: if it
      takes q's entry from the queue, it is going to wake or close q; it forgets no pick of q,
      nor another thread's. */
  predicate CaresFor(m: Mem, m': Mem, p: nat, pc: Pc, pc': Pc, q: nat)
    requires q < |m.words|
  {
    var s := m.words[q].stamp;
    var mine := q in m'.picked && m'.picked[q] == p && HasPick(pc', q, s);
    || Entry(q, s) in m'.queue || mine
    || (Entry(q, s) !in m.queue && q in m.picked && m.picked[q] != p && q in m'.picked && m'.picked[q] == m.picked[q])
    || (Entry(q, s) !in m.queue && !(q in m.picked && (m.picked[q] != p || HasPick(pc, q, s))))
  }

  /** And for p itself. */
  predicate CaresForSelf(m: Mem, m': Mem, p: nat, pc: Pc)
    requires p < |m.words| == |m'.words|
  {
    p in m'.joined && m'.words[p].st <= WAITING ==>
      || Entry(p, m'.words[p].stamp) in m'.queue
      || (p in m.joined && m.words[p].st <= WAITING && m'.words[p].stamp == m.words[p].stamp
         && Entry(p, m.words[p].stamp) !in m.queue
          && m'.picked == m.picked && PicksOf(pc) == [] && Closing(pc) == None)
  }

  lemma JoinedStep(m: Mem, m': Mem, pcs: seq<Pc>, p: nat, pc: Pc)
    requires JoinedInv(m, pcs) && Calm(m, m', p) && p < |pcs| && p < |m.words| == |m'.words|
             && m'.joined <= m.joined + {p}
    requires forall q :: q in m.joined && q != p && m'.words[q].st <= WAITING ==> CaresFor(m, m', p, pcs[p], pc, q)
    requires CaresForSelf(m, m', p, pcs[p])
    ensures JoinedInv(m', pcs[p := pc])
  {
    CalmPoint(m, m', p);
    forall q | q in m'.joined ensures q < |m'.words| && (m'.words[q].st <= WAITING ==> Listed(m', pcs[p := pc], q)) {
      if q != p {
        assert NodeCalm(m, m', q);
      }
    }
  }

  // ---------- each group of steps ----------

  /** The step of p cares for everybody. */
  ghost predicate CaresFacts(m: Mem, m': Mem, p: nat, pc: Pc, pc': Pc) {
    && p < |m.words| == |m'.words|
    && m'.joined <= m.joined + {p} && CaresForSelf(m, m', p, pc)
    && forall q :: q in m.joined && q != p && q < |m.words| && m'.words[q].st <= WAITING ==>
       CaresFor(m, m', p, pc, pc', q)
  }

  ghost predicate Cares(m: Mem, m': Mem, p: nat, pc: Pc, pc': Pc) {
    forall x :: x == pc' ==> CaresFacts(m, m', p, pc, x)
  }

  lemma CaresPoint(m: Mem, m': Mem, p: nat, pc: Pc, pc': Pc)
    requires Cares(m, m', p, pc, pc')
    ensures CaresFacts(m, m', p, pc, pc')
  {
  }

  lemma CaresIs(m: Mem, m': Mem, p: nat, pc: Pc, pc': Pc)
    requires CaresFacts(m, m', p, pc, pc')
    ensures Cares(m, m', p, pc, pc')
  {
  }

  lemma CaresJoined(m: Mem, m': Mem, pcs: seq<Pc>, p: nat, pc: Pc)
    requires JoinedInv(m, pcs) && p < |pcs| && p < |m.words| && Calm(m, m', p) && Cares(m, m', p, pcs[p], pc)
    ensures JoinedInv(m', pcs[p := pc])
  {
    CalmPoint(m, m', p);
    CaresPoint(m, m', p, pcs[p], pc);
    JoinedStep(m, m', pcs, p, pc);
  }

  /** A step that leaves queue and picks alone. */
  lemma SameCares(m: Mem, m': Mem, p: nat, pc: Pc, pc': Pc)
    requires p < |m.words| == |m'.words| && m'.queue == m.queue && m'.picked == m.picked && m'.joined <= m.joined
    requires p in m'.joined ==>
               m'.words[p].stamp == m.words[p].stamp && (m'.words[p].st <= WAITING ==> m.words[p].st <= WAITING)
    requires p in m'.joined ==> PicksOf(pc) == [] && Closing(pc) == None
    requires PicksOf(pc) == PicksOf(pc') || PicksOf(pc) == []
    requires Closing(pc) == Closing(pc') || Closing(pc) == None
    ensures Cares(m, m', p, pc, pc')
  {
  }

  lemma RegSame(m: Mem, p: nat, pc: Pc)
    requires Sane(m, p, pc) && IsReg(pc) && !pc.RPush? && (p in m.joined ==> pc.RUnlock? || pc.RRecheck?)
    ensures var m' := RegMem(m, p, pc); |m'.words| == |m.words| && (p in m'.joined ==> m'.words[p] == m.words[p])
  {
  }

  lemma PushCares(m: Mem, m': Mem, p: nat, s: nat, pc: Pc, pc': Pc)
    requires p < |m.words| && m.words[p].stamp == s && PicksOf(pc) == [] && Closing(pc) == None
    requires m' == m.(queue := m.queue + [Entry(p, s)], owner := m.owner[s := p], joined := m.joined + {p})
    ensures Cares(m, m', p, pc, pc')
  {
    assert m'.queue[|m.queue|] == Entry(p, s);
    forall q | q in m.joined && q != p && q < |m.words| ensures CaresFor(m, m', p, pc, pc', q) {
      var e := Entry(q, m.words[q].stamp);
      if e in m.queue {
        var i :| 0 <= i < |m.queue| && m.queue[i] == e;
        assert m'.queue[i] == e;
      }
    }
    CaresIs(m, m', p, pc, pc');
  }

  lemma RegCares(m: Mem, p: nat, pc: Pc, flip: bool)
    requires Sane(m, p, pc) && IsReg(pc) && ThreadInv(m, p, pc)
    ensures Cares(m, RegMem(m, p, pc), p, pc, RegPc(m, p, pc, flip))
  {
    RegPoint(m, p, pc);
    if pc.RPush? { PushCares(m, RegMem(m, p, pc), p, pc.s, pc, RegPc(m, p, pc, flip)); }
    else {
      RegSame(m, p, pc);
      SameCares(m, RegMem(m, p, pc), p, pc, RegPc(m, p, pc, flip));
    }
  }

  lemma WaitSame(m: Mem, p: nat, pc: Pc, flip: bool)
    requires Sane(m, p, pc) && IsWait(pc) && (pc.RCommitCas? ==> pc.w.st == INIT)
    ensures var m' := WaitMem(m, p, pc, flip);
            && |m'.words| == |m.words|
            && (p in m'.joined ==>
                  m'.words[p].stamp == m.words[p].stamp && (m'.words[p].st <= WAITING ==> m.words[p].st <= WAITING))
  {
  }

  lemma WaitCares(m: Mem, p: nat, pc: Pc, flip: bool)
    requires Sane(m, p, pc) && IsWait(pc) && ThreadInv(m, p, pc)
    ensures Cares(m, WaitMem(m, p, pc, flip), p, pc, WaitPc(m, p, pc, flip))
  {
    WaitPoint(m, p, pc);
    WaitSame(m, p, pc, flip);
    SameCares(m, WaitMem(m, p, pc, flip), p, pc, WaitPc(m, p, pc, flip));
  }

  lemma AfterCares(m: Mem, p: nat, pc: Pc, flip: bool)
    requires Sane(m, p, pc) && IsAfter(pc) && ThreadInv(m, p, pc)
    ensures Cares(m, AfterMem(m, p, pc), p, pc, AfterPc(m, p, pc, flip))
  {
    AfterPoint(m, p, pc);
    SameCares(m, AfterMem(m, p, pc), p, pc, AfterPc(m, p, pc, flip));
  }

  /** An entry in the queue but the first is still there without the first. */
  lemma StillQueued(queue: seq<Entry>, e: Entry)
    requires queue != [] && e in queue && e != queue[0]
    ensures e in queue[1..]
  {
    var i :| 0 <= i < |queue| && queue[i] == e;
    assert queue[1..][i - 1] == e;
  }

  lemma NotDropped(m: Mem, p: nat, q: nat, oneshot: bool)
    requires QueueInv(m.queue, m.flag, m.next, |m.words|, m.owner) && StampsInv(m.words, m.next, m.owner)
    requires m.queue != [] && p < |m.words| && q < |m.words| && q != p && m.words[q].st <= WAITING
    requires VerdictOn(m.queue[0], m.words, p, oneshot) != Keep
    ensures m.queue[0] != Entry(q, m.words[q].stamp)
  {
    assert m.queue[0].stamp in m.owner;
  }

  /** Cancelling drops no entry of another receiver that still waits. */
  lemma DropCares(m: Mem, m': Mem, p: nat, pc: Pc, pc': Pc, oneshot: bool)
    requires QueueInv(m.queue, m.flag, m.next, |m.words|, m.owner) && StampsInv(m.words, m.next, m.owner)
    requires p < |m.words| && p !in m.joined && m.queue != [] && PicksOf(pc) == [] && Closing(pc) == None
    requires VerdictOn(m.queue[0], m.words, p, oneshot) != Keep && m' == m.(queue := m.queue[1..])
    ensures Cares(m, m', p, pc, pc')
  {
    forall q | q in m.joined && q != p && q < |m.words| && m'.words[q].st <= WAITING
        ensures CaresFor(m, m', p, pc, pc', q) {
      var e := Entry(q, m.words[q].stamp);
      if e in m.queue {
        NotDropped(m, p, q, oneshot);
        StillQueued(m.queue, e);
      }
    }
    CaresIs(m, m', p, pc, pc');
  }

  lemma ClearCares(m: Mem, p: nat, pc: Pc)
    requires MemInv(m) && Sane(m, p, pc) && IsClear(pc) && ThreadInv(m, p, pc)
    ensures Cares(m, ClearMem(m, p, pc), p, pc, ClearPc(m, p, pc))
  {
    MemPoint(m);
    ClearPoint(m, p, pc);
    if pc.CStep? && m.queue != [] && VerdictOn(m.queue[0], m.words, p, pc.oneshot) != Keep {
      DropCares(m, ClearMem(m, p, pc), p, pc, ClearPc(m, p, pc), pc.oneshot);
    } else {
      SameCares(m, ClearMem(m, p, pc), p, pc, ClearPc(m, p, pc));
    }
  }

  /** Taking the first entry from the queue to wake or close its node. */
  lemma TakeCares(m: Mem, m': Mem, p: nat, pc: Pc, pc': Pc)
    requires p < |m.words| && p !in m.joined && m.queue != [] && m.queue[0].node < |m.words|
    requires var e := m.queue[0];
             && m' == m.(queue := m.queue[1..],
                         picked := if m.words[e.node].stamp == e.stamp then m.picked[e.node := p] else m.picked)
             && (m.words[e.node].stamp == e.stamp ==> HasPick(pc', e.node, e.stamp))
    requires forall q, s :: HasPick(pc, q, s) ==> HasPick(pc', q, s)
    ensures Cares(m, m', p, pc, pc')
  {
    forall q | q in m.joined && q != p && q < |m.words| && m'.words[q].st <= WAITING
        ensures CaresFor(m, m', p, pc, pc', q) {
      var e := Entry(q, m.words[q].stamp);
      if e in m.queue && e != m.queue[0] { StillQueued(m.queue, e); }
    }
    CaresIs(m, m', p, pc, pc');
  }

  lemma CloseCaresPop(m: Mem, p: nat, pc: Pc, flip: bool)
    requires MemInv(m) && Sane(m, p, pc) && pc.KPop? && p !in m.joined && m.queue != []
    ensures Cares(m, CloseMem(m, p, pc, flip), p, pc, ClosePc(m, p, pc, flip))
  {
    MemPoint(m);
    TakeCares(m, CloseMem(m, p, pc, flip), p, pc, ClosePc(m, p, pc, flip));
  }

  lemma CloseCaresNode(m: Mem, p: nat, pc: Pc, flip: bool)
    requires Sane(m, p, pc) && (pc.KLoad? || pc.KCas?) && p !in m.joined
    ensures Cares(m, CloseMem(m, p, pc, flip), p, pc, ClosePc(m, p, pc, flip))
  {
    var m', pc' := CloseMem(m, p, pc, flip), ClosePc(m, p, pc, flip);
    if pc.KLoad? && m.words[pc.q].st > WAITING { SettledCares(m, m', p, pc, pc', pc.q); }
    else if pc.KCas? && m.words[pc.q] == pc.w && !flip { SettledCares(m, m', p, pc, pc', pc.q); }
    else { SameCares(m, m', p, pc, pc'); }
  }

  lemma CloseCaresOther(m: Mem, p: nat, pc: Pc, flip: bool)
    requires Sane(m, p, pc) && IsClose(pc) && !pc.KLoad? && !pc.KCas? && p !in m.joined && (pc.KPop? ==> m.queue == [])
    ensures Cares(m, CloseMem(m, p, pc, flip), p, pc, ClosePc(m, p, pc, flip))
  {
    SameCares(m, CloseMem(m, p, pc, flip), p, pc, ClosePc(m, p, pc, flip));
  }

  lemma CloseCares(m: Mem, p: nat, pc: Pc, flip: bool)
    requires MemInv(m) && Sane(m, p, pc) && IsClose(pc) && ThreadInv(m, p, pc)
    ensures Cares(m, CloseMem(m, p, pc, flip), p, pc, ClosePc(m, p, pc, flip))
  {
    MemPoint(m);
    ClosePoint(m, p, pc);
    if pc.KPop? && m.queue != [] { CloseCaresPop(m, p, pc, flip); }
    else if pc.KLoad? || pc.KCas? { CloseCaresNode(m, p, pc, flip); }
    else { CloseCaresOther(m, p, pc, flip); }
  }

  /** A node is dealt with: it is woken or closed, or its pick was outdated. */
  lemma SettledCares(m: Mem, m': Mem, p: nat, pc: Pc, pc': Pc, x: nat)
    requires p < |m.words| == |m'.words| && p !in m.joined && m'.joined == m.joined && m'.queue == m.queue
    requires m'.picked == m.picked || m'.picked == m.picked - {x}
    requires forall q, s :: HasPick(pc, q, s) && q != x ==> HasPick(pc', q, s)
    requires x < |m.words| && m'.words[x].st > WAITING
    ensures Cares(m, m', p, pc, pc')
  {
  }

  /** Giving up a pick that is outdated. */
  lemma OutdatedCares(m: Mem, p: nat, pc: Pc, pc': Pc)
    requires p < |m.words| && p !in m.joined
    requires forall q :: q in m.joined && q < |m.words| && m.words[q].st <= WAITING
                         && HasPick(pc, q, m.words[q].stamp) ==>
               HasPick(pc', q, m.words[q].stamp)
    ensures Cares(m, m, p, pc, pc')
  {
  }

  lemma PicksOfNext(f: Fire)
    ensures PicksOf(NextPick(f)) == f.picks && Closing(NextPick(f)) == None && Unparking(NextPick(f)) == None
  {
  }

  lemma InTail(ps: seq<Pick>, k: Pick)
    requires ps != [] && k in ps && k != ps[0]
    ensures k in ps[1..]
  {
    var i :| 0 <= i < |ps| && ps[i] == k;
    assert ps[1..][i - 1] == k;
  }

  lemma SkipCares(m: Mem, p: nat, pc: Pc, f: Fire)
    requires p < |m.words| && p !in m.joined && IsFire(pc) && pc.f == f && f.picks != [] && f.picks[0].node < |m.words|
    requires f.picks[0].node in m.joined ==>
               m.words[f.picks[0].node].st > WAITING || m.words[f.picks[0].node].stamp != f.picks[0].stamp
    ensures Cares(m, m, p, pc, NextPick(Settle(f, false)))
  {
    var pc' := NextPick(Settle(f, false));
    PicksOfNext(Settle(f, false));
    forall q | q in m.joined && q < |m.words| && m.words[q].st <= WAITING && HasPick(pc, q, m.words[q].stamp)
      ensures HasPick(pc', q, m.words[q].stamp)
    {
      var s := m.words[q].stamp;
      if Pick(q, true, s) in f.picks { InTail(f.picks, Pick(q, true, s)); }
      else { InTail(f.picks, Pick(q, false, s)); }
    }
    OutdatedCares(m, p, pc, pc');
  }

  lemma WonCares(m: Mem, m': Mem, p: nat, pc: Pc, pc': Pc)
    requires p < |m.words| == |m.credits| && p !in m.joined && pc.FCas? && pc.f.picks != []
             && pc.f.picks[0].node < |m.words|
    requires m' == WakeNode(m, p, pc.f, pc.w) && pc' == FUnpark(Settle(pc.f, pc.w.st == WAITING), pc.f.picks[0].node)
    ensures Cares(m, m', p, pc, pc')
  {
    var x := pc.f.picks[0].node;
    forall q, s | HasPick(pc, q, s) && q != x ensures HasPick(pc', q, s) {
      if Pick(q, true, s) in pc.f.picks { InTail(pc.f.picks, Pick(q, true, s)); }
      else { InTail(pc.f.picks, Pick(q, false, s)); }
    }
    SettledCares(m, m', p, pc, pc', x);
  }

  lemma CollectCares(m: Mem, m': Mem, p: nat, pc: Pc, pc': Pc)
    requires p < |m.words| && p !in m.joined && m.queue != [] && m.queue[0].node < |m.words| && pc.FPop?
             && pc.f.remaining > 0
    requires pc' == FPop(Collected(pc.f, m.queue[0], m.words[m.queue[0].node]), true)
    requires var e := m.queue[0];
             m' == m.(queue := m.queue[1..],
                      picked := if m.words[e.node].stamp == e.stamp then m.picked[e.node := p] else m.picked)
    ensures Cares(m, m', p, pc, pc')
  {
    var e := m.queue[0];
    if m.words[e.node].stamp == e.stamp {
      var k := Pick(e.node, m.words[e.node].st == WAITING, e.stamp);
      assert pc'.f.picks == pc.f.picks + [k];
      assert k in pc'.f.picks;
    }
    TakeCares(m, m', p, pc, pc');
  }

  lemma FireCaresCas(m: Mem, p: nat, pc: Pc, flip: bool)
    requires Sane(m, p, pc) && IsFire(pc) && ThreadInv(m, p, pc) && pc.FCas?
    ensures Cares(m, FireMem(m, p, pc, flip), p, pc, FirePc(m, p, pc, flip))
  {
    FirePoint(m, p, pc);
    var m', pc' := FireMem(m, p, pc, flip), FirePc(m, p, pc, flip);
    if m.words[pc.f.picks[0].node] == pc.w && !(flip && pc.w.st == INIT) { WonCares(m, m', p, pc, pc'); }
    else if pc.w.st == WAITING { SkipCares(m, p, pc, pc.f); }
    else { SameCares(m, m', p, pc, pc'); }
  }

  lemma FireCaresOther(m: Mem, p: nat, pc: Pc, flip: bool)
    requires Sane(m, p, pc) && IsFire(pc) && p !in m.joined && !pc.FPop? && !pc.FLoad? && !pc.FCas?
    requires pc.FFlag? || pc.FLock? || pc.FRet? ==> pc.f.picks == []
    ensures Cares(m, FireMem(m, p, pc, flip), p, pc, FirePc(m, p, pc, flip))
  {
    PicksOfNext(pc.f);
    SameCares(m, FireMem(m, p, pc, flip), p, pc, FirePc(m, p, pc, flip));
  }

  lemma FireCares(m: Mem, p: nat, pc: Pc, flip: bool)
    requires MemInv(m) && Sane(m, p, pc) && IsFire(pc) && ThreadInv(m, p, pc)
    ensures Cares(m, FireMem(m, p, pc, flip), p, pc, FirePc(m, p, pc, flip))
  {
    MemPoint(m);
    FirePoint(m, p, pc);
    var m', pc' := FireMem(m, p, pc, flip), FirePc(m, p, pc, flip);
    if pc.FPop? {
      if pc.f.remaining > 0 && m.queue != [] { CollectCares(m, m', p, pc, pc'); } else { SameCares(m, m', p, pc, pc'); }
    } else if pc.FLoad? {
      if Wakeable(m.words[pc.f.picks[0].node], pc.f.picks[0].stamp) { SameCares(m, m', p, pc, pc'); }
      else { SkipCares(m, p, pc, pc.f); }
    } else if pc.FCas? { FireCaresCas(m, p, pc, flip); }
    else { FireCaresOther(m, p, pc, flip); }
  }

  lemma GoCares(m: Mem, p: nat, pc: Pc, flip: bool)
    requires MemInv(m) && Sane(m, p, pc) && ThreadInv(m, p, pc) && pc != Idle
    ensures Cares(m, GoMem(m, p, pc, flip), p, pc, GoPc(m, p, pc, flip))
  {
    if IsFire(pc) { FireCares(m, p, pc, flip); }
    else if IsReg(pc) { RegCares(m, p, pc, flip); }
    else if IsWait(pc) { WaitCares(m, p, pc, flip); }
    else if IsAfter(pc) { AfterCares(m, p, pc, flip); }
    else if IsClear(pc) { ClearCares(m, p, pc); }
    else { CloseCares(m, p, pc, flip); }
  }

  // ---------- the other actions ----------

  lemma PushKeeps(m: Mem, m': Mem, p: nat, k: nat)
    requires m.tx > 0 && p < |m.credits| && p !in m.joined && m.credits[p] == 0
             && m' == Credit(m, p, k).(buf := m.buf + k)
    ensures Keeps(m, m', p)
  {
    if MemInv(m) {
      MemPoint(m);
      TotalUpdate(m.credits, p, k);
    }
  }

  lemma PushOwn(m: Mem, m': Mem, p: nat, k: nat)
    requires SizesInv(m) && p < |m.credits| && p !in m.joined && m' == Credit(m, p, k).(buf := m.buf + k)
    ensures ThreadInv(m', p, FFlag(NewFire(k)))
  {
  }

  /** Some handle is alive. */
  lemma HandleCounts(m: Mem, h: nat)
    requires TxInv(m) && h in m.senders
    ensures m.tx > 0
  {
    assert m.senders.Keys != {};
  }

  lemma DropKeeps(m: Mem, m': Mem, p: nat, h: nat)
    requires p < |m.words| && p !in m.joined && h in m.senders && m.tx > 0 && m' == DropSender(m, p, h)
    ensures Keeps(m, m', p)
  {
    if MemInv(m) {
      MemPoint(m);
      assert m'.senders.Keys == m.senders.Keys - {h};
    }
  }

  /** Nobody is disturbed by another channel's wakes and closes, not even the thread concerned. */
  lemma MeddleKeeps(m: Mem, m': Mem, q: nat, st: nat)
    requires q < |m.words| && q < |m.tokens| && m.words[q].st <= WAITING && (st == WOKEN || st == CLOSED)
    requires m' == Meddle(m, q, m.words[q].(st := st))
    ensures Keeps(m, m', |m.words|)
  {
    if MemInv(m) { MemPoint(m); }
  }

  lemma MeddleDuty(m: Mem, m': Mem, pcs: seq<Pc>, q: nat, st: nat)
    requires Duty(m, pcs) && q < |m.words| && q < |m.tokens| && st > WAITING
             && m' == Meddle(m, q, m.words[q].(st := st))
    ensures Duty(m', pcs)
  {
    forall x | x in m'.joined ensures x < |m'.words| && (m'.words[x].st <= WAITING ==> Listed(m', pcs, x)) {
      if x != q && m.words[x].st <= WAITING { assert Listed(m, pcs, x); }
    }
  }
}
