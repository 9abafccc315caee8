/**
 The calls of a channel: what a receive has done when it returns. A call is observed from outside,
 by what its thread's steps find and change in the channel.
 */
module WakeCalls {
  import opened Basics
  import opened WakeProtocol

  /** The current or last call of a thread: how it began, the items it took, the senders it added,
      and whether it timed out, has seen the channel without senders, and found it empty then. */
  datatype Observed = NoCall | Observed(asked: Action, taken: nat, added: nat, timed: bool, noTx: bool, gone: bool)

  predicate Begins(a: Action) {
    a.Push? || a.Recv? || a.Upgrade? || a.DropTx?
  }

  /** buf, tx: items and senders after the step. */
  function Observe(o: Observed, a: Action, m: Mem, pc: Pc, buf: nat, tx: nat): Observed {
    if Begins(a) then Observed(a, 0, 0, false, m.tx == 0, false)
    else if o.NoCall? || !a.Go? then o
    else
      o.(taken := if buf < m.buf then o.taken + 1 else o.taken,
         added := if tx > m.tx then o.added + 1 else o.added,
         timed := o.timed || (pc.RPark? && a.flip),
         noTx := o.noTx || m.tx == 0,
         gone := o.gone || ((o.noTx || m.tx == 0) && m.buf == 0))
  }

  ghost predicate Steps(s: State, a: Action, t: State) {
    Enabled(s, a) && Sane(s.m, a.p, s.pcs[a.p]) && t == Apply(s, a)
  }

  /** A run and the actions it took. */
  ghost predicate Trace(r: seq<State>, acts: seq<Action>, cap: nat, owner: nat) {
    && |r| == |acts| + 1 && r[0] == Initial(cap, |r[0].pcs|, owner)
    && forall i :: 0 <= i < |acts| ==> Steps(r[i], acts[i], r[i + 1])
  }

  /** The call of thread p after the first k actions. */
  ghost function CallOf(r: seq<State>, acts: seq<Action>, cap: nat, owner: nat, k: nat, p: nat): Observed
    requires Trace(r, acts, cap, owner) && k <= |acts|
  {
    if k == 0 then NoCall
    else if acts[k - 1].p != p || p >= |r[k - 1].pcs| then CallOf(r, acts, cap, owner, k - 1, p)
    else
      Observe(CallOf(r, acts, cap, owner, k - 1, p), acts[k - 1], r[k - 1].m, r[k - 1].pcs[p], r[k].m.buf, r[k].m.tx)
  }

  predicate Receiving(o: Observed, taken: nat) {
    o.Observed? && o.asked.Recv? && o.taken == taken
  }

  /** A receive returns with one item, or disconnected, or having timed out; an upgrade with one
      sender more, or having found none. */
  predicate Returned(o: Observed) {
    && o.Observed?
    && match o.asked
       case Recv(_) => o.taken == 1 || (o.taken == 0 && (o.gone || o.timed))
       case Upgrade(_) => o.taken == 0 && if o.added == 0 then o.noTx else o.added == 1
       case _ => o.taken == 0 && o.added == 0
  }

  /** How far the call of a thread at pc got. */
  predicate CallFacts(pc: Pc, o: Observed) {
    match pc
    case Idle => o.NoCall? || Returned(o)
    case RAbandon => Receiving(o, 0) && o.timed
    case RAbandonCas(_) => Receiving(o, 0) && o.timed
    case RFinal => Receiving(o, 0) && o.noTx
    case RDisc => Receiving(o, 0) && o.gone
    case RCancel => Receiving(o, 1)
    case RRetire => Receiving(o, 1)
    case CFlag(oneshot) => Cancelling(o, oneshot)
    case CLock(oneshot) => Cancelling(o, oneshot)
    case CStep(oneshot) => Cancelling(o, oneshot)
    case CStore(oneshot) => Cancelling(o, oneshot)
    case CUnlock(oneshot) => Cancelling(o, oneshot)
    case UCas(_) => o.Observed? && o.asked.Upgrade? && o.taken == 0 && o.added == 0
    case _ =>
      if IsFire(pc) then
        || (o.Observed? && o.asked.Push? && o.taken == 0 && o.added == 0)
        || (Receiving(o, 0) && o.timed)
      else if IsClose(pc) then o.Observed? && o.asked.DropTx? && o.taken == 0 && o.added == 0
      else Receiving(o, 0)
  }

  /** A receiver clears its entry after it got an item, or after it timed out. */
  predicate Cancelling(o: Observed, oneshot: bool) {
    if oneshot then Receiving(o, 1) else Receiving(o, 0) && o.timed
  }

  ghost predicate CallInv(pc: Pc, o: Observed) {
    forall x :: x == pc ==> CallFacts(x, o)
  }

  lemma CallPoint(pc: Pc, o: Observed)
    requires CallInv(pc, o)
    ensures CallFacts(pc, o)
  {
  }

  // ---------- a step of the call itself ----------

  /** The items and the senders after an access. */
  function BufAfter(m: Mem, pc: Pc): nat {
    if pc.RTry? || pc.RRecheck? || pc.RTake? || pc.RFinal? then Less(m.buf) else m.buf
  }

  function TxAfter(m: Mem, pc: Pc): nat {
    if pc.UCas? && m.tx == pc.count then m.tx + 1 else m.tx
  }

  lemma RegFrameTake(m: Mem, p: nat, pc: Pc)
    requires Sane(m, p, pc) && (pc.RTry? || pc.RRecheck?)
    ensures RegMem(m, p, pc).buf == BufAfter(m, pc) && RegMem(m, p, pc).tx == TxAfter(m, pc)
  {
  }

  lemma RegFrameKeep(m: Mem, p: nat, pc: Pc)
    requires Sane(m, p, pc) && IsReg(pc) && !pc.RTry? && !pc.RRecheck?
    ensures RegMem(m, p, pc).buf == m.buf && RegMem(m, p, pc).tx == m.tx
  {
  }

  lemma RegFrame(m: Mem, p: nat, pc: Pc)
    requires Sane(m, p, pc) && IsReg(pc)
    ensures RegMem(m, p, pc).buf == BufAfter(m, pc) && RegMem(m, p, pc).tx == TxAfter(m, pc)
  {
    if pc.RTry? || pc.RRecheck? { RegFrameTake(m, p, pc); } else { RegFrameKeep(m, p, pc); }
  }

  lemma FireFrameCas(m: Mem, p: nat, pc: Pc, flip: bool)
    requires Sane(m, p, pc) && pc.FCas?
    ensures FireMem(m, p, pc, flip).buf == m.buf && FireMem(m, p, pc, flip).tx == m.tx
  {
  }

  lemma FireFrameRest(m: Mem, p: nat, pc: Pc, flip: bool)
    requires Sane(m, p, pc) && IsFire(pc) && !pc.FCas?
    ensures FireMem(m, p, pc, flip).buf == m.buf && FireMem(m, p, pc, flip).tx == m.tx
  {
  }

  lemma FireFrame(m: Mem, p: nat, pc: Pc, flip: bool)
    requires Sane(m, p, pc) && IsFire(pc)
    ensures FireMem(m, p, pc, flip).buf == BufAfter(m, pc) && FireMem(m, p, pc, flip).tx == TxAfter(m, pc)
  {
    if pc.FCas? { FireFrameCas(m, p, pc, flip); } else { FireFrameRest(m, p, pc, flip); }
  }

  lemma WaitFrame(m: Mem, p: nat, pc: Pc, flip: bool)
    requires Sane(m, p, pc) && IsWait(pc)
    ensures WaitMem(m, p, pc, flip).buf == BufAfter(m, pc) && WaitMem(m, p, pc, flip).tx == TxAfter(m, pc)
  {
  }

  lemma CloseFrame(m: Mem, p: nat, pc: Pc, flip: bool)
    requires Sane(m, p, pc) && IsClose(pc)
    ensures CloseMem(m, p, pc, flip).buf == BufAfter(m, pc) && CloseMem(m, p, pc, flip).tx == TxAfter(m, pc)
  {
  }

  lemma AfterFrame(m: Mem, p: nat, pc: Pc)
    requires Sane(m, p, pc) && IsAfter(pc)
    ensures AfterMem(m, p, pc).buf == BufAfter(m, pc) && AfterMem(m, p, pc).tx == TxAfter(m, pc)
  {
  }

  lemma ClearFrame(m: Mem, p: nat, pc: Pc)
    requires Sane(m, p, pc) && IsClear(pc)
    ensures ClearMem(m, p, pc).buf == BufAfter(m, pc) && ClearMem(m, p, pc).tx == TxAfter(m, pc)
  {
  }

  lemma ChannelFrame(m: Mem, p: nat, pc: Pc, flip: bool)
    requires Sane(m, p, pc)
    ensures GoMem(m, p, pc, flip).buf == BufAfter(m, pc) && GoMem(m, p, pc, flip).tx == TxAfter(m, pc)
  {
    if IsFire(pc) { FireFrame(m, p, pc, flip); }
    else if IsReg(pc) { RegFrame(m, p, pc); }
    else if IsWait(pc) { WaitFrame(m, p, pc, flip); }
    else if IsAfter(pc) { AfterFrame(m, p, pc); }
    else if IsClear(pc) { ClearFrame(m, p, pc); }
    else if IsClose(pc) { CloseFrame(m, p, pc, flip); }
  }

  /** What the step of a thread at pc shows. */
  function Seen(o: Observed, m: Mem, p: nat, pc: Pc, flip: bool): Observed {
    Observe(o, Go(p, flip), m, pc, BufAfter(m, pc), TxAfter(m, pc))
  }

  lemma OwnFire(m: Mem, p: nat, pc: Pc, flip: bool, o: Observed)
    requires Sane(m, p, pc) && IsFire(pc) && CallInv(pc, o)
    ensures CallInv(FirePc(m, p, pc, flip), Seen(o, m, p, pc, flip))
  {
    CallPoint(pc, o);
  }

  /** Registering or waiting, and not timed out. */
  predicate Early(pc: Pc) {
    IsReg(pc) || pc.RCommit? || pc.RCommitCas? || pc.RTx? || pc.RPark? || pc.RReload? || pc.RClosed? || pc.RTake?
  }

  lemma EarlyFacts(pc: Pc, o: Observed)
    requires Early(pc)
    ensures CallFacts(pc, o) <==> Receiving(o, 0)
  {
    assert !IsFire(pc) && !IsClose(pc);
  }

  lemma EarlyGoesOn(pc: Pc, o: Observed)
    requires Early(pc) && Receiving(o, 0)
    ensures CallInv(pc, o)
  {
    EarlyFacts(pc, o);
  }

  lemma RegNext(m: Mem, p: nat, pc: Pc, flip: bool)
    requires Sane(m, p, pc) && IsReg(pc)
    ensures var pc' := RegPc(m, p, pc, flip);
            if (pc.RTry? || pc.RRecheck?) && m.buf > 0 then pc' == Idle || pc' == RCancel else Early(pc')
  {
  }

  lemma OwnReg(m: Mem, p: nat, pc: Pc, flip: bool, o: Observed)
    requires Sane(m, p, pc) && IsReg(pc) && CallInv(pc, o)
    ensures CallInv(RegPc(m, p, pc, flip), Seen(o, m, p, pc, flip))
  {
    CallPoint(pc, o);
    EarlyFacts(pc, o);
    RegNext(m, p, pc, flip);
    var pc', o' := RegPc(m, p, pc, flip), Seen(o, m, p, pc, flip);
    if Early(pc') { EarlyGoesOn(pc', o'); }
  }

  lemma WaitNext(m: Mem, p: nat, pc: Pc, flip: bool)
    requires Sane(m, p, pc) && IsWait(pc) && !pc.RAbandon? && !pc.RAbandonCas?
    ensures var pc' := WaitPc(m, p, pc, flip);
            Early(pc') || (pc' == RFinal && m.tx == 0) || (pc' == RAbandon && pc.RPark? && flip)
  {
  }

  lemma OwnEarlyWait(m: Mem, p: nat, pc: Pc, flip: bool, o: Observed)
    requires Sane(m, p, pc) && IsWait(pc) && !pc.RAbandon? && !pc.RAbandonCas? && CallInv(pc, o)
    ensures CallInv(WaitPc(m, p, pc, flip), Seen(o, m, p, pc, flip))
  {
    CallPoint(pc, o);
    EarlyFacts(pc, o);
    WaitNext(m, p, pc, flip);
    var pc', o' := WaitPc(m, p, pc, flip), Seen(o, m, p, pc, flip);
    if Early(pc') { EarlyGoesOn(pc', o'); }
  }

  lemma OwnAbandon(m: Mem, p: nat, pc: Pc, flip: bool, o: Observed)
    requires Sane(m, p, pc) && (pc.RAbandon? || pc.RAbandonCas?) && CallInv(pc, o)
    ensures CallInv(WaitPc(m, p, pc, flip), Seen(o, m, p, pc, flip))
  {
    CallPoint(pc, o);
  }

  lemma OwnWait(m: Mem, p: nat, pc: Pc, flip: bool, o: Observed)
    requires Sane(m, p, pc) && IsWait(pc) && CallInv(pc, o)
    ensures CallInv(WaitPc(m, p, pc, flip), Seen(o, m, p, pc, flip))
  {
    if pc.RAbandon? || pc.RAbandonCas? { OwnAbandon(m, p, pc, flip, o); } else { OwnEarlyWait(m, p, pc, flip, o); }
  }

  lemma OwnAfter(m: Mem, p: nat, pc: Pc, flip: bool, o: Observed)
    requires Sane(m, p, pc) && IsAfter(pc) && CallInv(pc, o)
    ensures CallInv(AfterPc(m, p, pc, flip), Seen(o, m, p, pc, flip))
  {
    CallPoint(pc, o);
  }

  lemma OwnClear(m: Mem, p: nat, pc: Pc, flip: bool, o: Observed)
    requires Sane(m, p, pc) && IsClear(pc) && CallInv(pc, o)
    ensures CallInv(ClearPc(m, p, pc), Seen(o, m, p, pc, flip))
  {
    CallPoint(pc, o);
  }

  lemma OwnUpgrade(m: Mem, p: nat, pc: Pc, flip: bool, o: Observed)
    requires Sane(m, p, pc) && pc.UCas? && CallInv(pc, o)
    ensures CallInv(ClosePc(m, p, pc, flip), Seen(o, m, p, pc, flip))
  {
    CallPoint(pc, o);
  }

  lemma OwnDrop(m: Mem, p: nat, pc: Pc, pc': Pc, flip: bool, o: Observed)
    requires IsClose(pc) && !pc.UCas? && CallInv(pc, o)
    requires pc' == Idle || (IsClose(pc') && !pc'.UCas?)
    ensures CallInv(pc', Seen(o, m, p, pc, flip))
  {
    CallPoint(pc, o);
  }

  lemma OwnClose(m: Mem, p: nat, pc: Pc, flip: bool, o: Observed)
    requires Sane(m, p, pc) && IsClose(pc) && CallInv(pc, o)
    ensures CallInv(ClosePc(m, p, pc, flip), Seen(o, m, p, pc, flip))
  {
    if pc.UCas? { OwnUpgrade(m, p, pc, flip, o); } else { OwnDrop(m, p, pc, ClosePc(m, p, pc, flip), flip, o); }
  }

  lemma OwnGo(m: Mem, p: nat, pc: Pc, flip: bool, o: Observed)
    requires Sane(m, p, pc) && pc != Idle && CallInv(pc, o)
    ensures CallInv(GoPc(m, p, pc, flip), Seen(o, m, p, pc, flip))
  {
    if IsFire(pc) { OwnFire(m, p, pc, flip, o); }
    else if IsReg(pc) { OwnReg(m, p, pc, flip, o); }
    else if IsWait(pc) { OwnWait(m, p, pc, flip, o); }
    else if IsAfter(pc) { OwnAfter(m, p, pc, flip, o); }
    else if IsClear(pc) { OwnClear(m, p, pc, flip, o); }
    else { OwnClose(m, p, pc, flip, o); }
  }

  lemma OwnCall(s: State, a: Action, t: State, o: Observed)
    requires Steps(s, a, t) && CallInv(s.pcs[a.p], o)
    ensures CallInv(t.pcs[a.p], Observe(o, a, s.m, s.pcs[a.p], t.m.buf, t.m.tx))
  {
    if a.Go? {
      ChannelFrame(s.m, a.p, s.pcs[a.p], a.flip);
      OwnGo(s.m, a.p, s.pcs[a.p], a.flip, o);
    }
  }

  lemma {:induction false} TraceInv(r: seq<State>, acts: seq<Action>, cap: nat, owner: nat, k: nat, p: nat)
    requires Trace(r, acts, cap, owner) && k <= |acts| && p < |r[k].pcs|
    ensures CallInv(r[k].pcs[p], CallOf(r, acts, cap, owner, k, p))
    decreases k
  {
    if k > 0 {
      var s, a := r[k - 1], acts[k - 1];
      assert Steps(s, a, r[k]);
      TraceInv(r, acts, cap, owner, k - 1, p);
      if a.p == p { OwnCall(s, a, r[k], CallOf(r, acts, cap, owner, k - 1, p)); }
    }
  }

  lemma StillObserved(s: State, a: Action, t: State, o: Observed)
    requires Steps(s, a, t) && a.Go? && CallInv(s.pcs[a.p], o)
    ensures Observe(o, a, s.m, s.pcs[a.p], t.m.buf, t.m.tx).Observed?
  {
    CallPoint(s.pcs[a.p], o);
  }

  /** Whatever else goes on: a receive that returns has taken exactly one item, or has found the
      channel empty after the last sender was gone, or has timed out and taken none. */
  lemma EveryCallReturnsWhatItShould(r: seq<State>, acts: seq<Action>, cap: nat, owner: nat, k: nat)
    requires Trace(r, acts, cap, owner) && k < |acts| && acts[k].Go?
    requires acts[k].p < |r[k + 1].pcs| && r[k + 1].pcs[acts[k].p] == Idle
    ensures Returned(CallOf(r, acts, cap, owner, k + 1, acts[k].p))
  {
    var p := acts[k].p;
    assert Steps(r[k], acts[k], r[k + 1]);
    TraceInv(r, acts, cap, owner, k, p);
    TraceInv(r, acts, cap, owner, k + 1, p);
    StillObserved(r[k], acts[k], r[k + 1], CallOf(r, acts, cap, owner, k, p));
    CallPoint(Idle, CallOf(r, acts, cap, owner, k + 1, p));
  }
}
