/**
 Every access of the wake protocol keeps its invariant.
 */
module WakeSteps {
  import opened Basics
  import opened WakeProtocol
  import opened WakeInv

  lemma AlwaysSane(m: Mem, p: nat, pc: Pc)
    requires MemInv(m) && ThreadInv(m, p, pc)
    ensures Sane(m, p, pc)
  {
    MemPoint(m);
    ThreadPoint(m, p, pc);
  }

  /** The step from m to m', taken by thread p, keeps the memory invariant and disturbs no
      other thread. */
  ghost predicate Keeps(m: Mem, m': Mem, p: nat) {
    MemInv(m) ==> MemInv(m') && Calm(m, m', p)
  }

  // ---------- single effects ----------

  lemma SameKeeps(m: Mem, m': Mem, p: nat)
    requires m' == m
    ensures Keeps(m, m', p)
  {
    if MemInv(m) {
      MemPoint(m);
    }
  }

  lemma LockKeeps(m: Mem, m': Mem, p: nat)
    requires (m.lock == None || m.lock == Some(p)) && m' == m.(lock := m'.lock)
    ensures Keeps(m, m', p)
  {
    if MemInv(m) {
      MemPoint(m);
    }
  }

  lemma FlagKeeps(m: Mem, m': Mem, p: nat)
    requires m.lock == Some(p) && (m.queue == [] || m'.flag || m'.flag == m.flag) && m' == m.(flag := m'.flag)
    ensures Keeps(m, m', p)
  {
    if MemInv(m) {
      MemPoint(m);
    }
  }

  /** Fewer items, or a stamp minted. */
  lemma CountKeeps(m: Mem, m': Mem, p: nat)
    requires m'.buf <= m.buf && m.next <= m'.next && m' == m.(buf := m'.buf, next := m'.next)
    ensures Keeps(m, m', p)
  {
    if MemInv(m) {
      MemPoint(m);
    }
  }

  lemma TokenKeeps(m: Mem, m': Mem, p: nat, q: nat)
    requires q < |m.tokens| && m' == m.(tokens := m.tokens[q := true], unparker := m'.unparker)
    requires forall x :: x in m.unparker && x != q ==> x in m'.unparker
    ensures Keeps(m, m', p)
  {
    if MemInv(m) {
      MemPoint(m);
    }
  }

  lemma PickedKeeps(m: Mem, m': Mem, p: nat)
    requires m' == m.(picked := m'.picked)
    ensures Keeps(m, m', p)
  {
    if MemInv(m) {
      MemPoint(m);
    }
  }

  lemma CloserKeeps(m: Mem, m': Mem, p: nat)
    requires m.closer == Some(p) && m.queue == [] && m' == m.(closer := None)
    ensures Keeps(m, m', p)
  {
    if MemInv(m) {
      MemPoint(m);
    }
  }

  lemma AddKeeps(m: Mem, m': Mem, p: nat, to: nat)
    requires m.tx > 0 && m' == AddSender(m, to)
    ensures Keeps(m, m', p)
  {
    if MemInv(m) {
      MemPoint(m);
      assert m.nextHandle !in m.senders;
      assert m'.senders.Keys == m.senders.Keys + {m.nextHandle};
    }
  }

  /** The node of p gets the stamp that p minted. */
  lemma StampKeeps(m: Mem, m': Mem, p: nat, st: nat, s: nat)
    requires p < |m.words| && p !in m.joined && Minted(m, p, s) && Unset(st) && m' == SetWord(m, p, Word(st, s))
    ensures Keeps(m, m', p)
  {
    if MemInv(m) {
      MemPoint(m);
    }
  }

  lemma EnqueueKeeps(m: Mem, m': Mem, p: nat, s: nat)
    requires p < |m.words| && p !in m.armed && Stamped(m, p, s) && m.flag && Unset(m.words[p].st)
    requires m' == m.(queue := m.queue + [Entry(p, s)], owner := m.owner[s := p], joined := m.joined + {p})
    ensures Keeps(m, m', p)
  {
    if MemInv(m) {
      MemPoint(m);
    }
  }

  lemma AgainKeeps(m: Mem, m': Mem, p: nat)
    requires p < |m.words| && p !in m.joined && m' == SetWord(m, p, m.words[p].(st := INIT))
    ensures Keeps(m, m', p)
  {
    if MemInv(m) {
      MemPoint(m);
    }
  }

  /** A node gets a stamp that no entry of this registry has. */
  lemma AnewKeeps(m: Mem, m': Mem, p: nat, st: nat)
    requires p < |m.words| && p !in m.joined && m' == SetWord(m, p, Word(st, m.next)).(next := m.next + 1)
    ensures Keeps(m, m', p)
  {
    if MemInv(m) {
      MemPoint(m);
    }
  }

  lemma LuckyKeeps(m: Mem, m': Mem, p: nat)
    requires m.buf > 0 && p !in m.armed && m' == Disarm(m, p).(buf := m.buf - 1)
    ensures Keeps(m, m', p)
  {
    if MemInv(m) {
      MemPoint(m);
    }
  }

  /** A receiver that finds the channel empty does not upset the account. */
  lemma ArmKeeps(m: Mem, m': Mem, p: nat)
    requires m.buf == 0 && p in m.joined && m' == m.(armed := m.armed + {p})
    ensures Keeps(m, m', p)
  {
    if MemInv(m) {
      MemPoint(m);
    }
  }

  lemma CommitKeeps(m: Mem, m': Mem, p: nat)
    requires p < |m.words| && p in m.armed && m.words[p].st == INIT && m' == SetWord(m, p, m.words[p].(st := WAITING))
    ensures Keeps(m, m', p)
  {
    if MemInv(m) {
      MemPoint(m);
    }
  }

  lemma DisarmKeeps(m: Mem, m': Mem, p: nat)
    requires p < |m.words| && (m.tx > 0 ==> m.words[p].st != WAITING) && m' == Disarm(m, p)
    ensures Keeps(m, m', p)
  {
    if MemInv(m) {
      MemPoint(m);
    }
  }

  /** A woken receiver that gives up turns its event into a fire of its own. */
  lemma GiveUpKeeps(m: Mem, m': Mem, p: nat)
    requires p < |m.words| && p < |m.credits| && m.words[p].st == WOKEN && (m.tx > 0 ==> m.credits[p] <= 1)
    requires m' == Disarm(Credit(m, p, 1), p)
    ensures Keeps(m, m', p)
  {
    if MemInv(m) {
      MemPoint(m);
      TotalUpdate(m.credits, p, 1);
    }
  }

  lemma LeaveKeeps(m: Mem, m': Mem, p: nat)
    requires p < |m.words| && m' == Disarm(SetWord(m, p, m.words[p].(st := CLOSED)), p)
    ensures Keeps(m, m', p)
  {
    if MemInv(m) {
      MemPoint(m);
    }
  }

  /** A woken receiver takes an item with its event, or finds none. */
  lemma TookKeeps(m: Mem, m': Mem, p: nat)
    requires p < |m.credits| && p !in m.joined && (m.tx > 0 ==> m.credits[p] <= 1)
             && m' == Credit(m, p, 0).(buf := Less(m.buf))
    ensures Keeps(m, m', p)
  {
    if MemInv(m) {
      MemPoint(m);
      TotalUpdate(m.credits, p, 0);
    }
  }

  lemma RetireKeeps(m: Mem, m': Mem, p: nat)
    requires p < |m.words| && p !in m.joined && m' == SetWord(m, p, m.words[p].(st := REUSE))
    ensures Keeps(m, m', p)
  {
    if MemInv(m) {
      MemPoint(m);
    }
  }

  lemma CloseNodeKeeps(m: Mem, m': Mem, p: nat, q: nat)
    requires p < |m.words| && q < |m.words| && m.words[q].st <= WAITING && m.tx == 0 && p !in m.joined
    requires m' == SetWord(m, q, m.words[q].(st := CLOSED)).(unparker := m.unparker[q := p], picked := m.picked - {q})
    ensures Keeps(m, m', p)
  {
    if MemInv(m) {
      MemPoint(m);
    }
  }

  /** A fire that finds no waiter may forget its events: nobody is queued. */
  lemma ForgetKeeps(m: Mem, m': Mem, p: nat)
    requires p < |m.credits| && (m.queue == [] || !m.flag) && m' == Credit(m, p, 0)
    ensures Keeps(m, m', p)
  {
    if MemInv(m) {
      MemPoint(m);
    }
  }

  lemma ParkKeeps(m: Mem, m': Mem, p: nat)
    requires p < |m.tokens| && m' == m.(tokens := m'.tokens)
             && (m'.tokens == m.tokens || m'.tokens == m.tokens[p := false])
    ensures Keeps(m, m', p)
  {
    if MemInv(m) {
      MemPoint(m);
    }
  }

  lemma PopKeeps(m: Mem, m': Mem, p: nat)
    requires m.lock == Some(p) && m.queue != [] && m' == m.(queue := m.queue[1..], picked := m'.picked)
    ensures Keeps(m, m', p)
  {
    if MemInv(m) {
      MemPoint(m);
    }
  }

  lemma GiveTotal(m: Mem, p: nat, q: nat)
    requires p < |m.credits| && q < |m.credits| && m.credits[p] > 0
    ensures Total(Give(m, p, q)) == Total(m.credits)
  {
    var c := m.credits[p := m.credits[p] - 1];
    TotalUpdate(m.credits, p, m.credits[p] - 1);
    TotalUpdate(c, q, c[q] + 1);
  }

  /** The wake CAS moves an event from the fire to the receiver, or costs nothing. */
  lemma WakeTotal(m: Mem, p: nat, f: Fire, w: Word)
    requires SizesInv(m) && p < |m.credits| && f.picks != [] && f.picks[0].node < |m.words|
    requires m.tx > 0 && f.picks[0].committed && w.st == WAITING && !f.empty ==> m.credits[p] > 0
    ensures m.tx > 0 ==> Total(WakeNode(m, p, f, w).credits) >= Total(m.credits)
  {
    if m.tx > 0 && f.picks[0].committed && w.st == WAITING {
      if f.empty { TotalUpdate(m.credits, f.picks[0].node, m.credits[f.picks[0].node] + 1); }
      else { GiveTotal(m, p, f.picks[0].node); }
    }
  }

  /** Waking or closing a node. */
  lemma StateMem(m: Mem, m': Mem, q: nat, st: nat)
    requires MemInv(m) && q < |m.words| && st != WAITING && |m'.credits| == |m.credits|
    requires m.tx > 0 ==> Total(m'.credits) >= Total(m.credits)
    requires m' == m.(words := m.words[q := m.words[q].(st := st)], credits := m'.credits, unparker := m'.unparker,
             picked := m'.picked)
    ensures MemInv(m')
  {
    MemPoint(m);
  }

  lemma WakeCalm(m: Mem, m': Mem, p: nat, f: Fire, w: Word)
    requires SizesInv(m) && p < |m.credits| && f.picks != [] && f.picks[0].node < |m.words|
             && m.words[f.picks[0].node] == w && w.st <= WAITING
    requires m.tx > 0 && w.st == WAITING ==> f.picks[0].node in m.armed
    requires m' == WakeNode(m, p, f, w) && p !in m.armed && (m.tx > 0 ==> f.picks[0].node != p || w.st != WAITING)
    ensures Calm(m, m', p)
  {
  }

  lemma CommittedHead(ps: seq<Pick>)
    requires ps != [] && ps[0].committed
    ensures Committed(ps) >= 1
  {
  }

  lemma WakeKeeps(m: Mem, m': Mem, p: nat, f: Fire, w: Word)
    requires p < |m.words| == |m.credits| && FireInv(m, p, f) && f.picks != [] && f.picks[0].node < |m.words|
    requires m.words[f.picks[0].node] == w && Wakeable(w, f.picks[0].stamp) && m' == WakeNode(m, p, f, w)
    ensures Keeps(m, m', p)
  {
    if MemInv(m) {
      MemPoint(m);
      if f.picks[0].committed { CommittedHead(f.picks); }
      WakeTotal(m, p, f, w);
      StateMem(m, m', f.picks[0].node, WOKEN);
      WakeCalm(m, m', p, f, w);
    }
  }

  // ---------- the memory, access by access ----------

  /** The thread is not about to take a lock that is held. */
  predicate MayGo(m: Mem, pc: Pc) {
    Locking(pc) ==> m.lock == None
  }

  lemma RegKeeps(m: Mem, m': Mem, p: nat, pc: Pc)
    requires Sane(m, p, pc) && IsReg(pc) && ThreadInv(m, p, pc) && MayGo(m, pc) && m' == RegMem(m, p, pc)
    ensures Keeps(m, m', p)
  {
    RegPoint(m, p, pc);
    match pc
    case RTry => CountKeeps(m, m', p);
    case RArm(again) => if again { AgainKeeps(m, m', p); } else { AnewKeeps(m, m', p, INIT); }
    case RLock => LockKeeps(m, m', p);
    case RMint => CountKeeps(m, m', p);
    case RSeqLoad(_) => SameKeeps(m, m', p);
    case RSeqStore(s, st) => StampKeeps(m, m', p, st, s);
    case RFlag(_) => FlagKeeps(m, m', p);
    case RPush(s) => EnqueueKeeps(m, m', p, s);
    case RUnlock => LockKeeps(m, m', p);
    case RRecheck => if m.buf > 0 { LuckyKeeps(m, m', p); } else { ArmKeeps(m, m', p); }
  }

  lemma WaitKeeps(m: Mem, m': Mem, p: nat, pc: Pc, flip: bool)
    requires Sane(m, p, pc) && IsWait(pc) && ThreadInv(m, p, pc) && m' == WaitMem(m, p, pc, flip)
    ensures Keeps(m, m', p)
  {
    WaitPoint(m, p, pc);
    match pc
    case RCommit => SameKeeps(m, m', p);
    case RCommitCas(w) => if m.words[p] == w { CommitKeeps(m, m', p); } else { SameKeeps(m, m', p); }
    case RTx(st) => if m.tx == 0 || st >= WOKEN { DisarmKeeps(m, m', p); } else { SameKeeps(m, m', p); }
    case RPark => ParkKeeps(m, m', p);
    case RReload => if m.words[p].st >= WOKEN { DisarmKeeps(m, m', p); } else { SameKeeps(m, m', p); }
    case RAbandon =>
      if m.words[p].st <= WAITING { SameKeeps(m, m', p); }
      else if m.words[p].st == WOKEN { GiveUpKeeps(m, m', p); }
      else { DisarmKeeps(m, m', p); }
    case RAbandonCas(w) => if m.words[p] == w && !flip { LeaveKeeps(m, m', p); } else { SameKeeps(m, m', p); }
  }

  lemma AfterKeeps(m: Mem, m': Mem, p: nat, pc: Pc)
    requires Sane(m, p, pc) && IsAfter(pc) && ThreadInv(m, p, pc) && m' == AfterMem(m, p, pc)
    ensures Keeps(m, m', p)
  {
    AfterPoint(m, p, pc);
    match pc
    case RTake => TookKeeps(m, m', p);
    case RFinal => TookKeeps(m, m', p);
    case RRetire => RetireKeeps(m, m', p);
    case _ => SameKeeps(m, m', p);
  }

  lemma ClearKeeps(m: Mem, m': Mem, p: nat, pc: Pc)
    requires Sane(m, p, pc) && IsClear(pc) && ThreadInv(m, p, pc) && MayGo(m, pc) && m' == ClearMem(m, p, pc)
    ensures Keeps(m, m', p)
  {
    ClearPoint(m, p, pc);
    match pc
    case CFlag(_) => SameKeeps(m, m', p);
    case CLock(_) => LockKeeps(m, m', p);
    case CStep(oneshot) =>
      if m.queue == [] || VerdictOn(m.queue[0], m.words, p, oneshot) == Keep { SameKeeps(m, m', p); }
      else { PopKeeps(m, m', p); }
    case CStore(_) => FlagKeeps(m, m', p);
    case CUnlock(_) => LockKeeps(m, m', p);
  }

  lemma CloseKeeps(m: Mem, m': Mem, p: nat, pc: Pc, flip: bool)
    requires Sane(m, p, pc) && IsClose(pc) && ThreadInv(m, p, pc) && MayGo(m, pc) && m' == CloseMem(m, p, pc, flip)
    ensures Keeps(m, m', p)
  {
    ClosePoint(m, p, pc);
    match pc
    case UCas(count) => if m.tx == count { AddKeeps(m, m', p, p); } else { SameKeeps(m, m', p); }
    case KLock => LockKeeps(m, m', p);
    case KPop => if m.queue == [] { CloserKeeps(m, m', p); } else { PopKeeps(m, m', p); }
    case KLoad(_) => PickedKeeps(m, m', p);
    case KCas(q, w) => if m.words[q] == w && !flip { CloseNodeKeeps(m, m', p, q); } else { SameKeeps(m, m', p); }
    case KUnpark(q) => TokenKeeps(m, m', p, q);
    case KStore => FlagKeeps(m, m', p);
    case KUnlock => LockKeeps(m, m', p);
  }

  lemma FirePopKeeps(m: Mem, m': Mem, p: nat, pc: Pc, flip: bool)
    requires Sane(m, p, pc) && (pc.FPop? || pc.FCas?) && ThreadInv(m, p, pc) && m' == FireMem(m, p, pc, flip)
    ensures Keeps(m, m', p)
  {
    FirePoint(m, p, pc);
    match pc
    case FPop(f, _) =>
      if f.remaining == 0 { SameKeeps(m, m', p); }
      else if m.queue == [] { ForgetKeeps(m, m', p); }
      else { PopKeeps(m, m', p); }
    case FCas(f, w) =>
      if m.words[f.picks[0].node] == w && !(flip && w.st == INIT) { WakeKeeps(m, m', p, f, w); }
      else { SameKeeps(m, m', p); }
  }

  lemma FireKeeps(m: Mem, m': Mem, p: nat, pc: Pc, flip: bool)
    requires Sane(m, p, pc) && IsFire(pc) && ThreadInv(m, p, pc) && MayGo(m, pc) && m' == FireMem(m, p, pc, flip)
    ensures Keeps(m, m', p)
  {
    if pc.FPop? || pc.FCas? { FirePopKeeps(m, m', p, pc, flip); }
    else {
      FirePoint(m, p, pc);
      match pc
      case FFlag(f) => if f.remaining > 0 && !m.flag { ForgetKeeps(m, m', p); } else { SameKeeps(m, m', p); }
      case FLock(_) => LockKeeps(m, m', p);
      case FStore(_, _) => FlagKeeps(m, m', p);
      case FUnlock(_) => LockKeeps(m, m', p);
      case FUnpark(_, q) => TokenKeeps(m, m', p, q);
      case _ => SameKeeps(m, m', p);
    }
  }

  lemma GoKeeps(m: Mem, m': Mem, p: nat, pc: Pc, flip: bool)
    requires Sane(m, p, pc) && ThreadInv(m, p, pc) && MayGo(m, pc) && m' == GoMem(m, p, pc, flip)
    ensures Keeps(m, m', p)
  {
    if IsFire(pc) { FireKeeps(m, m', p, pc, flip); }
    else if IsReg(pc) { RegKeeps(m, m', p, pc); }
    else if IsWait(pc) { WaitKeeps(m, m', p, pc, flip); }
    else if IsAfter(pc) { AfterKeeps(m, m', p, pc); }
    else if IsClear(pc) { ClearKeeps(m, m', p, pc); }
    else if IsClose(pc) { CloseKeeps(m, m', p, pc, flip); }
    else { SameKeeps(m, m', p); }
  }

  // ---------- the acting thread ----------

  lemma GiveUpOwn(m: Mem, m': Mem, p: nat)
    requires SizesInv(m) && p < |m.words| && m' == Disarm(Credit(m, p, 1), p)
    ensures ThreadInv(m', p, FFlag(NewFire(1)))
  {
  }

  lemma DisarmOwn(m: Mem, m': Mem, p: nat)
    requires SizesInv(m) && p < |m.words| && m' == Disarm(m, p) && (m.tx > 0 ==> m.credits[p] == 0)
    ensures ThreadInv(m', p, Idle)
  {
  }

  lemma RegOwnTry(m: Mem, p: nat, pc: Pc, flip: bool)
    requires MemInv(m) && Sane(m, p, pc) && IsReg(pc) && ThreadInv(m, p, pc)
    requires pc.RTry? || pc.RLock? || pc.RMint? || pc.RSeqLoad?
    ensures ThreadInv(RegMem(m, p, pc), p, RegPc(m, p, pc, flip))
  {
    MemPoint(m);
    RegPoint(m, p, pc);
  }

  lemma RegOwnArm(m: Mem, p: nat, pc: Pc, flip: bool)
    requires Sane(m, p, pc) && IsReg(pc) && ThreadInv(m, p, pc)
    requires pc.RArm?
    ensures ThreadInv(RegMem(m, p, pc), p, RegPc(m, p, pc, flip))
  {
    RegPoint(m, p, pc);
  }

  lemma RegOwnSeqStore(m: Mem, p: nat, pc: Pc, flip: bool)
    requires MemInv(m) && Sane(m, p, pc) && IsReg(pc) && ThreadInv(m, p, pc)
    requires pc.RSeqStore? || pc.RFlag? || pc.RPush?
    ensures ThreadInv(RegMem(m, p, pc), p, RegPc(m, p, pc, flip))
  {
    MemPoint(m);
    RegPoint(m, p, pc);
  }

  lemma RegOwnUnlock(m: Mem, p: nat, pc: Pc, flip: bool)
    requires Sane(m, p, pc) && IsReg(pc) && ThreadInv(m, p, pc)
    requires pc.RUnlock?
    ensures ThreadInv(RegMem(m, p, pc), p, RegPc(m, p, pc, flip))
  {
    RegPoint(m, p, pc);
  }

  lemma RegOwnRecheck(m: Mem, p: nat, pc: Pc, flip: bool)
    requires Sane(m, p, pc) && IsReg(pc) && ThreadInv(m, p, pc)
    requires pc.RRecheck?
    ensures ThreadInv(RegMem(m, p, pc), p, RegPc(m, p, pc, flip))
  {
    RegPoint(m, p, pc);
  }

  lemma RegOwn(m: Mem, p: nat, pc: Pc, flip: bool)
    requires MemInv(m) && Sane(m, p, pc) && IsReg(pc) && ThreadInv(m, p, pc)
    ensures ThreadInv(RegMem(m, p, pc), p, RegPc(m, p, pc, flip))
  {
    if pc.RTry? || pc.RLock? || pc.RMint? || pc.RSeqLoad? { RegOwnTry(m, p, pc, flip); }
    else if pc.RArm? { RegOwnArm(m, p, pc, flip); }
    else if pc.RSeqStore? || pc.RFlag? || pc.RPush? { RegOwnSeqStore(m, p, pc, flip); }
    else if pc.RUnlock? { RegOwnUnlock(m, p, pc, flip); }
    else { RegOwnRecheck(m, p, pc, flip); }
  }

  lemma WaitOwnCommit(m: Mem, p: nat, pc: Pc, flip: bool)
    requires Sane(m, p, pc) && IsWait(pc) && ThreadInv(m, p, pc)
    requires pc.RCommit? || pc.RCommitCas?
    ensures ThreadInv(WaitMem(m, p, pc, flip), p, WaitPc(m, p, pc, flip))
  {
    WaitPoint(m, p, pc);
  }

  lemma WaitOwnTx(m: Mem, p: nat, pc: Pc, flip: bool)
    requires Sane(m, p, pc) && IsWait(pc) && ThreadInv(m, p, pc)
    requires pc.RTx? || pc.RPark? || pc.RReload?
    ensures ThreadInv(WaitMem(m, p, pc, flip), p, WaitPc(m, p, pc, flip))
  {
    WaitPoint(m, p, pc);
  }

  lemma WaitOwnAbandon(m: Mem, p: nat, pc: Pc, flip: bool)
    requires Sane(m, p, pc) && IsWait(pc) && ThreadInv(m, p, pc)
    requires pc.RAbandon?
    ensures ThreadInv(WaitMem(m, p, pc, flip), p, WaitPc(m, p, pc, flip))
  {
    WaitPoint(m, p, pc);
    if m.words[p].st == WOKEN { GiveUpOwn(m, WaitMem(m, p, pc, flip), p); }
    else if m.words[p].st > WAITING { DisarmOwn(m, WaitMem(m, p, pc, flip), p); }
  }

  lemma WaitOwnAbandonCas(m: Mem, p: nat, pc: Pc, flip: bool)
    requires Sane(m, p, pc) && IsWait(pc) && ThreadInv(m, p, pc)
    requires pc.RAbandonCas?
    ensures ThreadInv(WaitMem(m, p, pc, flip), p, WaitPc(m, p, pc, flip))
  {
    WaitPoint(m, p, pc);
  }

  lemma WaitOwn(m: Mem, p: nat, pc: Pc, flip: bool)
    requires Sane(m, p, pc) && IsWait(pc) && ThreadInv(m, p, pc)
    ensures ThreadInv(WaitMem(m, p, pc, flip), p, WaitPc(m, p, pc, flip))
  {
    if pc.RCommit? || pc.RCommitCas? { WaitOwnCommit(m, p, pc, flip); }
    else if pc.RTx? || pc.RPark? || pc.RReload? { WaitOwnTx(m, p, pc, flip); }
    else if pc.RAbandon? { WaitOwnAbandon(m, p, pc, flip); }
    else { WaitOwnAbandonCas(m, p, pc, flip); }
  }

  lemma ClearOwnFlag(m: Mem, p: nat, pc: Pc)
    requires Sane(m, p, pc) && IsClear(pc) && ThreadInv(m, p, pc)
    requires pc.CFlag? || pc.CLock? || pc.CUnlock?
    ensures ThreadInv(ClearMem(m, p, pc), p, ClearPc(m, p, pc))
  {
    ClearPoint(m, p, pc);
    var m', pc' := ClearMem(m, p, pc), ClearPc(m, p, pc);
    if IsClear(pc') { ClearIs(m', p, pc'); } else if IsAfter(pc') { AfterIs(m', p, pc'); } else { IdleIs(m', p); }
  }

  lemma ClearOwnStep(m: Mem, p: nat, pc: Pc)
    requires Sane(m, p, pc) && IsClear(pc) && ThreadInv(m, p, pc)
    requires pc.CStep?
    ensures ThreadInv(ClearMem(m, p, pc), p, ClearPc(m, p, pc))
  {
    ClearPoint(m, p, pc);
    var m', pc' := ClearMem(m, p, pc), ClearPc(m, p, pc);
    if IsClear(pc') { ClearIs(m', p, pc'); } else if IsAfter(pc') { AfterIs(m', p, pc'); } else { IdleIs(m', p); }
  }

  lemma ClearOwnStore(m: Mem, p: nat, pc: Pc)
    requires Sane(m, p, pc) && IsClear(pc) && ThreadInv(m, p, pc)
    requires pc.CStore?
    ensures ThreadInv(ClearMem(m, p, pc), p, ClearPc(m, p, pc))
  {
    ClearPoint(m, p, pc);
    var m', pc' := ClearMem(m, p, pc), ClearPc(m, p, pc);
    if IsClear(pc') { ClearIs(m', p, pc'); } else if IsAfter(pc') { AfterIs(m', p, pc'); } else { IdleIs(m', p); }
  }

  lemma ClearOwn(m: Mem, p: nat, pc: Pc)
    requires Sane(m, p, pc) && IsClear(pc) && ThreadInv(m, p, pc)
    ensures ThreadInv(ClearMem(m, p, pc), p, ClearPc(m, p, pc))
  {
    if pc.CFlag? || pc.CLock? || pc.CUnlock? { ClearOwnFlag(m, p, pc); }
    else if pc.CStep? { ClearOwnStep(m, p, pc); }
    else { ClearOwnStore(m, p, pc); }
  }

  lemma CloseOwnUpgrade(m: Mem, p: nat, pc: Pc, flip: bool)
    requires Sane(m, p, pc) && IsClose(pc) && ThreadInv(m, p, pc)
    requires pc.UCas?
    ensures ThreadInv(CloseMem(m, p, pc, flip), p, ClosePc(m, p, pc, flip))
  {
    ClosePoint(m, p, pc);
    var m', pc' := CloseMem(m, p, pc, flip), ClosePc(m, p, pc, flip);
    if IsClose(pc') { CloseIs(m', p, pc'); } else { IdleIs(m', p); }
  }

  lemma CloseOwnLock(m: Mem, p: nat, pc: Pc, flip: bool)
    requires Sane(m, p, pc) && IsClose(pc) && ThreadInv(m, p, pc)
    requires pc.KLock? || pc.KStore? || pc.KUnlock?
    ensures ThreadInv(CloseMem(m, p, pc, flip), p, ClosePc(m, p, pc, flip))
  {
    ClosePoint(m, p, pc);
    var m', pc' := CloseMem(m, p, pc, flip), ClosePc(m, p, pc, flip);
    if IsClose(pc') { CloseIs(m', p, pc'); } else { IdleIs(m', p); }
  }

  lemma CloseOwnPop(m: Mem, p: nat, pc: Pc, flip: bool)
    requires Sane(m, p, pc) && IsClose(pc) && ThreadInv(m, p, pc)
    requires pc.KPop? || pc.KUnpark?
    ensures ThreadInv(CloseMem(m, p, pc, flip), p, ClosePc(m, p, pc, flip))
  {
    ClosePoint(m, p, pc);
    var m', pc' := CloseMem(m, p, pc, flip), ClosePc(m, p, pc, flip);
    if IsClose(pc') { CloseIs(m', p, pc'); } else { IdleIs(m', p); }
  }

  lemma CloseOwnLoad(m: Mem, p: nat, pc: Pc, flip: bool)
    requires Sane(m, p, pc) && IsClose(pc) && ThreadInv(m, p, pc)
    requires pc.KLoad?
    ensures ThreadInv(CloseMem(m, p, pc, flip), p, ClosePc(m, p, pc, flip))
  {
    ClosePoint(m, p, pc);
    var m', pc' := CloseMem(m, p, pc, flip), ClosePc(m, p, pc, flip);
    if IsClose(pc') { CloseIs(m', p, pc'); } else { IdleIs(m', p); }
  }

  lemma CloseOwnCas(m: Mem, p: nat, pc: Pc, flip: bool)
    requires Sane(m, p, pc) && IsClose(pc) && ThreadInv(m, p, pc)
    requires pc.KCas?
    ensures ThreadInv(CloseMem(m, p, pc, flip), p, ClosePc(m, p, pc, flip))
  {
    ClosePoint(m, p, pc);
    var m', pc' := CloseMem(m, p, pc, flip), ClosePc(m, p, pc, flip);
    if IsClose(pc') { CloseIs(m', p, pc'); } else { IdleIs(m', p); }
  }

  lemma CloseOwn(m: Mem, p: nat, pc: Pc, flip: bool)
    requires Sane(m, p, pc) && IsClose(pc) && ThreadInv(m, p, pc)
    ensures ThreadInv(CloseMem(m, p, pc, flip), p, ClosePc(m, p, pc, flip))
  {
    if pc.UCas? { CloseOwnUpgrade(m, p, pc, flip); }
    else if pc.KLock? || pc.KStore? || pc.KUnlock? { CloseOwnLock(m, p, pc, flip); }
    else if pc.KPop? || pc.KUnpark? { CloseOwnPop(m, p, pc, flip); }
    else if pc.KLoad? { CloseOwnLoad(m, p, pc, flip); }
    else { CloseOwnCas(m, p, pc, flip); }
  }

  lemma NextPickOwn(m: Mem, p: nat, f: Fire)
    requires SizesInv(m) && p < |m.words| && FireInv(m, p, f) && HasRound(f)
    ensures ThreadInv(m, p, NextPick(f))
  {
  }

  lemma FireOwnFlag(m: Mem, p: nat, pc: Pc, flip: bool)
    requires MemInv(m) && Sane(m, p, pc) && IsFire(pc) && ThreadInv(m, p, pc)
             && (pc.FFlag? || pc.FLock? || pc.FStore? || pc.FRet?)
    ensures ThreadInv(FireMem(m, p, pc, flip), p, FirePc(m, p, pc, flip))
  {
    MemPoint(m);
    FirePoint(m, p, pc);
  }

  lemma FireOwnUnlock(m: Mem, p: nat, pc: Pc, flip: bool)
    requires MemInv(m) && Sane(m, p, pc) && IsFire(pc) && ThreadInv(m, p, pc) && (pc.FUnlock? || pc.FUnpark?)
    ensures ThreadInv(FireMem(m, p, pc, flip), p, FirePc(m, p, pc, flip))
  {
    MemPoint(m);
    FirePoint(m, p, pc);
    NextPickOwn(FireMem(m, p, pc, flip), p, pc.f);
  }

  lemma CollectInv(m: Mem, p: nat, f: Fire, e: Entry)
    requires MemInv(m) && p < |m.credits| && FireInv(m, p, f) && !f.empty && f.remaining > 0 && m.queue != []
             && e == m.queue[0]
    requires e.node < |m.words|
    ensures FireInv(m, p, Collected(f, e, m.words[e.node]))
  {
    MemPoint(m);
    var w := m.words[e.node];
    CommittedMore(f.picks, Pick(e.node, w.st == WAITING, e.stamp));
  }

  lemma FireOwnPop(m: Mem, p: nat, pc: Pc, flip: bool)
    requires MemInv(m) && Sane(m, p, pc) && IsFire(pc) && ThreadInv(m, p, pc) && pc.FPop?
    ensures ThreadInv(FireMem(m, p, pc, flip), p, FirePc(m, p, pc, flip))
  {
    MemPoint(m);
    FirePoint(m, p, pc);
    if pc.f.remaining > 0 && m.queue != [] { CollectInv(m, p, pc.f, m.queue[0]); }
  }

  lemma SettleInv(m: Mem, p: nat, f: Fire)
    requires p < |m.credits| && FireInv(m, p, f) && f.picks != []
    ensures FireInv(m, p, Settle(f, false))
  {
  }

  lemma FireOwnLoad(m: Mem, p: nat, pc: Pc, flip: bool)
    requires MemInv(m) && Sane(m, p, pc) && IsFire(pc) && ThreadInv(m, p, pc) && pc.FLoad?
    ensures ThreadInv(FireMem(m, p, pc, flip), p, FirePc(m, p, pc, flip))
  {
    MemPoint(m);
    FirePoint(m, p, pc);
    SettleInv(m, p, pc.f);
    NextPickOwn(m, p, Settle(pc.f, false));
  }

  lemma WonPicks(m: Mem, m': Mem, p: nat, f: Fire, w: Word)
    requires SizesInv(m) && p < |m.credits| && PicksInv(m, f.picks) && f.picks != [] && m.words[f.picks[0].node] == w
    requires m' == WakeNode(m, p, f, w)
    ensures PicksInv(m', f.picks[1..])
  {
  }

  lemma WonCredits(m: Mem, m': Mem, p: nat, f: Fire, w: Word)
    requires SizesInv(m) && p < |m.credits| && f.picks != [] && f.picks[0].node < |m.words|
             && m' == WakeNode(m, p, f, w)
    requires m.tx > 0 ==> m.credits[p] == Owed(f) && (w.st == WAITING ==> f.picks[0].node != p)
    requires w.st == INIT || w.st == WAITING
    ensures m'.tx > 0 ==> m'.credits[p] == Owed(Settle(f, w.st == WAITING))
  {
    if f.picks[0].committed { CommittedHead(f.picks); }
  }

  lemma WonInv(m: Mem, m': Mem, p: nat, f: Fire, w: Word)
    requires SizesInv(m) && m.armed <= m.joined && p < |m.credits| && FireInv(m, p, f) && f.picks != []
             && f.picks[0].node < |m.words|
    requires m.words[f.picks[0].node] == w && Wakeable(w, f.picks[0].stamp) && m' == WakeNode(m, p, f, w)
    ensures FireInv(m', p, Settle(f, w.st == WAITING))
  {
    WonPicks(m, m', p, f, w);
    WonCredits(m, m', p, f, w);
  }

  lemma FireOwnWon(m: Mem, p: nat, pc: Pc, flip: bool)
    requires MemInv(m) && Sane(m, p, pc) && IsFire(pc) && ThreadInv(m, p, pc) && pc.FCas?
    requires m.words[pc.f.picks[0].node] == pc.w && !(flip && pc.w.st == INIT)
    ensures ThreadInv(FireMem(m, p, pc, flip), p, FirePc(m, p, pc, flip))
  {
    MemPoint(m);
    FirePoint(m, p, pc);
    WonInv(m, FireMem(m, p, pc, flip), p, pc.f, pc.w);
  }

  lemma FireOwnLost(m: Mem, p: nat, pc: Pc, flip: bool)
    requires MemInv(m) && Sane(m, p, pc) && IsFire(pc) && ThreadInv(m, p, pc) && pc.FCas?
    requires m.words[pc.f.picks[0].node] != pc.w || (flip && pc.w.st == INIT)
    ensures ThreadInv(FireMem(m, p, pc, flip), p, FirePc(m, p, pc, flip))
  {
    MemPoint(m);
    FirePoint(m, p, pc);
    if pc.w.st == WAITING {
      SettleInv(m, p, pc.f);
      NextPickOwn(m, p, Settle(pc.f, false));
    }
  }

  lemma FireOwn(m: Mem, p: nat, pc: Pc, flip: bool)
    requires MemInv(m) && Sane(m, p, pc) && IsFire(pc) && ThreadInv(m, p, pc)
    ensures ThreadInv(FireMem(m, p, pc, flip), p, FirePc(m, p, pc, flip))
  {
    if pc.FPop? { FireOwnPop(m, p, pc, flip); }
    else if pc.FLoad? { FireOwnLoad(m, p, pc, flip); }
    else if pc.FCas? && m.words[pc.f.picks[0].node] == pc.w
        && !(flip && pc.w.st == INIT) { FireOwnWon(m, p, pc, flip); }
    else if pc.FCas? { FireOwnLost(m, p, pc, flip); }
    else if pc.FUnlock? || pc.FUnpark? { FireOwnUnlock(m, p, pc, flip); }
    else { FireOwnFlag(m, p, pc, flip); }
  }

  lemma AfterOwnTake(m: Mem, m': Mem, p: nat, pc: Pc, flip: bool)
    requires m.armed <= m.joined && Sane(m, p, pc) && IsAfter(pc) && ThreadInv(m, p, pc) && (pc.RTake? || pc.RFinal?)
    requires m' == AfterMem(m, p, pc)
    ensures ThreadInv(m', p, AfterPc(m, p, pc, flip))
  {
    AfterPoint(m, p, pc);
  }

  lemma AfterOwnRest(m: Mem, m': Mem, p: nat, pc: Pc, flip: bool)
    requires m.armed <= m.joined && Sane(m, p, pc) && IsAfter(pc) && ThreadInv(m, p, pc) && !pc.RTake? && !pc.RFinal?
    requires m' == AfterMem(m, p, pc)
    ensures ThreadInv(m', p, AfterPc(m, p, pc, flip))
  {
    AfterPoint(m, p, pc);
  }

  lemma AfterOwn(m: Mem, p: nat, pc: Pc, flip: bool)
    requires MemInv(m) && Sane(m, p, pc) && IsAfter(pc) && ThreadInv(m, p, pc)
    ensures ThreadInv(AfterMem(m, p, pc), p, AfterPc(m, p, pc, flip))
  {
    MemPoint(m);
    if pc.RTake? || pc.RFinal? { AfterOwnTake(m, AfterMem(m, p, pc), p, pc, flip); }
    else { AfterOwnRest(m, AfterMem(m, p, pc), p, pc, flip); }
  }

  lemma GoOwn(m: Mem, p: nat, pc: Pc, flip: bool)
    requires MemInv(m) && Sane(m, p, pc) && ThreadInv(m, p, pc) && pc != Idle
    ensures ThreadInv(GoMem(m, p, pc, flip), p, GoPc(m, p, pc, flip))
  {
    if IsFire(pc) { FireOwn(m, p, pc, flip); }
    else if IsReg(pc) { RegOwn(m, p, pc, flip); }
    else if IsWait(pc) { WaitOwn(m, p, pc, flip); }
    else if IsAfter(pc) { AfterOwn(m, p, pc, flip); }
    else if IsClear(pc) { ClearOwn(m, p, pc); }
    else { CloseOwn(m, p, pc, flip); }
  }
}
