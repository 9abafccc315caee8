/**
 The inductive invariant of the wake protocol.
 */
module WakeInv {
  import opened Basics
  import opened WakeProtocol

  // ---------- counting ----------

  function Total(c: seq<nat>): nat {
    if c == [] then 0 else c[0] + Total(c[1..])
  }

  lemma {:induction false} TotalUpdate(c: seq<nat>, i: nat, v: nat)
    requires i < |c|
    ensures Total(c[i := v]) == Total(c) - c[i] + v && c[i] <= Total(c)
    decreases |c|
  {
    if i > 0 {
      TotalUpdate(c[1..], i - 1, v);
      assert c[i := v][1..] == c[1..][i - 1 := v];
    } else {
      assert c[i := v][1..] == c[1..];
    }
  }

  function Committed(ps: seq<Pick>): (n: nat)
    ensures n <= |ps|
  {
    if ps == [] then 0 else (if ps[0].committed then 1 else 0) + Committed(ps[1..])
  }

  lemma {:induction false} CommittedMore(ps: seq<Pick>, k: Pick)
    ensures Committed(ps + [k]) == Committed(ps) + if k.committed then 1 else 0
    decreases |ps|
  {
    if ps != [] {
      CommittedMore(ps[1..], k);
      assert (ps + [k])[1..] == ps[1..] + [k];
    }
  }

  /** The events a fire still owes: none once it has seen a registry without waiters. */
  function Owed(f: Fire): nat {
    if f.empty then 0 else f.remaining + f.wasted + Committed(f.picks)
  }

  // ---------- memory ----------

  predicate SizesInv(m: Mem) {
    |m.words| == |m.tokens| == |m.credits|
  }

  /** Sorted by stamp; a clear flag means an empty queue. */
  ghost predicate QueueInv(queue: seq<Entry>, flag: bool, next: nat, nodes: nat, owner: map<nat, nat>) {
    && (queue != [] ==> flag)
    && (forall i, j :: 0 <= i < j < |queue| ==> queue[i].stamp < queue[j].stamp)
    && (forall i :: 0 <= i < |queue| ==>
          queue[i].node < nodes && queue[i].stamp < next && queue[i].stamp in owner
              && owner[queue[i].stamp] == queue[i].node)
  }

  /** Stamps are unique. */
  ghost predicate StampsInv(words: seq<Word>, next: nat, owner: map<nat, nat>) {
    && (forall q :: 0 <= q < |words| ==>
          words[q].stamp < next && (words[q].stamp in owner ==> owner[words[q].stamp] == q))
    && (forall s :: s in owner ==> s < next)
  }

  predicate TxInv(m: Mem) {
    m.tx == |m.senders| && (forall h :: h in m.senders ==> h < m.nextHandle) && (m.tx > 0 ==> m.closer == None)
  }

  /** The entry is the current one of a receiver that has found the channel empty. */
  predicate ArmedEntry(e: Entry, words: seq<Word>, armed: set<nat>) {
    e.node < |words| && e.node in armed && words[e.node].stamp == e.stamp
  }

  /** While a sender is alive and a receiver that found the channel empty is queued, there are no
      more items than events on their way. */
  ghost predicate Accounted(m: Mem) {
    m.tx > 0 ==> forall i :: 0 <= i < |m.queue| && ArmedEntry(m.queue[i], m.words, m.armed) ==>
        m.buf <= Total(m.credits)
  }

  predicate CommittedEntry(e: Entry, words: seq<Word>) {
    e.node < |words| && words[e.node] == Word(WAITING, e.stamp)
  }

  /** A committed node with a current entry is that of a receiver in its wait. */
  ghost predicate WaitingInv(m: Mem) {
    m.tx > 0 ==> forall i :: 0 <= i < |m.queue| && CommittedEntry(m.queue[i], m.words) ==> m.queue[i].node in m.armed
  }

  ghost predicate MemFacts(m: Mem) {
    && SizesInv(m) && QueueInv(m.queue, m.flag, m.next, |m.words|, m.owner) && StampsInv(m.words, m.next, m.owner)
    && TxInv(m) && Accounted(m) && WaitingInv(m) && m.armed <= m.joined
  }

  // The facts about memory, threads and steps make long formulas. The predicates below quantify
  // over them, so that they come into a proof only where MemPoint, ThreadPoint or CalmPoint is
  // called.

  ghost predicate MemInv(m: Mem) {
    forall x :: x == m ==> MemFacts(x)
  }

  lemma MemPoint(m: Mem)
    requires MemInv(m)
    ensures MemFacts(m)
  {
  }

  // ---------- threads ----------

  ghost predicate PicksInv(m: Mem, ps: seq<Pick>) {
    forall i :: 0 <= i < |ps| ==>
      && ps[i].node < |m.words| && ps[i].stamp in m.owner
      && (m.tx > 0 && m.words[ps[i].node] == Word(WAITING, ps[i].stamp) ==> ps[i].node in m.armed)
  }

  /** Every event of the fire has landed, is to be handed out, or is with a pick. */
  ghost predicate FireInv(m: Mem, p: nat, f: Fire)
    requires p < |m.credits|
  {
    && f.n == f.remaining + f.wasted + f.landed + Committed(f.picks)
    && p !in m.joined && (m.tx > 0 ==> m.credits[p] == Owed(f)) && PicksInv(m, f.picks)
  }

  /** Between two rounds of a fire. */
  predicate Fresh(f: Fire) {
    f.picks == [] && f.wasted == 0
  }

  predicate HasRound(f: Fire) {
    f.remaining == 0 || f.empty
  }

  predicate Quiet(m: Mem, p: nat)
    requires p < |m.credits|
  {
    p !in m.joined && (m.tx > 0 ==> m.credits[p] == 0)
  }

  /** While it registers, a node is not committed. */
  predicate Unset(st: nat) {
    st == INIT || st == WOKEN || st == CLOSED
  }

  /** Stamp s was minted by the lock holder and nobody has it yet. */
  ghost predicate Minted(m: Mem, p: nat, s: nat) {
    && m.lock == Some(p) && s < m.next && s !in m.owner
    && (forall i :: 0 <= i < |m.queue| ==> m.queue[i].stamp < s)
    && (forall q :: 0 <= q < |m.words| ==> m.words[q].stamp != s)
  }

  ghost predicate Stamped(m: Mem, p: nat, s: nat)
    requires p < |m.words|
  {
    && m.lock == Some(p) && s < m.next && s !in m.owner && m.words[p].stamp == s
    && (forall i :: 0 <= i < |m.queue| ==> m.queue[i].stamp < s)
    && (forall q :: 0 <= q < |m.words| && q != p ==> m.words[q].stamp != s)
  }

  predicate WaitInv(m: Mem, p: nat)
    requires p < |m.words| && p < |m.credits|
  {
    && p in m.armed && (Unset(m.words[p].st) || m.words[p].st == WAITING)
    && (m.tx > 0 ==> m.credits[p] <= 1 && (m.words[p].st != WOKEN ==> m.credits[p] == 0))
  }

  /** A receiver that is about to park will be unparked if it was woken or closed. */
  predicate TokenInv(m: Mem, p: nat)
    requires p < |m.words| && p < |m.tokens|
  {
    m.words[p].st >= WOKEN ==> m.tokens[p] || p in m.unparker
  }

  ghost predicate FirePcInv(m: Mem, p: nat, pc: Pc)
    requires p < |m.words| == |m.tokens| == |m.credits| && IsFire(pc)
  {
    match pc
    case FFlag(f) => FireInv(m, p, f) && Fresh(f) && !f.empty
    case FLock(f) => FireInv(m, p, f) && Fresh(f) && !f.empty && f.remaining > 0
    case FPop(f, _) => FireInv(m, p, f) && f.wasted == 0 && !f.empty && m.lock == Some(p)
    case FStore(f, _) => FireInv(m, p, f) && f.wasted == 0 && HasRound(f) && m.lock == Some(p)
    case FUnlock(f) => FireInv(m, p, f) && f.wasted == 0 && HasRound(f) && m.lock == Some(p)
    case FLoad(f) => FireInv(m, p, f) && HasRound(f) && f.picks != []
    case FCas(f, w) =>
      && FireInv(m, p, f) && HasRound(f) && f.picks != [] && Wakeable(w, f.picks[0].stamp)
         && (w.st == WAITING ==> w.stamp in m.owner)
      && SeenInv(m, f.picks[0].node, w)
    case FUnpark(f, q) => FireInv(m, p, f) && HasRound(f) && q < |m.words|
    case FRet(f) => FireInv(m, p, f) && Fresh(f) && HasRound(f)
  }

  /** A node seen waiting under its current stamp does not go back to Init under that stamp. */
  predicate SeenInv(m: Mem, q: nat, w: Word) {
    q < |m.words| && (w.st == WAITING && m.words[q].stamp == w.stamp && q in m.joined ==> m.words[q].st >= WAITING)
  }

  ghost predicate RegPcInv(m: Mem, p: nat, pc: Pc)
    requires p < |m.words| == |m.tokens| == |m.credits| && IsReg(pc)
  {
    && (m.tx > 0 ==> m.credits[p] == 0) && p !in m.armed && (!pc.RTry? && !pc.RArm? ==> Unset(m.words[p].st))
    && (p in m.joined <==> pc.RUnlock? || pc.RRecheck?)
    && match pc
       case RMint => m.lock == Some(p)
       case RSeqLoad(s) => Minted(m, p, s)
       case RSeqStore(s, st) => Minted(m, p, s) && Unset(st)
       case RFlag(s) => Stamped(m, p, s)
       case RPush(s) => Stamped(m, p, s) && m.flag
       case RUnlock => m.lock == Some(p)
       case _ => true
  }

  ghost predicate WaitPcInv(m: Mem, p: nat, pc: Pc)
    requires p < |m.words| == |m.tokens| == |m.credits| && IsWait(pc)
  {
    && WaitInv(m, p)
    && match pc
       case RCommitCas(w) => w.st == INIT
       case RTx(st) => (st < WOKEN ==> TokenInv(m, p)) && (st >= WOKEN ==> m.words[p].st == st)
       case RPark => TokenInv(m, p) && PassedInv(m, p)
       case RReload => PassedInv(m, p)
       case RAbandon => PassedInv(m, p)
       case RAbandonCas(w) => w.st <= WAITING && PassedInv(m, p)
       case _ => true
  }

  /** The last sender is gone, and its close has emptied the queue. */
  predicate CloseDone(m: Mem) {
    m.tx == 0 && m.closer == None
  }

  /** A receiver that has seen a live sender after it registered does not outlast the close. */
  predicate PassedInv(m: Mem, p: nat)
    requires p < |m.words|
  {
    CloseDone(m) && m.words[p].st <= WAITING ==> Entry(p, m.words[p].stamp) !in m.queue
  }

  ghost predicate AfterPcInv(m: Mem, p: nat, pc: Pc)
    requires p < |m.words| == |m.tokens| == |m.credits| && IsAfter(pc)
  {
    && p !in m.joined
    && match pc
       case RTake => m.tx > 0 ==> m.credits[p] <= 1
       case RFinal => m.tx == 0
       case RDisc => m.tx == 0 && m.buf == 0
       case _ => Quiet(m, p)
  }

  ghost predicate ClearPcInv(m: Mem, p: nat, pc: Pc)
    requires p < |m.words| == |m.tokens| == |m.credits| && IsClear(pc)
  {
    Quiet(m, p) && (pc.CStep? || pc.CStore? || pc.CUnlock? ==> m.lock == Some(p))
  }

  /** In a close, before the queue is empty. */
  predicate Emptying(pc: Pc) {
    pc.KLock? || pc.KPop? || pc.KLoad? || pc.KCas? || pc.KUnpark?
  }

  ghost predicate ClosePcInv(m: Mem, p: nat, pc: Pc)
    requires p < |m.words| == |m.tokens| == |m.credits| && IsClose(pc)
  {
    && Quiet(m, p) && (pc.UCas? ==> pc.count > 0) && (!pc.UCas? ==> m.tx == 0)
    && (pc.KPop? || pc.KLoad? || pc.KCas? || pc.KUnpark? || pc.KStore? || pc.KUnlock? ==> m.lock == Some(p))
    && (pc.KLoad? || pc.KCas? || pc.KUnpark? ==> pc.q < |m.words|)
    && (pc.KCas? ==> pc.w.st <= WAITING)
    && (pc.KStore? ==> m.queue == []) && (Emptying(pc) ==> m.closer == Some(p))
  }

  /** What thread p relies on at pc. */
  ghost predicate ThreadFacts(m: Mem, p: nat, pc: Pc) {
    && p < |m.words| == |m.tokens| == |m.credits|
    && (if IsFire(pc) then FirePcInv(m, p, pc)
        else if IsReg(pc) then RegPcInv(m, p, pc)
        else if IsWait(pc) then WaitPcInv(m, p, pc)
        else if IsAfter(pc) then AfterPcInv(m, p, pc)
        else if IsClear(pc) then ClearPcInv(m, p, pc)
        else if IsClose(pc) then ClosePcInv(m, p, pc)
        else Quiet(m, p))
  }

  ghost predicate ThreadInv(m: Mem, p: nat, pc: Pc) {
    forall x :: x == pc ==> ThreadFacts(m, p, x)
  }

  lemma ThreadPoint(m: Mem, p: nat, pc: Pc)
    requires ThreadInv(m, p, pc)
    ensures ThreadFacts(m, p, pc)
  {
  }

  lemma FirePoint(m: Mem, p: nat, pc: Pc)
    requires ThreadInv(m, p, pc) && IsFire(pc)
    ensures p < |m.words| == |m.tokens| == |m.credits| && FirePcInv(m, p, pc)
  {
    ThreadPoint(m, p, pc);
  }

  lemma RegPoint(m: Mem, p: nat, pc: Pc)
    requires ThreadInv(m, p, pc) && IsReg(pc)
    ensures p < |m.words| == |m.tokens| == |m.credits| && RegPcInv(m, p, pc)
  {
    ThreadPoint(m, p, pc);
  }

  lemma WaitPoint(m: Mem, p: nat, pc: Pc)
    requires ThreadInv(m, p, pc) && IsWait(pc)
    ensures p < |m.words| == |m.tokens| == |m.credits| && WaitPcInv(m, p, pc)
  {
    ThreadPoint(m, p, pc);
  }

  lemma AfterPoint(m: Mem, p: nat, pc: Pc)
    requires ThreadInv(m, p, pc) && IsAfter(pc)
    ensures p < |m.words| == |m.tokens| == |m.credits| && AfterPcInv(m, p, pc)
  {
    ThreadPoint(m, p, pc);
  }

  lemma ClearPoint(m: Mem, p: nat, pc: Pc)
    requires ThreadInv(m, p, pc) && IsClear(pc)
    ensures p < |m.words| == |m.tokens| == |m.credits| && ClearPcInv(m, p, pc)
  {
    ThreadPoint(m, p, pc);
  }

  lemma ClosePoint(m: Mem, p: nat, pc: Pc)
    requires ThreadInv(m, p, pc) && IsClose(pc)
    ensures p < |m.words| == |m.tokens| == |m.credits| && ClosePcInv(m, p, pc)
  {
    ThreadPoint(m, p, pc);
  }

  lemma ThreadSizes(m: Mem, p: nat, pc: Pc)
    requires ThreadInv(m, p, pc)
    ensures p < |m.words| == |m.tokens| == |m.credits|
  {
    ThreadPoint(m, p, pc);
  }

  lemma RegIs(m: Mem, p: nat, pc: Pc)
    requires p < |m.words| == |m.tokens| == |m.credits| && IsReg(pc) && RegPcInv(m, p, pc)
    ensures ThreadInv(m, p, pc)
  {
  }

  lemma WaitIs(m: Mem, p: nat, pc: Pc)
    requires p < |m.words| == |m.tokens| == |m.credits| && IsWait(pc) && WaitPcInv(m, p, pc)
    ensures ThreadInv(m, p, pc)
  {
  }

  lemma AfterIs(m: Mem, p: nat, pc: Pc)
    requires p < |m.words| == |m.tokens| == |m.credits| && IsAfter(pc) && AfterPcInv(m, p, pc)
    ensures ThreadInv(m, p, pc)
  {
  }

  lemma ClearIs(m: Mem, p: nat, pc: Pc)
    requires p < |m.words| == |m.tokens| == |m.credits| && IsClear(pc) && ClearPcInv(m, p, pc)
    ensures ThreadInv(m, p, pc)
  {
  }

  lemma CloseIs(m: Mem, p: nat, pc: Pc)
    requires p < |m.words| == |m.tokens| == |m.credits| && IsClose(pc) && ClosePcInv(m, p, pc)
    ensures ThreadInv(m, p, pc)
  {
  }

  lemma IdleIs(m: Mem, p: nat)
    requires p < |m.words| == |m.tokens| == |m.credits| && Quiet(m, p)
    ensures ThreadInv(m, p, Idle)
  {
  }

  // ---------- what the others notice ----------

  /** What others may do to a node: wake or close it. */
  predicate WordStep(w: Word, w': Word) {
    w' == w || (w.st <= WAITING && w'.stamp == w.stamp && (w'.st == WOKEN || w'.st == CLOSED))
  }

  predicate NodeCalm(m: Mem, m': Mem, q: nat)
    requires q < |m.words| == |m.tokens| == |m.credits| == |m'.words| == |m'.tokens| == |m'.credits|
  {
    && WordStep(m.words[q], m'.words[q])
    && (m'.credits[q] == m.credits[q]
        || (m'.credits[q] == m.credits[q] + 1 && m.words[q].st == WAITING && m'.words[q].st == WOKEN
           && (m.tx > 0 ==> q in m.armed)))
    && (m.tokens[q] ==> m'.tokens[q])
    && (q in m.unparker ==> q in m'.unparker || m'.tokens[q])
    && (m'.words[q] != m.words[q] ==> m'.tokens[q] || q in m'.unparker)
    && (q in m.armed <==> q in m'.armed) && (q in m.joined <==> q in m'.joined)
  }

  /** What an acting thread p may do to its own node, as far as others are concerned. */
  predicate SelfCalm(m: Mem, m': Mem, p: nat)
    requires p < |m.words| == |m'.words|
  {
    && (m'.words[p].stamp == m.words[p].stamp || m'.words[p].stamp >= m.next
       || (m.lock == Some(p) && m'.words[p].stamp !in m.owner))
    && (m'.words[p].st == WAITING ==> m'.words[p] == m.words[p] || m'.words[p].stamp >= m.next || p in m'.armed)
    && (p in m.armed && p !in m'.armed && m'.tx > 0 ==> m'.words[p].st != WAITING)
    && (p in m'.joined && m'.words[p].st == INIT ==>
          (p in m.joined && m.words[p] == m'.words[p]) || m'.words[p].stamp !in m.owner)
  }

  /** A step of thread p that disturbs no other thread. */
  ghost predicate CalmFacts(m: Mem, m': Mem, p: nat) {
    && |m.words| == |m.tokens| == |m.credits| == |m'.words| == |m'.tokens| == |m'.credits|
    && m.next <= m'.next && (forall s :: s in m.owner ==> s in m'.owner)
    && (forall s :: s in m'.owner && s !in m.owner ==> m.lock == Some(p))
    && (m.lock.Some? && m.lock != Some(p) ==> m'.lock == m.lock && m'.queue == m.queue && (m.flag ==> m'.flag))
    && (m'.tx > 0 ==> m.tx > 0) && (m.tx == 0 ==> m'.buf <= m.buf)
    && (forall q :: 0 <= q < |m.words| && q != p ==> NodeCalm(m, m', q))
    && (p < |m.words| ==> SelfCalm(m, m', p))
    && QueueCalm(m.queue, m'.queue, p) && (CloseDone(m') ==> CloseDone(m) || m'.queue == [])
    && (m.closer.Some? && m.closer != Some(p) ==> m'.closer == m.closer)
  }

  ghost predicate Calm(m: Mem, m': Mem, p: nat) {
    forall x :: x == m' ==> CalmFacts(m, x, p)
  }

  lemma CalmPoint(m: Mem, m': Mem, p: nat)
    requires Calm(m, m', p)
    ensures CalmFacts(m, m', p)
  {
  }

  /** The queue loses its first entry, or gets one of p's. */
  predicate QueueCalm(queue: seq<Entry>, queue': seq<Entry>, p: nat) {
    || queue' == queue
    || (queue != [] && queue' == queue[1..])
    || (|queue'| == |queue| + 1 && queue'[..|queue|] == queue && queue'[|queue|].node == p)
  }

  lemma NotQueuedKept(queue: seq<Entry>, queue': seq<Entry>, p: nat, e: Entry)
    requires QueueCalm(queue, queue', p) && e.node != p && e !in queue
    ensures e !in queue'
  {
    forall i | 0 <= i < |queue'| ensures queue'[i] != e {
      if queue != [] && queue' == queue[1..] { assert queue'[i] == queue[i + 1]; }
      else if i < |queue| { assert queue'[..|queue|][i] == queue[i] || queue' == queue; }
    }
  }

  lemma PassedKept(m: Mem, m': Mem, p: nat, q: nat)
    requires Calm(m, m', p) && q != p && q < |m.words| && q < |m'.words| && PassedInv(m, q)
    ensures PassedInv(m', q)
  {
    CalmPoint(m, m', p);
    assert NodeCalm(m, m', q);
    if CloseDone(m') && m'.words[q].st <= WAITING && CloseDone(m) {
      NotQueuedKept(m.queue, m'.queue, p, Entry(q, m.words[q].stamp));
    }
  }

  /** No thread but p can tell the difference. */
  ghost predicate Kept(m: Mem, m': Mem, p: nat) {
    forall q: nat, qc :: q != p && ThreadInv(m, q, qc) ==> ThreadInv(m', q, qc)
  }

  lemma PicksKept(m: Mem, m': Mem, p: nat, ps: seq<Pick>)
    requires Calm(m, m', p) && StampsInv(m.words, m.next, m.owner) && PicksInv(m, ps)
    ensures PicksInv(m', ps)
  {
    CalmPoint(m, m', p);
    forall i | 0 <= i < |ps|
      ensures && ps[i].node < |m'.words| && ps[i].stamp in m'.owner
              && (m'.tx > 0 && m'.words[ps[i].node] == Word(WAITING, ps[i].stamp) ==> ps[i].node in m'.armed)
    {
      var q := ps[i].node;
      if q != p { assert NodeCalm(m, m', q); }
    }
  }

  lemma FireKept(m: Mem, m': Mem, p: nat, q: nat, qc: Pc)
    requires Calm(m, m', p) && StampsInv(m.words, m.next, m.owner) && m.armed <= m.joined && q != p && IsFire(qc)
             && ThreadInv(m, q, qc)
    ensures ThreadInv(m', q, qc)
  {
    CalmPoint(m, m', p);
    FirePoint(m, q, qc);
    PicksKept(m, m', p, qc.f.picks);
    assert NodeCalm(m, m', q);
    if qc.FCas? && qc.f.picks[0].node != p { assert NodeCalm(m, m', qc.f.picks[0].node); }
  }

  lemma MintKept(m: Mem, m': Mem, p: nat, q: nat, s: nat)
    requires Calm(m, m', p) && |m'.words| == |m.words| && q != p && s < m.next && m.lock == Some(q) && s !in m.owner
    ensures forall x :: 0 <= x < |m.words| && x != q && m.words[x].stamp != s ==> m'.words[x].stamp != s
    ensures s !in m'.owner && m'.lock == m.lock && m'.queue == m.queue
  {
    CalmPoint(m, m', p);
    forall x | 0 <= x < |m.words| && x != q && m.words[x].stamp != s ensures m'.words[x].stamp != s {
      if x != p { assert NodeCalm(m, m', x); }
    }
  }

  lemma RegKept(m: Mem, m': Mem, p: nat, q: nat, qc: Pc)
    requires Calm(m, m', p) && m.armed <= m.joined && q != p && IsReg(qc) && ThreadInv(m, q, qc)
    ensures ThreadInv(m', q, qc)
  {
    CalmPoint(m, m', p);
    RegPoint(m, q, qc);
    assert NodeCalm(m, m', q);
    if qc.RSeqLoad? || qc.RSeqStore? || qc.RFlag? || qc.RPush? { MintKept(m, m', p, q, qc.s); }
  }

  lemma WaitKept(m: Mem, m': Mem, p: nat, q: nat, qc: Pc)
    requires Calm(m, m', p) && m.armed <= m.joined && q != p && IsWait(qc) && ThreadInv(m, q, qc)
    ensures ThreadInv(m', q, qc)
  {
    CalmPoint(m, m', p);
    WaitPoint(m, q, qc);
    assert NodeCalm(m, m', q);
    if qc.RPark? || qc.RReload? || qc.RAbandon? || qc.RAbandonCas? { PassedKept(m, m', p, q); }
    WaitIs(m', q, qc);
  }

  lemma CloseKept(m: Mem, m': Mem, p: nat, q: nat, qc: Pc)
    requires Calm(m, m', p) && m.armed <= m.joined && q != p && IsClose(qc) && ThreadInv(m, q, qc)
    ensures ThreadInv(m', q, qc)
  {
    CalmPoint(m, m', p);
    ClosePoint(m, q, qc);
    assert NodeCalm(m, m', q);
    CloseIs(m', q, qc);
  }

  lemma RestKept(m: Mem, m': Mem, p: nat, q: nat, qc: Pc)
    requires Calm(m, m', p) && m.armed <= m.joined && q != p && (IsAfter(qc) || IsClear(qc) || qc == Idle)
    requires ThreadInv(m, q, qc)
    ensures ThreadInv(m', q, qc)
  {
    CalmPoint(m, m', p);
    ThreadSizes(m, q, qc);
    assert NodeCalm(m, m', q);
    if IsAfter(qc) {
      AfterPoint(m, q, qc);
      AfterIs(m', q, qc);
    } else if IsClear(qc) {
      ClearPoint(m, q, qc);
      ClearIs(m', q, qc);
    } else {
      ThreadPoint(m, q, qc);
      IdleIs(m', q);
    }
  }

  lemma CalmKept(m: Mem, m': Mem, p: nat)
    requires MemInv(m) && Calm(m, m', p)
    ensures Kept(m, m', p)
  {
    MemPoint(m);
    forall q: nat, qc | q != p && ThreadInv(m, q, qc) ensures ThreadInv(m', q, qc) {
      if IsFire(qc) { FireKept(m, m', p, q, qc); }
      else if IsReg(qc) { RegKept(m, m', p, q, qc); }
      else if IsWait(qc) { WaitKept(m, m', p, q, qc); }
      else if IsClose(qc) { CloseKept(m, m', p, q, qc); }
      else { RestKept(m, m', p, q, qc); }
    }
  }
}
