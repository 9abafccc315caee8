/**
 The wake protocol of a channel's receiving side, step by step: senders push items and fire the
 receivers' registry for them; blocking receivers register, re-check the channel, commit, park,
 time out, and give their wake away when they do; the last sender closes the registry. The node
 of a receiving thread is shared with other channels, whose registries may wake, close or
 unpark it at any time.
 One action of a thread is one atomic access. What is done under the registry lock to the queue
 and to one node word is one action per entry.
 */
module WakeProtocol {
  import opened Basics
  import Waker

  const INIT: nat := Waker.INIT
  const WAITING: nat := Waker.WAITING
  const REUSE: nat := Waker.REUSE
  const WOKEN: nat := Waker.WOKEN
  const CLOSED: nat := Waker.CLOSED

  /** A node's packed word; Waker has the packing. */
  datatype Word = Word(st: nat, stamp: nat)

  /** Nodes are named by their threads. */
  datatype Entry = Entry(node: nat, stamp: nat)

  datatype Pick = Pick(node: nat, committed: bool, stamp: nat)

  /** A fire for n events: those left to hand out, landed on a waiter, and handed back; the nodes
      collected and not yet woken; and whether it has seen a registry without waiters. */
  datatype Fire = Fire(n: nat, remaining: nat, landed: nat, wasted: nat, picks: seq<Pick>, empty: bool)

  datatype Pc =
    | Idle
    // fire_n
    | FFlag(f: Fire) | FLock(f: Fire) | FPop(f: Fire, popped: bool) | FStore(f: Fire, popped: bool) | FUnlock(f: Fire)
    | FLoad(f: Fire) | FCas(f: Fire, w: Word) | FUnpark(f: Fire, q: nat) | FRet(f: Fire)
    // _recv_blocking: before and while registering
    | RTry | RArm(again: bool) | RLock | RMint | RSeqLoad(s: nat) | RSeqStore(s: nat, st: nat)
    | RFlag(s: nat) | RPush(s: nat) | RUnlock | RRecheck
    // waiting
    | RCommit | RCommitCas(w: Word) | RTx(st: nat) | RPark | RReload | RAbandon | RAbandonCas(w: Word)
    // after it
    | RClosed | RTake | RFinal | RDisc | RCancel | RRetire
    // _clear_wakers
    | CFlag(oneshot: bool) | CLock(oneshot: bool) | CStep(oneshot: bool)
    | CStore(oneshot: bool) | CUnlock(oneshot: bool)
    // WeakTx upgrade, and close after the last sender
    | UCas(count: nat)
    | KLock | KPop | KLoad(q: nat) | KCas(q: nat, w: Word) | KUnpark(q: nat) | KStore | KUnlock

  datatype Mem = Mem(
    buf: nat,                    // items in the channel
    cap: nat,
    tx: nat,                     // live senders
    lock: Option<nat>,
    queue: seq<Entry>,
    flag: bool,
    words: seq<Word>,
    tokens: seq<bool>,           // park tokens
    next: nat,                   // the process-wide stamp counter
    // history
    senders: map<nat, nat>,      // sender handles and the threads that have them
    nextHandle: nat,
    credits: seq<nat>,           // events a thread still owes to a waiter, or was woken for
    owner: map<nat, nat>,        // every stamp ever queued, and the node it was for
    joined: set<nat>,            // receivers from queueing their entry to the end of their wait
    armed: set<nat>,             // those of them that have re-checked the channel
    picked: map<nat, nat>,       // nodes taken from the queue to be woken or closed, and by whom
    unparker: map<nat, nat>,     // nodes woken or closed and not yet unparked, and by whom
    closer: Option<nat>)         // the thread that has dropped the last sender and still empties the queue

  datatype State = State(m: Mem, pcs: seq<Pc>)

  datatype Action =
    // the next access; flip: a weak CAS fails, a wait times out, a loop goes on
    | Go(p: nat, flip: bool)
    | Push(p: nat, h: nat, k: nat)                 // send, or the ring write of try_send_batch
    | Recv(p: nat)
    | Clone(p: nat, h: nat, to: nat) | Upgrade(p: nat) | DropTx(p: nat, h: nat)
    | ForeignWake(p: nat) | ForeignClose(p: nat) | ForeignToken(p: nat)
    | Elsewhere(p: nat, st: nat)                   // an idle thread uses its node on another channel

  function Initial(cap: nat, threads: nat, owner: nat): State {
    State(Mem(0, cap, 1, None, [], false, seq(threads, _ => Word(INIT, 0)), seq(threads, _ => false), 1,
              map[0 := owner], 1, seq(threads, _ => 0), map[], {}, {}, map[], map[], None),
          seq(threads, _ => Idle))
  }

  // ---------- fire_n ----------

  function NewFire(n: nat): Fire {
    Fire(n, n, 0, 0, [], false)
  }

  /** After a pick: it got its event, or the event is handed back. */
  function Settle(f: Fire, won: bool): Fire
    requires f.picks != []
  {
    var c := f.picks[0].committed;
    f.(picks := f.picks[1..],
       landed := f.landed + (if c && won then 1 else 0),
       wasted := f.wasted + (if c && !won then 1 else 0))
  }

  /** With no pick left, the events handed back are to be handed out again. */
  function NextPick(f: Fire): Pc {
    if f.picks != [] then FLoad(f)
    else
      var f' := f.(remaining := f.remaining + f.wasted, wasted := 0);
      if f.empty then FRet(f') else FFlag(f')
  }

  /** Taking an entry from the queue: a current one is to be woken, and takes an event if its
      node is waiting. */
  function Collected(f: Fire, e: Entry, w: Word): Fire
    requires f.remaining > 0
  {
    if w.stamp != e.stamp then f
    else
      var c := w.st == WAITING;
      f.(picks := f.picks + [Pick(e.node, c, e.stamp)], remaining := if c then f.remaining - 1 else f.remaining)
  }

  /** `wake` goes for the CAS: the node is not committed, or committed under the stamp. */
  predicate Wakeable(w: Word, stamp: nat) {
    w.st == INIT || (w.st == WAITING && w.stamp == stamp)
  }

  // ---------- the rest ----------

  /** The wait ends once the state is Woken or above. */
  function AfterState(st: nat): Pc {
    if st < WOKEN then RPark else if st == CLOSED then RClosed else RTake
  }

  datatype Verdict = Drop | DropLast | Keep

  /** What _clear_wakers by thread p does with the first entry. */
  function VerdictOn(e: Entry, words: seq<Word>, p: nat, oneshot: bool): Verdict
    requires p < |words| && e.node < |words|
  {
    if e.stamp == words[p].stamp then DropLast
    else if e.stamp > words[p].stamp then Keep
    else if e.node == p then Drop
    else if words[e.node].st < WOKEN then Keep
    else if oneshot then DropLast
    else Drop
  }

  /** After cancelling; oneshot for a receiver that got an item while registered. */
  function AfterClear(oneshot: bool): Pc {
    if oneshot then RRetire else Idle
  }

  // ---------- the actions ----------

  predicate Locking(pc: Pc) {
    pc.FLock? || pc.RLock? || pc.CLock? || pc.KLock?
  }

  predicate Enabled(s: State, a: Action) {
    && a.p < |s.pcs|
    && match a
       case Go(p, _) => s.pcs[p] != Idle && (Locking(s.pcs[p]) ==> s.m.lock == None)
       case Push(p, h, k) =>
         s.pcs[p] == Idle && h in s.m.senders && s.m.senders[h] == p && k >= 1 && s.m.buf + k <= s.m.cap
       case Recv(p) => s.pcs[p] == Idle
       case Clone(p, h, to) => s.pcs[p] == Idle && h in s.m.senders && s.m.senders[h] == p
       case Upgrade(p) => s.pcs[p] == Idle
       case DropTx(p, h) => s.pcs[p] == Idle && h in s.m.senders && s.m.senders[h] == p
       case ForeignWake(_) => true
       case ForeignClose(_) => true
       case ForeignToken(_) => true
       case Elsewhere(p, st) => s.pcs[p] == Idle
  }

  /** Everything is within its bounds; it is in every reachable state (see Inv). */
  predicate Sane(m: Mem, p: nat, pc: Pc) {
    && p < |m.words| == |m.tokens| == |m.credits|
    && (forall i :: 0 <= i < |m.queue| ==> m.queue[i].node < |m.words|)
    && match pc
       case FLoad(f) => f.picks != [] && f.picks[0].node < |m.words|
       case FCas(f, w) => f.picks != [] && f.picks[0].node < |m.words|
       case FUnpark(_, q) => q < |m.words|
       case KLoad(q) => q < |m.words|
       case KCas(q, _) => q < |m.words|
       case KUnpark(q) => q < |m.words|
       case _ => true
  }

  function SetWord(m: Mem, q: nat, w: Word): Mem
    requires q < |m.words|
  {
    m.(words := m.words[q := w])
  }

  function Credit(m: Mem, p: nat, c: nat): Mem
    requires p < |m.credits|
  {
    m.(credits := m.credits[p := c])
  }

  /** One event moves from the firing thread p to the woken one. */
  function Give(m: Mem, p: nat, q: nat): seq<nat>
    requires p < |m.credits| && q < |m.credits|
  {
    var c := m.credits[p := if m.credits[p] > 0 then m.credits[p] - 1 else 0];
    c[q := c[q] + 1]
  }

  /** The wake CAS on pick f.picks[0]. */
  function WakeNode(m: Mem, p: nat, f: Fire, w: Word): Mem
    requires p < |m.credits| && f.picks != [] && f.picks[0].node < |m.words| == |m.credits|
  {
    var k := f.picks[0];
    m.(words := m.words[k.node := w.(st := WOKEN)], unparker := m.unparker[k.node := p],
       picked := m.picked - {k.node},
       credits := if k.committed && w.st == WAITING then
                    (if f.empty then m.credits[k.node := m.credits[k.node] + 1] else Give(m, p, k.node))
                  else m.credits)
  }

  function Less(n: nat): nat {
    if n > 0 then n - 1 else 0
  }

  predicate IsFire(pc: Pc) {
    pc.FFlag? || pc.FLock? || pc.FPop? || pc.FStore? || pc.FUnlock? || pc.FLoad? || pc.FCas? || pc.FUnpark? || pc.FRet?
  }

  predicate IsReg(pc: Pc) {
    || pc.RTry? || pc.RArm? || pc.RLock? || pc.RMint? || pc.RSeqLoad? || pc.RSeqStore? || pc.RFlag? || pc.RPush?
    || pc.RUnlock? || pc.RRecheck?
  }

  predicate IsWait(pc: Pc) {
    pc.RCommit? || pc.RCommitCas? || pc.RTx? || pc.RPark? || pc.RReload? || pc.RAbandon? || pc.RAbandonCas?
  }

  predicate IsAfter(pc: Pc) {
    pc.RClosed? || pc.RTake? || pc.RFinal? || pc.RDisc? || pc.RCancel? || pc.RRetire?
  }

  predicate IsClear(pc: Pc) {
    pc.CFlag? || pc.CLock? || pc.CStep? || pc.CStore? || pc.CUnlock?
  }

  predicate IsClose(pc: Pc) {
    pc.UCas? || pc.KLock? || pc.KPop? || pc.KLoad? || pc.KCas? || pc.KUnpark? || pc.KStore? || pc.KUnlock?
  }

  // fire_n

  function FireMem(m: Mem, p: nat, pc: Pc, flip: bool): (m': Mem)
    requires Sane(m, p, pc) && IsFire(pc)
    ensures m'.closer == m.closer && m'.joined == m.joined
  {
    match pc
    case FFlag(f) => if f.remaining > 0 && !m.flag then Credit(m, p, 0) else m
    case FLock(_) => m.(lock := Some(p))
    case FPop(f, _) =>
      if f.remaining == 0 then m
      else if m.queue == [] then Credit(m, p, 0)
      else
        var e := m.queue[0];
        m.(queue := m.queue[1..],
           picked := if m.words[e.node].stamp == e.stamp then m.picked[e.node := p] else m.picked)
    case FStore(_, popped) => if popped && m.queue == [] then m.(flag := false) else m
    case FUnlock(_) => m.(lock := None)
    case FCas(f, w) =>
      if m.words[f.picks[0].node] == w && !(flip && w.st == INIT) then WakeNode(m, p, f, w) else m
    case FUnpark(_, q) => m.(tokens := m.tokens[q := true], unparker := m.unparker - {q})
    case _ => m
  }

  function FirePc(m: Mem, p: nat, pc: Pc, flip: bool): Pc
    requires Sane(m, p, pc) && IsFire(pc)
  {
    match pc
    case FFlag(f) =>
      if f.remaining == 0 then FRet(f) else if !m.flag then FRet(f.(empty := true)) else FLock(f)
    case FLock(f) => FPop(f, false)
    case FPop(f, popped) =>
      if f.remaining == 0 then FStore(f, popped)
      else if m.queue == [] then FStore(f.(empty := true), popped)
      else FPop(Collected(f, m.queue[0], m.words[m.queue[0].node]), true)
    case FStore(f, _) => FUnlock(f)
    case FUnlock(f) => NextPick(f)
    case FLoad(f) =>
      var w := m.words[f.picks[0].node];
      if Wakeable(w, f.picks[0].stamp) then FCas(f, w) else NextPick(Settle(f, false))
    case FCas(f, w) =>
      var cur := m.words[f.picks[0].node];
      if cur == w && !(flip && w.st == INIT) then FUnpark(Settle(f, w.st == WAITING), f.picks[0].node)
      else if w.st == WAITING then NextPick(Settle(f, false))
      else FLoad(f)
    case FUnpark(f, _) => NextPick(f)
    case FRet(_) => Idle
  }

  /** The wait of p is over. */
  function Disarm(m: Mem, p: nat): Mem {
    m.(armed := m.armed - {p}, joined := m.joined - {p})
  }

  // registering

  function RegMem(m: Mem, p: nat, pc: Pc): (m': Mem)
    requires Sane(m, p, pc) && IsReg(pc)
    ensures m'.picked == m.picked && m'.unparker == m.unparker && m'.closer == m.closer
    ensures !pc.RPush? ==> m'.queue == m.queue && m'.joined <= m.joined
    ensures !pc.RPush? && !pc.RRecheck? ==> m'.joined == m.joined
  {
    match pc
    case RTry => m.(buf := Less(m.buf))
    case RArm(again) =>
      if again then SetWord(m, p, m.words[p].(st := INIT)) else SetWord(m, p, Word(INIT, m.next)).(next := m.next + 1)
    case RLock => m.(lock := Some(p))
    case RMint => m.(next := m.next + 1)
    case RSeqStore(s, st) => SetWord(m, p, Word(st, s))
    case RFlag(_) => if m.queue == [] then m.(flag := true) else m
    case RPush(s) => m.(queue := m.queue + [Entry(p, s)], owner := m.owner[s := p], joined := m.joined + {p})
    case RUnlock => m.(lock := None)
    case RRecheck => if m.buf > 0 then Disarm(m, p).(buf := m.buf - 1) else m.(armed := m.armed + {p})
    case _ => m
  }

  function RegPc(m: Mem, p: nat, pc: Pc, flip: bool): Pc
    requires Sane(m, p, pc) && IsReg(pc)
  {
    match pc
    case RTry => if m.buf > 0 then Idle else if flip then RTry else RArm(false)
    case RArm(_) => RLock
    case RLock => RMint
    case RMint => RSeqLoad(m.next)
    case RSeqLoad(s) => RSeqStore(s, m.words[p].st)
    case RSeqStore(s, _) => RFlag(s)
    case RFlag(s) => RPush(s)
    case RPush(_) => RUnlock
    case RUnlock => RRecheck
    case RRecheck => if m.buf > 0 then RCancel else RCommit
  }

  // waiting

  function WaitMem(m: Mem, p: nat, pc: Pc, flip: bool): (m': Mem)
    requires Sane(m, p, pc) && IsWait(pc)
    ensures m'.queue == m.queue && m'.picked == m.picked && m'.unparker == m.unparker && m'.closer == m.closer
    ensures m'.joined <= m.joined
  {
    match pc
    case RCommit => m
    case RCommitCas(w) => if m.words[p] == w then SetWord(m, p, w.(st := WAITING)) else m
    case RTx(st) => if m.tx == 0 || st >= WOKEN then Disarm(m, p) else m
    case RPark => if flip then m else m.(tokens := m.tokens[p := false])
    case RReload => if m.words[p].st >= WOKEN then Disarm(m, p) else m
    case RAbandon =>
      if m.words[p].st <= WAITING then m
      else if m.words[p].st == WOKEN then Disarm(Credit(m, p, 1), p)
      else Disarm(m, p)
    case RAbandonCas(w) => if m.words[p] == w && !flip then Disarm(SetWord(m, p, w.(st := CLOSED)), p) else m
  }

  function WaitPc(m: Mem, p: nat, pc: Pc, flip: bool): Pc
    requires Sane(m, p, pc) && IsWait(pc)
  {
    match pc
    case RCommit => if m.words[p].st == INIT then RCommitCas(m.words[p]) else RTx(m.words[p].st)
    case RCommitCas(w) => RTx(if m.words[p] == w then WAITING else m.words[p].st)
    case RTx(st) => if m.tx == 0 then RFinal else AfterState(st)
    case RPark => if flip then RAbandon else RReload
    case RReload => AfterState(m.words[p].st)
    case RAbandon =>
      if m.words[p].st <= WAITING then RAbandonCas(m.words[p])
      else if m.words[p].st == WOKEN then FFlag(NewFire(1))
      else Idle
    case RAbandonCas(w) => if m.words[p] == w && !flip then CFlag(false) else RAbandon
  }

  // after the wait

  function AfterMem(m: Mem, p: nat, pc: Pc): (m': Mem)
    requires Sane(m, p, pc) && IsAfter(pc)
    ensures m'.queue == m.queue && m'.picked == m.picked && m'.unparker == m.unparker && m'.closer == m.closer
    ensures m'.joined == m.joined
  {
    match pc
    case RTake => Credit(m, p, 0).(buf := Less(m.buf))
    case RFinal => Credit(m, p, 0).(buf := Less(m.buf))
    case RRetire => SetWord(m, p, m.words[p].(st := REUSE))
    case _ => m
  }

  function AfterPc(m: Mem, p: nat, pc: Pc, flip: bool): Pc
    requires Sane(m, p, pc) && IsAfter(pc)
  {
    match pc
    case RClosed => if m.tx == 0 then RFinal else RArm(true)
    case RTake => if m.buf > 0 then Idle else if flip then RTake else RArm(true)
    case RFinal => if m.buf > 0 then Idle else RDisc
    case RDisc => Idle
    case RCancel => if m.words[p].st >= WOKEN || m.words[p].st == REUSE then Idle else CFlag(true)
    case RRetire => Idle
  }

  // _clear_wakers

  function ClearMem(m: Mem, p: nat, pc: Pc): (m': Mem)
    requires Sane(m, p, pc) && IsClear(pc)
    ensures m'.picked == m.picked && m'.unparker == m.unparker && m'.closer == m.closer && m'.joined == m.joined
  {
    match pc
    case CLock(_) => m.(lock := Some(p))
    case CStep(oneshot) =>
      if m.queue == [] || VerdictOn(m.queue[0], m.words, p, oneshot) == Keep then m else m.(queue := m.queue[1..])
    case CStore(_) => if m.queue == [] then m.(flag := false) else m
    case CUnlock(_) => m.(lock := None)
    case _ => m
  }

  function ClearPc(m: Mem, p: nat, pc: Pc): Pc
    requires Sane(m, p, pc) && IsClear(pc)
  {
    match pc
    case CFlag(oneshot) => if m.flag then CLock(oneshot) else AfterClear(oneshot)
    case CLock(oneshot) => CStep(oneshot)
    case CStep(oneshot) =>
      if m.queue == [] || VerdictOn(m.queue[0], m.words, p, oneshot) != Drop then CStore(oneshot) else CStep(oneshot)
    case CStore(oneshot) => CUnlock(oneshot)
    case CUnlock(oneshot) => AfterClear(oneshot)
  }

  // WeakTx upgrade and close

  function CloseMem(m: Mem, p: nat, pc: Pc, flip: bool): Mem
    requires Sane(m, p, pc) && IsClose(pc)
  {
    match pc
    case UCas(count) => if m.tx == count then AddSender(m, p) else m
    case KLock => m.(lock := Some(p))
    case KPop =>
      if m.queue == [] then m.(closer := None)
      else
        var e := m.queue[0];
        m.(queue := m.queue[1..],
           picked := if m.words[e.node].stamp == e.stamp then m.picked[e.node := p] else m.picked)
    case KLoad(q) => if m.words[q].st > WAITING then m.(picked := m.picked - {q}) else m
    case KCas(q, w) =>
      if m.words[q] == w && !flip then
        SetWord(m, q, w.(st := CLOSED)).(unparker := m.unparker[q := p], picked := m.picked - {q})
      else m
    case KUnpark(q) => m.(tokens := m.tokens[q := true], unparker := m.unparker - {q})
    case KStore => m.(flag := false)
    case KUnlock => m.(lock := None)
  }

  function ClosePc(m: Mem, p: nat, pc: Pc, flip: bool): Pc
    requires Sane(m, p, pc) && IsClose(pc)
  {
    match pc
    case UCas(count) => if m.tx == count || m.tx == 0 then Idle else UCas(m.tx)
    case KLock => KPop
    case KPop =>
      if m.queue == [] then KStore
      else if m.words[m.queue[0].node].stamp == m.queue[0].stamp then KLoad(m.queue[0].node)
      else KPop
    case KLoad(q) => if m.words[q].st > WAITING then KPop else KCas(q, m.words[q])
    case KCas(q, w) => if m.words[q] == w && !flip then KUnpark(q) else KLoad(q)
    case KUnpark(_) => KPop
    case KStore => KUnlock
    case KUnlock => Idle
  }

  function AddSender(m: Mem, to: nat): Mem {
    m.(tx := m.tx + 1, senders := m.senders[m.nextHandle := to], nextHandle := m.nextHandle + 1)
  }

  function DropSender(m: Mem, p: nat, h: nat): Mem
    requires m.tx > 0
  {
    m.(tx := m.tx - 1, senders := m.senders - {h}, closer := if m.tx == 1 then Some(p) else m.closer)
  }

  /** What another channel's registry does to a node. */
  function Meddle(m: Mem, q: nat, w: Word): Mem
    requires q < |m.words| && q < |m.tokens|
  {
    m.(words := m.words[q := w], tokens := m.tokens[q := true])
  }

  function GoMem(m: Mem, p: nat, pc: Pc, flip: bool): Mem
    requires Sane(m, p, pc)
  {
    if IsFire(pc) then FireMem(m, p, pc, flip)
    else if IsReg(pc) then RegMem(m, p, pc)
    else if IsWait(pc) then WaitMem(m, p, pc, flip)
    else if IsAfter(pc) then AfterMem(m, p, pc)
    else if IsClear(pc) then ClearMem(m, p, pc)
    else if IsClose(pc) then CloseMem(m, p, pc, flip)
    else m
  }

  function GoPc(m: Mem, p: nat, pc: Pc, flip: bool): Pc
    requires Sane(m, p, pc)
  {
    if IsFire(pc) then FirePc(m, p, pc, flip)
    else if IsReg(pc) then RegPc(m, p, pc, flip)
    else if IsWait(pc) then WaitPc(m, p, pc, flip)
    else if IsAfter(pc) then AfterPc(m, p, pc, flip)
    else if IsClear(pc) then ClearPc(m, p, pc)
    else if IsClose(pc) then ClosePc(m, p, pc, flip)
    else Idle
  }

  function MemAfter(s: State, a: Action): Mem
    requires Enabled(s, a) && Sane(s.m, a.p, s.pcs[a.p])
  {
    var m := s.m;
    match a
    case Go(p, flip) => GoMem(m, p, s.pcs[p], flip)
    case Push(p, _, k) => Credit(m, p, k).(buf := m.buf + k)
    case Recv(_) => m
    case Clone(_, _, to) => AddSender(m, to)
    case Upgrade(_) => m
    case DropTx(p, h) => if m.tx > 0 then DropSender(m, p, h) else m
    case ForeignWake(q) => if m.words[q].st <= WAITING then Meddle(m, q, m.words[q].(st := WOKEN)) else m
    case ForeignClose(q) => if m.words[q].st <= WAITING then Meddle(m, q, m.words[q].(st := CLOSED)) else m
    case ForeignToken(q) => m.(tokens := m.tokens[q := true])
    case Elsewhere(q, st) => SetWord(m, q, Word(st, m.next)).(next := m.next + 1)
  }

  function PcAfter(s: State, a: Action): Pc
    requires Enabled(s, a) && Sane(s.m, a.p, s.pcs[a.p])
  {
    match a
    case Go(p, flip) => GoPc(s.m, p, s.pcs[p], flip)
    case Push(_, _, k) => FFlag(NewFire(k))
    case Recv(_) => RTry
    case Upgrade(_) => if s.m.tx == 0 then Idle else UCas(s.m.tx)
    case DropTx(_, _) => if s.m.tx <= 1 then KLock else Idle
    case _ => s.pcs[a.p]
  }

  function Apply(s: State, a: Action): State
    requires Enabled(s, a) && Sane(s.m, a.p, s.pcs[a.p])
  {
    State(MemAfter(s, a), s.pcs[a.p := PcAfter(s, a)])
  }

  ghost predicate Step(s: State, t: State) {
    exists a :: Enabled(s, a) && Sane(s.m, a.p, s.pcs[a.p]) && t == Apply(s, a)
  }

  ghost predicate Run(r: seq<State>, cap: nat, owner: nat) {
    && |r| > 0 && r[0] == Initial(cap, |r[0].pcs|, owner)
    && forall i :: 0 <= i < |r| - 1 ==> Step(r[i], r[i + 1])
  }
}
