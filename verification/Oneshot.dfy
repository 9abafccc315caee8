/**
 The oneshot hand-off: one flag byte, one value cell and one waker cell shared by a
 sender (which sends once, or is dropped) and a receiver (which may try, poll, block,
 time out or be dropped). One action is one atomic access, or one access to a cell.
 */
module Oneshot {
  import opened Basics

  type Value = int

  /** Identity of a waker: a parked thread, or the waker of one task. */
  type WakerId = nat

  /** The state byte: LOCK_FLAG, WAKER_SET_FLAG, CLOSE_FLAG, EXIST_FLAG. */
  datatype Word = Word(lock: bool, armed: bool, close: bool, exist: bool)

  const ZERO := Word(false, false, false, false)
  const WAKER_SET := Word(false, true, false, false)
  const CLOSED := Word(false, false, true, false)

  datatype Tx =
    | TIdle
    | TNotify(has: bool, seen: Word)   // inside `_notify_rx`, about to CAS from `seen`
    | TWake(has: bool)                // owns LOCK|SET, about to read the waker cell
    | TClose(has: bool)               // woke the receiver, about to CAS LOCK|SET to LOCK|CLOSE
    | TFree                           // the other side closed first: drops the box
    | TDone
    | TPanic                          // panic!, unreachable! or a failed debug assertion

  datatype Rx =
    | RIdle
    | RReadSlot(w: WakerId)                  // poll saw SET, about to compare wakers
    | RCancel(w: WakerId)                    // about to CAS SET to 0
    | RReplace(w: WakerId, blocking: bool)   // about to write the waker cell
    | RSetCas(w: WakerId, blocking: bool)    // about to CAS 0 to SET
    | RSpin(w: WakerId)                      // blocking receive before registration
    | RLoop(w: WakerId)                      // registered, about to load the word
    | RPark(w: WakerId)
    | RTimeout                               // deadline passed, about to CAS SET to CLOSE
    | RConsume(st: Word)
    | RClosing(st: Word, item: Option<Value>)
    | RFree(item: Option<Value>)
    | RDropFree
    | RGone
    | RPanic

  datatype State = State(
    word: Word,
    cell: Option<Value>,
    slot: Option<WakerId>,
    tx: Tx,
    rx: Rx,
    woken: set<WakerId>,       // unconsumed park tokens / task wakes
    freed: nat,                // how many times the box was dropped
    sent: Option<Value>,       // what `send` was called with, if it was
    delivered: seq<Value>,     // values handed to the receiver's caller
    dropped: seq<Value>,       // values dropped with the box
    pending: Option<WakerId>)  // the waker of the last poll, if it returned Pending

  datatype Action =
    | TxSend(v: Value) | TxDrop | TxCas(spurious: bool) | TxWake | TxClose | TxFree
    | RxTry | RxPoll(w: WakerId) | RxReadSlot | RxCancel | RxReplace | RxSetCas
    | RxBlock(w: WakerId) | RxSpin(register: bool) | RxLoop(expired: bool) | RxPark | RxTimeout
    | RxConsume | RxClosing | RxFree | RxDrop | RxDropFree

  const INITIAL := State(ZERO, None, None, TIdle, RIdle, {}, 0, None, [], [], None)

  predicate Enabled(s: State, a: Action) {
    match a
    case TxSend(_) => s.tx == TIdle
    case TxDrop => s.tx == TIdle
    case TxCas(_) => s.tx.TNotify?
    case TxWake => s.tx.TWake?
    case TxClose => s.tx.TClose?
    case TxFree => s.tx == TFree
    case RxTry => s.rx == RIdle
    case RxPoll(_) => s.rx == RIdle
    case RxReadSlot => s.rx.RReadSlot?
    case RxCancel => s.rx.RCancel?
    case RxReplace => s.rx.RReplace?
    case RxSetCas => s.rx.RSetCas?
    case RxBlock(_) => s.rx == RIdle
    case RxSpin(_) => s.rx.RSpin?
    case RxLoop(_) => s.rx.RLoop?
    case RxPark => s.rx.RPark?   // parking may also return spuriously
    case RxTimeout => s.rx == RTimeout
    case RxConsume => s.rx.RConsume?
    case RxClosing => s.rx.RClosing?
    case RxFree => s.rx.RFree?
    case RxDrop => s.rx == RIdle
    case RxDropFree => s.rx == RDropFree
  }

  function ToSeq(o: Option<Value>): seq<Value> {
    if o.Some? then [o.value] else []
  }

  /** Dropping the box drops whatever the value cell still holds. */
  function DropBox(s: State): State {
    s.(freed := s.freed + 1, dropped := s.dropped + ToSeq(s.cell), cell := None)
  }

  /** One iteration of the CAS loop of `_notify_rx`. */
  function NotifyCas(s: State, spurious: bool): State
    requires s.tx.TNotify?
  {
    var has, seen := s.tx.has, s.tx.seen;
    if seen == ZERO then
      if s.word == seen && !spurious then
        s.(word := Word(true, false, true, has), tx := TDone)
      else
        s.(tx := TNotify(has, s.word))
    else if seen == WAKER_SET then
      if s.word == seen && !spurious then
        s.(word := Word(true, true, false, has), tx := TWake(has))
      else
        s.(tx := TNotify(has, s.word))
    else if seen.close then
      s.(tx := TFree)
    else
      s.(tx := TPanic)
  }

  function Apply(s: State, a: Action): State
    requires Enabled(s, a)
  {
    match a
    case TxSend(v) => s.(cell := Some(v), sent := Some(v), tx := TNotify(true, ZERO))
    case TxDrop => s.(tx := TNotify(false, ZERO))
    case TxCas(spurious) => NotifyCas(s, spurious)
    case TxWake =>
      if s.slot.Some? then s.(woken := s.woken + {s.slot.value}, tx := TClose(s.tx.has))
      else s.(tx := TPanic)
    case TxClose =>
      if s.word == Word(true, true, false, s.tx.has) then
        s.(word := Word(true, false, true, s.tx.has), tx := TDone)
      else if s.word.close then s.(tx := TFree)
      else s.(tx := TPanic)
    case TxFree => DropBox(s).(tx := TDone)
    case RxTry => if s.word.lock then s.(rx := RConsume(s.word)) else s
    case RxPoll(w) =>
      // polling consumes any earlier wake of that task
      var s := s.(woken := s.woken - {w}, pending := None);
      if s.word.lock then s.(rx := RConsume(s.word))
      else if s.word.armed then s.(rx := RReadSlot(w))
      else s.(rx := RReplace(w, false))
    case RxReadSlot =>
      if s.slot.None? then s.(rx := RPanic)
      else if s.slot.value == s.rx.w then s.(rx := RIdle, pending := Some(s.rx.w))
      else s.(rx := RCancel(s.rx.w))
    case RxCancel =>
      if s.word == WAKER_SET then s.(word := ZERO, rx := RReplace(s.rx.w, false))
      else s.(rx := RConsume(s.word))
    case RxReplace => s.(slot := Some(s.rx.w), rx := RSetCas(s.rx.w, s.rx.blocking))
    case RxSetCas =>
      if s.word == ZERO then
        if s.rx.blocking then s.(word := WAKER_SET, rx := RLoop(s.rx.w))
        else s.(word := WAKER_SET, rx := RIdle, pending := Some(s.rx.w))
      else s.(rx := RConsume(s.word))
    case RxBlock(w) => s.(rx := RSpin(w))
    case RxSpin(register) =>
      if s.word.lock then s.(rx := RConsume(s.word))
      else if register then s.(rx := RReplace(s.rx.w, true))
      else s
    case RxLoop(expired) =>
      if s.word.lock then s.(rx := RConsume(s.word))
      else if expired then s.(rx := RTimeout)
      else s.(rx := RPark(s.rx.w))
    case RxPark => s.(woken := s.woken - {s.rx.w}, rx := RLoop(s.rx.w))
    case RxTimeout =>
      if s.word == WAKER_SET then s.(word := CLOSED, rx := RGone)
      else s.(rx := RConsume(s.word))
    case RxConsume =>
      if !s.rx.st.lock then s.(rx := RPanic)
      else if s.rx.st.exist then s.(cell := None, rx := RClosing(s.rx.st, s.cell))
      else s.(rx := RClosing(s.rx.st, None))
    case RxClosing =>
      if s.rx.st.close then s.(rx := RFree(s.rx.item))
      else if s.word == s.rx.st then
        s.(word := s.word.(close := true), rx := RGone, delivered := s.delivered + ToSeq(s.rx.item))
      else s.(rx := RClosing(s.word, s.rx.item))
    case RxFree => DropBox(s).(rx := RGone, delivered := s.delivered + ToSeq(s.rx.item))
    case RxDrop =>
      var t := s.(word := s.word.(close := true));
      if s.word.close then
        if s.word.lock && !s.word.armed then t.(rx := RDropFree) else t.(rx := RPanic)
      else if s.word == ZERO || s.word == WAKER_SET || (s.word.lock && s.word.armed) then t.(rx := RGone)
      else t.(rx := RPanic)
    case RxDropFree => DropBox(s).(rx := RGone)
  }

  /** The caller's discipline: a blocking receive is not started while an earlier poll is
      still registered with a sender that has not acted (see BlockingReceiveSafeIff). */
  predicate Disciplined(s: State, a: Action) {
    a.RxBlock? ==> !(s.word.armed && !s.word.lock)
  }

  ghost predicate Next(s: State, t: State) {
    exists a :: Enabled(s, a) && Disciplined(s, a) && t == Apply(s, a)
  }

  ghost predicate Run(r: seq<State>) {
    && |r| > 0 && r[0] == INITIAL
    && forall i :: 0 <= i < |r| - 1 ==> Next(r[i], r[i + 1])
  }

  // ---------- the inductive invariant ----------

  predicate Registered(rx: Rx) {
    rx.RReadSlot? || rx.RCancel? || rx.RLoop? || rx.RPark? || rx.RTimeout?
  }

  predicate Unregistered(rx: Rx) {
    rx.RReplace? || rx.RSetCas? || rx.RSpin?
  }

  /** What the word may be, by how far the sender got. */
  predicate WordInv(s: State) {
    match s.tx
    case TIdle => SenderPending(s)
    case TNotify(has, seen) =>
      SenderPending(s) && has == s.sent.Some? && !seen.lock && !seen.exist && (seen.close ==> s.word.close)
    case TWake(has) => SenderWaking(s, has)
    case TClose(has) => SenderWaking(s, has)
    case TFree => s.rx == RGone && s.word.close && s.freed == 0
    case TDone =>
      if s.freed > 0 then s.freed == 1 && s.rx == RGone
      else s.word == Word(true, false, true, s.sent.Some?) && s.rx != RGone
    case TPanic => false
  }

  predicate SenderPending(s: State) {
    && s.freed == 0 && !s.word.lock && !s.word.exist
    && (s.word.close <==> s.rx == RGone)
    && (s.rx == RIdle || s.rx == RGone || Registered(s.rx) || Unregistered(s.rx))
    && (Registered(s.rx) ==> s.word.armed)
    && (Unregistered(s.rx) ==> !s.word.armed)
    && (s.word.armed ==> s.slot.Some?)
  }

  predicate SenderWaking(s: State, has: bool) {
    && s.freed == 0 && has == s.sent.Some?
    && s.word == Word(true, true, s.rx == RGone, has)
    && (s.rx == RIdle || s.rx == RGone || Registered(s.rx) || s.rx.RSpin? || s.rx.RConsume? || s.rx.RClosing?)
    && s.slot.Some?
  }

  predicate RxInv(s: State) {
    match s.rx
    case RConsume(st) => LockedSnapshot(s, st)
    case RClosing(st, _) => LockedSnapshot(s, st)
    case RFree(_) => s.tx == TDone
    case RDropFree => s.tx == TDone
    case RIdle => s.pending.Some? ==> AwaitsWake(s, s.pending.value)
    case RReadSlot(_) => s.slot.Some? && AwaitsWake(s, s.slot.value)
    case RSetCas(w, _) => s.slot == Some(w)
    case RLoop(w) => s.slot == Some(w)
    case RPark(w) =>
      s.slot == Some(w) && (w in s.woken || s.tx.TWake? || !s.word.lock)
    case RPanic => false
    case _ => true
  }

  /** The waker in the cell has been woken, is about to be, or is there for a sender yet to act. */
  predicate AwaitsWake(s: State, w: WakerId) {
    s.slot == Some(w) && (w in s.woken || s.tx.TWake? || (s.word.armed && !s.word.lock))
  }

  predicate LockedSnapshot(s: State, st: Word) {
    && st.lock && st.exist == s.sent.Some?
    && (if st.close then s.tx == TDone && st == s.word else st.armed)
  }

  predicate ValueInv(s: State) {
    && (s.tx == TIdle ==> s.sent == None)
    && match s.rx
       case RClosing(_, item) => item == s.sent && s.cell == None && s.delivered == [] && s.dropped == []
       case RFree(item) => item == s.sent && s.cell == None && s.delivered == [] && s.dropped == []
       case RGone =>
         if s.cell.Some? then s.cell == s.sent && s.delivered == [] && s.dropped == [] && s.freed == 0
         else s.delivered + s.dropped == ToSeq(s.sent) || (s.sent == None && s.delivered == [] && s.dropped == [])
       case _ => s.cell == s.sent && s.delivered == [] && s.dropped == []
  }

  predicate Facts(s: State) {
    WordInv(s) && RxInv(s) && ValueInv(s)
  }

  // The invariant quantifies over these facts, so that they come into a proof only where Point is
  // called.

  ghost predicate Inv(s: State) {
    forall x :: x == s ==> Facts(x)
  }

  lemma Point(s: State)
    requires Inv(s)
    ensures Facts(s)
  {
  }

  // One lemma per group of actions keeps each proof small.

  lemma SendKeeps(s: State, a: Action)
    requires Inv(s) && Enabled(s, a)
    requires a.TxSend? || a.TxDrop?
    ensures Inv(Apply(s, a))
  {
    Point(s);
  }

  lemma NotifyWinsKeeps(s: State)
    requires Inv(s) && s.tx.TNotify? && s.word == s.tx.seen
    ensures Inv(NotifyCas(s, false))
  {
    Point(s);
  }

  lemma NotifyLosesKeeps(s: State, spurious: bool)
    requires Inv(s) && s.tx.TNotify? && (spurious || s.word != s.tx.seen)
    ensures Inv(NotifyCas(s, spurious))
  {
    Point(s);
  }

  lemma HandOffKeeps(s: State, a: Action)
    requires Inv(s) && Enabled(s, a)
    requires a.TxWake? || a.TxClose? || a.TxFree?
    ensures Inv(Apply(s, a))
  {
    Point(s);
  }

  lemma PollKeeps(s: State, a: Action)
    requires Inv(s) && Enabled(s, a)
    requires a.RxTry? || a.RxPoll? || a.RxReadSlot? || a.RxCancel? || a.RxReplace? || a.RxSetCas?
    ensures Inv(Apply(s, a))
  {
    Point(s);
  }

  lemma BlockKeeps(s: State, a: Action)
    requires Inv(s) && Enabled(s, a) && Disciplined(s, a)
    requires a.RxBlock? || a.RxSpin? || a.RxLoop? || a.RxPark? || a.RxTimeout?
    ensures Inv(Apply(s, a))
  {
    Point(s);
  }

  lemma ConsumeKeeps(s: State, a: Action)
    requires Inv(s) && Enabled(s, a)
    requires a.RxConsume? || a.RxClosing? || a.RxFree?
    ensures Inv(Apply(s, a))
  {
    Point(s);
  }

  lemma DropKeeps(s: State, a: Action)
    requires Inv(s) && Enabled(s, a)
    requires a.RxDrop? || a.RxDropFree?
    ensures Inv(Apply(s, a))
  {
    Point(s);
  }

  lemma InvStep(s: State, a: Action)
    requires Inv(s) && Enabled(s, a) && Disciplined(s, a)
    ensures Inv(Apply(s, a))
  {
    match a
    case TxSend(_) => SendKeeps(s, a);
    case TxDrop => SendKeeps(s, a);
    case TxCas(spurious) =>
      if spurious || s.word != s.tx.seen { NotifyLosesKeeps(s, spurious); } else { NotifyWinsKeeps(s); }
    case TxWake => HandOffKeeps(s, a);
    case TxClose => HandOffKeeps(s, a);
    case TxFree => HandOffKeeps(s, a);
    case RxBlock(_) => BlockKeeps(s, a);
    case RxSpin(_) => BlockKeeps(s, a);
    case RxLoop(_) => BlockKeeps(s, a);
    case RxPark => BlockKeeps(s, a);
    case RxTimeout => BlockKeeps(s, a);
    case RxConsume => ConsumeKeeps(s, a);
    case RxClosing => ConsumeKeeps(s, a);
    case RxFree => ConsumeKeeps(s, a);
    case RxDrop => DropKeeps(s, a);
    case RxDropFree => DropKeeps(s, a);
    case _ => PollKeeps(s, a);
  }

  lemma {:induction false} RunKeepsInv(r: seq<State>, i: nat)
    requires Run(r) && i < |r|
    ensures Inv(r[i])
  {
    if i > 0 {
      RunKeepsInv(r, i - 1);
      assert Next(r[i - 1], r[i]);
      var a :| Enabled(r[i - 1], a) && Disciplined(r[i - 1], a) && r[i] == Apply(r[i - 1], a);
      InvStep(r[i - 1], a);
    }
  }

  // ---------- what every disciplined run guarantees ----------

  /** No panic, no unreachable branch and no failed assertion; the box is freed at most
      once, and once it is freed neither side has a step left, so nothing touches it. */
  lemma NeverPanicsNorUsesFreedBox(r: seq<State>, i: nat)
    requires Run(r) && i < |r|
    ensures r[i].tx != TPanic && r[i].rx != RPanic
    ensures r[i].freed <= 1
    ensures r[i].freed == 1 ==> forall a :: !Enabled(r[i], a)
  {
    RunKeepsInv(r, i);
    Point(r[i]);
  }

  /** A step that is possible as long as one side is not finished. */
  function StepOf(s: State): (a: Action)
    requires s.tx != TPanic && s.rx != RPanic && (s.tx != TDone || s.rx != RGone)
    ensures Enabled(s, a)
  {
    match s.tx
    case TIdle => TxDrop
    case TNotify(_, _) => TxCas(false)
    case TWake(_) => TxWake
    case TClose(_) => TxClose
    case TFree => TxFree
    case TDone =>
      match s.rx
      case RIdle => RxDrop
      case RReadSlot(_) => RxReadSlot
      case RCancel(_) => RxCancel
      case RReplace(_, _) => RxReplace
      case RSetCas(_, _) => RxSetCas
      case RSpin(_) => RxSpin(true)
      case RLoop(_) => RxLoop(false)
      case RPark(_) => RxPark
      case RTimeout => RxTimeout
      case RConsume(_) => RxConsume
      case RClosing(_, _) => RxClosing
      case RFree(_) => RxFree
      case RDropFree => RxDropFree
  }

  /** When neither side has a step left the box was freed exactly once, and the value given
      to `send` was delivered or dropped, exactly once in all. */
  lemma FinishedExactlyOnce(r: seq<State>, i: nat)
    requires Run(r) && i < |r|
    requires forall a :: !Enabled(r[i], a)
    ensures r[i].freed == 1
    ensures r[i].delivered + r[i].dropped == ToSeq(r[i].sent)
  {
    RunKeepsInv(r, i);
    var s := r[i];
    Point(s);
    if s.tx != TDone || s.rx != RGone {
      var a := StepOf(s);
      assert false;
    }
  }

  /** The receiver's caller only ever gets the value that was sent, once. */
  lemma DeliversOnlyWhatWasSent(r: seq<State>, i: nat)
    requires Run(r) && i < |r|
    ensures |r[i].delivered| <= 1
    ensures |r[i].delivered| == 1 ==> r[i].sent == Some(r[i].delivered[0]) && r[i].dropped == []
  {
    RunKeepsInv(r, i);
    var s := r[i];
    Point(s);
    assert |s.delivered| >= 1 ==> (s.delivered + s.dropped)[0] == s.delivered[0];
  }

  /** While the sender reads the waker cell the receiver has no step that writes it, and
      the cell holds a waker. */
  lemma WakerReadIsExclusive(r: seq<State>, i: nat, a: Action)
    requires Run(r) && i < |r| && r[i].tx.TWake? && Enabled(r[i], a)
    ensures r[i].slot.Some?
    ensures Apply(r[i], a).slot == r[i].slot
  {
    RunKeepsInv(r, i);
    Point(r[i]);
  }

  /** A parked receiver without a token is still registered under its own waker with a sender
      that has not acted, or the sender is at its wake and that wake is for this receiver. */
  lemma ParkedReceiverIsWoken(r: seq<State>, i: nat)
    requires Run(r) && i < |r| && r[i].rx.RPark? && r[i].rx.w !in r[i].woken
    ensures r[i].slot == Some(r[i].rx.w)
    ensures r[i].word == WAKER_SET || (r[i].tx.TWake? && r[i].rx.w in Apply(r[i], TxWake).woken)
    ensures r[i].word == WAKER_SET ==> r[i].tx == TIdle || r[i].tx.TNotify?
  {
    RunKeepsInv(r, i);
    Point(r[i]);
  }

  /** A task whose last poll returned Pending is registered under the waker of that poll with a
      sender that has not acted, or the sender is at its wake and that wake is for this waker, or
      it has been woken since. */
  lemma PendingTaskIsWoken(r: seq<State>, i: nat)
    requires Run(r) && i < |r| && r[i].rx == RIdle && r[i].pending.Some? && r[i].pending.value !in r[i].woken
    ensures r[i].slot == r[i].pending
    ensures r[i].word == WAKER_SET || (r[i].tx.TWake? && r[i].pending.value in Apply(r[i], TxWake).woken)
    ensures r[i].word == WAKER_SET ==> r[i].tx == TIdle || r[i].tx.TNotify?
  {
    RunKeepsInv(r, i);
    Point(r[i]);
  }

  /** States reachable with no discipline on the caller. */
  ghost predicate Reaches(s: State, t: State, path: seq<Action>)
    decreases |path|
  {
    if path == [] then s == t
    else Enabled(s, path[0]) && Reaches(Apply(s, path[0]), t, path[1..])
  }

  /** try_recv reports Empty exactly before the sender has acted; and neither a poll nor a blocking
      receive that looks after that waits any longer. */
  lemma EmptyIsEarly(r: seq<State>, i: nat, a: Action)
    requires Run(r) && i < |r| && Enabled(r[i], a) && (a.RxTry? || a.RxPoll? || a.RxSpin? || a.RxLoop?)
    ensures r[i].word.lock <==> Apply(r[i], a).rx.RConsume?
    ensures a.RxTry? ==> (Apply(r[i], a).rx == RIdle <==> !r[i].word.lock)
    ensures !r[i].word.lock ==> r[i].tx == TIdle || r[i].tx.TNotify?
  {
    RunKeepsInv(r, i);
    Point(r[i]);
  }

  /** Steps of the receiver alone lead from s to its end, with exactly what was sent. */
  ghost predicate Receives(s: State) {
    exists t, path: seq<Action> ::
      && Reaches(s, t, path) && (forall i :: 0 <= i < |path| ==> ByReceiver(path[i]))
      && t.rx == RGone && t.delivered == ToSeq(s.sent)
  }

  predicate ByReceiver(a: Action) {
    !a.TxSend? && !a.TxDrop? && !a.TxCas? && !a.TxWake? && !a.TxClose? && !a.TxFree?
  }

  lemma ReceivesLater(s: State, a: Action)
    requires Enabled(s, a) && ByReceiver(a) && Receives(Apply(s, a)) && Apply(s, a).sent == s.sent
    ensures Receives(s)
  {
    var t, path: seq<Action> :|
      && Reaches(Apply(s, a), t, path) && (forall i :: 0 <= i < |path| ==> ByReceiver(path[i]))
      && t.rx == RGone && t.delivered == ToSeq(Apply(s, a).sent);
    assert ([a] + path)[1..] == path;
    assert Reaches(s, t, [a] + path);
  }

  lemma ReceivesNow(s: State)
    requires s.rx == RGone && s.delivered == ToSeq(s.sent)
    ensures Receives(s)
  {
    assert Reaches(s, s, []);
  }

  lemma ReceivesClosing(s: State)
    requires Inv(s) && s.rx.RClosing? && (s.rx.st.close || s.word == s.rx.st)
    ensures Receives(s)
  {
    Point(s);
    var t := Apply(s, RxClosing);
    if s.rx.st.close {
      ReceivesNow(Apply(t, RxFree));
      ReceivesLater(t, RxFree);
    } else {
      ReceivesNow(t);
    }
    ReceivesLater(s, RxClosing);
  }

  lemma ReceivesRetrying(s: State)
    requires Inv(s) && s.rx.RClosing?
    ensures Receives(s)
  {
    if s.rx.st.close || s.word == s.rx.st { ReceivesClosing(s); }
    else {
      InvStep(s, RxClosing);
      ReceivesClosing(Apply(s, RxClosing));
      ReceivesLater(s, RxClosing);
    }
  }

  /** Once the sender has acted, a receiver that looks comes to its end by its own steps, and has
      what was sent. */
  lemma SentIsReceived(r: seq<State>, i: nat)
    requires Run(r) && i < |r| && r[i].rx == RIdle && r[i].word.lock
    ensures Receives(r[i])
  {
    RunKeepsInv(r, i);
    var s := r[i];
    var t := Apply(s, RxTry);
    InvStep(s, RxTry);
    InvStep(t, RxConsume);
    Point(t);
    ReceivesRetrying(Apply(t, RxConsume));
    ReceivesLater(t, RxConsume);
    ReceivesLater(s, RxTry);
  }

  /** The receiver is done when it has got what was sent (or learned that nothing was), when it
      times out on a sender that has not acted, or when it is dropped; nothing else ends it. */
  lemma ReceiveEnds(r: seq<State>, i: nat, a: Action)
    requires Run(r) && i < |r| && Enabled(r[i], a) && r[i].rx != RGone && Apply(r[i], a).rx == RGone
    ensures var delivered := Apply(r[i], a).delivered;
            match a
            case RxClosing => delivered == ToSeq(r[i].sent)
            case RxFree => delivered == ToSeq(r[i].sent)
            case RxTimeout => (r[i].tx == TIdle || r[i].tx.TNotify?) && delivered == []
            case _ => (a == RxDrop || a == RxDropFree) && delivered == []
  {
    RunKeepsInv(r, i);
    Point(r[i]);
  }

  /** Steps of the sender alone lead from s to its end. */
  ghost predicate Sends(s: State) {
    exists t, path: seq<Action> ::
      && Reaches(s, t, path) && (forall i :: 0 <= i < |path| ==> !ByReceiver(path[i])) && t.tx == TDone
  }

  lemma SendsLater(s: State, a: Action)
    requires Enabled(s, a) && !ByReceiver(a) && Sends(Apply(s, a))
    ensures Sends(s)
  {
    var t, path: seq<Action> :|
      && Reaches(Apply(s, a), t, path) && (forall i :: 0 <= i < |path| ==> !ByReceiver(path[i])) && t.tx == TDone;
    assert ([a] + path)[1..] == path;
    assert Reaches(s, t, [a] + path);
  }

  /** An upper bound on the steps left to the sender. */
  function SendLeft(s: State): nat {
    match s.tx
    case TIdle => 7
    case TNotify(_, seen) => if seen == s.word || seen.close then 5 else 6
    case TWake(_) => 3
    case TClose(_) => 2
    case TFree => 1
    case _ => 0
  }

  function SendStep(s: State): (a: Action)
    requires s.tx != TDone && s.tx != TPanic
    ensures Enabled(s, a) && !ByReceiver(a)
  {
    match s.tx
    case TIdle => TxDrop
    case TNotify(_, _) => TxCas(false)
    case TWake(_) => TxWake
    case TClose(_) => TxClose
    case TFree => TxFree
  }

  lemma SendLess(s: State)
    requires Inv(s) && s.tx != TDone
    ensures s.tx != TPanic && SendLeft(Apply(s, SendStep(s))) < SendLeft(s)
  {
    Point(s);
  }

  lemma {:induction false} SendsFrom(s: State)
    requires Inv(s)
    ensures Sends(s)
    decreases SendLeft(s)
  {
    if s.tx == TDone { assert Reaches(s, s, []); }
    else {
      SendLess(s);
      InvStep(s, SendStep(s));
      SendsFrom(Apply(s, SendStep(s)));
      SendsLater(s, SendStep(s));
    }
  }

  /** The sender never waits: wherever the receiver has stopped, its own steps bring it to its end. */
  lemma SenderFinishesAlone(r: seq<State>, i: nat)
    requires Run(r) && i < |r|
    ensures Sends(r[i])
  {
    RunKeepsInv(r, i);
    SendsFrom(r[i]);
  }

  // ---------- the discipline is exactly the right one ----------

  /** Program points of a blocking receive; it never returns to RIdle. */
  predicate InBlockingCall(rx: Rx) {
    match rx
    case RReplace(_, blocking) => blocking
    case RSetCas(_, blocking) => blocking
    case _ =>
      rx.RSpin? || rx.RLoop? || rx.RPark? || rx.RTimeout? || rx.RConsume? || rx.RClosing? || rx.RFree?
      || rx == RGone
  }

  lemma BlockingStep(s: State, a: Action)
    requires Inv(s) && InBlockingCall(s.rx) && Enabled(s, a)
    ensures Inv(Apply(s, a)) && InBlockingCall(Apply(s, a).rx)
  {
    InvStep(s, a);
    Point(Apply(s, a));
  }

  lemma {:induction false} BlockingCallStaysSafe(s: State, t: State, path: seq<Action>)
    requires Inv(s) && InBlockingCall(s.rx) && Reaches(s, t, path)
    ensures t.tx != TPanic && t.rx != RPanic
    decreases |path|
  {
    if path == [] {
      Point(s);
    } else {
      BlockingStep(s, path[0]);
      BlockingCallStaysSafe(Apply(s, path[0]), t, path[1..]);
    }
  }

  /** Some continuation of s runs into a panic. */
  ghost predicate CanFail(s: State) {
    exists t, path :: Reaches(s, t, path) && (t.rx == RPanic || t.tx == TPanic)
  }

  lemma Later(s: State, a: Action)
    requires Enabled(s, a) && CanFail(Apply(s, a))
    ensures CanFail(s)
  {
    var t, path :| Reaches(Apply(s, a), t, path) && (t.rx == RPanic || t.tx == TPanic);
    assert ([a] + path)[1..] == path;
    assert Reaches(s, t, [a] + path);
  }

  lemma RegisteredBlockingCallPanics(s: State, w: WakerId)
    requires s.rx == RSpin(w) && s.word == WAKER_SET
    ensures CanFail(s)
  {
    var s1 := Apply(s, RxSpin(true));
    var s2 := Apply(s1, RxReplace);
    var s3 := Apply(s2, RxSetCas);
    var s4 := Apply(s3, RxConsume);
    assert Reaches(s4, s4, []);
    Later(s3, RxConsume);
    Later(s2, RxSetCas);
    Later(s1, RxReplace);
    Later(s, RxSpin(true));
  }

  /** A blocking receive started where the receiver is idle can run into a panic (the failed
      assertion of `_consume_value`) if and only if an earlier poll is still registered with a
      sender that has not acted. */
  lemma BlockingReceiveSafeIff(r: seq<State>, i: nat, w: WakerId)
    requires Run(r) && i < |r| && r[i].rx == RIdle
    ensures CanFail(Apply(r[i], RxBlock(w))) <==> (r[i].word.armed && !r[i].word.lock)
  {
    RunKeepsInv(r, i);
    Point(r[i]);
    var s := Apply(r[i], RxBlock(w));
    if r[i].word.armed && !r[i].word.lock {
      assert s.word == WAKER_SET;
      RegisteredBlockingCallPanics(s, w);
    } else {
      InvStep(r[i], RxBlock(w));
      forall t, path | Reaches(s, t, path) ensures t.rx != RPanic && t.tx != TPanic {
        BlockingCallStaysSafe(s, t, path);
      }
    }
  }

  /** Polling once, with nothing sent. */
  lemma PolledRun() returns (r: seq<State>)
    ensures Run(r) && |r| == 4 && Enabled(INITIAL, RxPoll(0)) && r[1] == Apply(INITIAL, RxPoll(0))
    ensures r[3].rx == RIdle && r[3].word.armed && !r[3].word.lock
  {
    var s1 := Apply(INITIAL, RxPoll(0));
    var s2 := Apply(s1, RxReplace);
    var s3 := Apply(s2, RxSetCas);
    r := [INITIAL, s1, s2, s3];
    assert Next(INITIAL, s1) by { assert Enabled(INITIAL, RxPoll(0)) && Disciplined(INITIAL, RxPoll(0)); }
    assert Next(s1, s2) by { assert Enabled(s1, RxReplace) && Disciplined(s1, RxReplace); }
    assert Next(s2, s3) by { assert Enabled(s2, RxSetCas) && Disciplined(s2, RxSetCas); }
  }

  /** The failing case is reachable: poll once, then receive blocking. */
  lemma PollThenBlockFails()
    ensures exists r: seq<State> ::
              && Run(r) && |r| == 4 && Enabled(INITIAL, RxPoll(0)) && r[1] == Apply(INITIAL, RxPoll(0))
              && r[3].rx == RIdle && CanFail(Apply(r[3], RxBlock(1)))
  {
    var r := PolledRun();
    BlockingReceiveSafeIff(r, 3, 1);
  }
}
