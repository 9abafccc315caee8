/**
 The wait group: a reference count and two waker flags packed in one word, a waker slot,
 one owner (which may wait, poll, hand out guards and be dropped) and any number of guards
 (which may be cloned and dropped). The last party to leave frees the allocation. One action
 is one atomic access to the word, or one access to the waker slot.
 */
module WaitGroup {
  import opened Basics

  /** Identity of a waker: the waiting thread, or the waker of one task. */
  type WakerId = nat

  /** The state word: WAKER_FLAG_SET, WAKER_FLAG_LOCK and the count. */
  datatype Word = Word(armed: bool, locked: bool, count: nat)

  datatype Pc =
    | Held                            // the guard is alive
    | Done(seen: Word)                // in `done`, last loaded `seen`
    | Recheck(seen: Word)             // `seen` says we are last: about to load again
    | Take                            // locked the waker slot, about to take the waker
    | Unlock(waker: Option<WakerId>)  // about to clear both flags
    | Wake(waker: Option<WakerId>)    // about to wake; no access to the allocation is left
    | Free(counted: bool)             // about to free; `counted`: our count is still in the word
    | Over
    | Underflow                       // the underflow panic of `try_done`

  datatype Guard = Guard(threshold: nat, pc: Pc)

  datatype Owner =
    | Idle
    | Check(w: WakerId)               // blocking wait: about to load the count
    | Load(w: WakerId, skip: bool)    // `try_set_waker`: first load
    | Register(w: WakerId, skip: bool, seen: Word)
    | Replace(w: WakerId)             // no flag set: about to write the slot
    | SetFlag(w: WakerId)             // about to fetch_or SET
    | ReplaceLocked(w: WakerId)       // holds LOCK: about to write the slot
    | SwapFlags(w: WakerId)           // about to turn LOCK into SET
    | Confirm(w: WakerId)             // poll kept its waker: about to load the count again
    | Parked(w: WakerId)              // registered and asleep (or pending)
    | Drop(seen: Word)
    | DropFree
    | Gone
    | Borrow                          // `state - 1` on a zero count

  /** Who holds WAKER_FLAG_LOCK, or unlocked a zero count and so must free. */
  datatype Locker = Nobody | ByGuard(i: nat) | ByOwner | Freeing(i: nat)

  datatype State = State(
    word: Word,
    slot: Option<WakerId>,
    owner: Owner,
    guards: seq<Guard>,
    woken: set<WakerId>,         // unconsumed park tokens / task wakes
    threshold: nat,              // the owner's current threshold
    last: Option<WakerId>,       // waker the current wait or future registered
    freed: nat,                  // how many times the allocation was freed
    locker: Locker,
    missed: bool)                // history: see Misses

  datatype Action =
    | AddGuard | SetThreshold(n: nat)
    | WaitStart(w: WakerId) | CheckCount | LoadWord | RegisterStep(spurious: bool)
    | WriteSlot | OrFlag | WriteSlotLocked | XorFlags
    | PollStart(w: WakerId, renew: bool) | ConfirmCount | Unpark | GiveUp
    | DropLoad | DropStep(spurious: bool) | DropBox
    | Clone(i: nat) | DoneLoad(i: nat) | DoneStep(i: nat, spurious: bool) | RecheckLoad(i: nat)
    | TakeWaker(i: nat) | UnlockWord(i: nat) | WakeWaker(i: nat) | FreeBox(i: nat)

  function Initial(threshold: nat): State {
    State(Word(false, false, 1), None, Idle, [], {}, threshold, None, 0, Nobody, false)
  }

  predicate At(s: State, i: nat) {
    i < |s.guards|
  }

  predicate Enabled(s: State, a: Action) {
    match a
    case AddGuard => s.owner == Idle || s.owner.Parked?   // also while a future is pending
    case SetThreshold(_) => s.owner == Idle
    case WaitStart(_) => s.owner == Idle
    case CheckCount => s.owner.Check?
    case LoadWord => s.owner.Load?
    case RegisterStep(_) => s.owner.Register?
    case WriteSlot => s.owner.Replace?
    case OrFlag => s.owner.SetFlag?
    case WriteSlotLocked => s.owner.ReplaceLocked?
    case XorFlags => s.owner.SwapFlags?
    case PollStart(_, renew) => if renew then s.owner == Idle else s.owner.Parked?
    case ConfirmCount => s.owner.Confirm?
    case Unpark => s.owner.Parked?        // parking may also return spuriously
    case GiveUp => s.owner.Parked?        // timeout, or the future is dropped
    case DropLoad => s.owner == Idle
    case DropStep(_) => s.owner.Drop?
    case DropBox => s.owner == DropFree
    case Clone(i) => At(s, i) && s.guards[i].pc == Held
    case DoneLoad(i) => At(s, i) && s.guards[i].pc == Held
    case DoneStep(i, _) => At(s, i) && s.guards[i].pc.Done?
    case RecheckLoad(i) => At(s, i) && s.guards[i].pc.Recheck?
    case TakeWaker(i) => At(s, i) && s.guards[i].pc == Take
    case UnlockWord(i) => At(s, i) && s.guards[i].pc.Unlock?
    case WakeWaker(i) => At(s, i) && s.guards[i].pc.Wake?
    case FreeBox(i) => At(s, i) && s.guards[i].pc.Free?
  }

  function SetPc(s: State, i: nat, pc: Pc): State
    requires At(s, i)
  {
    s.(guards := s.guards[i := s.guards[i].(pc := pc)])
  }

  /** `is_last`: nobody has the waker lock and ours is the only count left. */
  predicate IsLast(w: Word) {
    !(w.locked && !w.armed) && w.count == 1
  }

  /** `try_done`: one count less, and the lock if that reaches the threshold with a waker set. */
  predicate ShouldLock(w: Word, threshold: nat)
    requires w.count >= 1
  {
    w.count - 1 <= threshold && w.armed && !w.locked
  }

  function TryDone(w: Word, threshold: nat): Word
    requires w.count >= 1
  {
    if ShouldLock(w, threshold) then Word(false, true, w.count - 1) else w.(count := w.count - 1)
  }

  /** This `done` brings the count down to what the owner waits for and leaves the waker that is set:
      its guard was made under a lower threshold. */
  predicate Misses(w: Word, threshold: nat, awaited: nat)
    requires w.count >= 1
  {
    ShouldLock(w, awaited) && !ShouldLock(w, threshold)
  }

  function ApplyDone(s: State, i: nat, spurious: bool): State
    requires At(s, i) && s.guards[i].pc.Done?
  {
    var seen := s.guards[i].pc.seen;
    if IsLast(seen) then SetPc(s, i, Recheck(seen))
    else if seen.count < 1 then SetPc(s, i, Underflow)
    else if s.word != seen || spurious then SetPc(s, i, Done(s.word))
    else if ShouldLock(seen, s.guards[i].threshold) then
      SetPc(s, i, Take).(word := TryDone(seen, s.guards[i].threshold), locker := ByGuard(i))
    else
      SetPc(s, i, Over).(word := TryDone(seen, s.guards[i].threshold),
                         missed := s.missed || Misses(seen, s.guards[i].threshold, s.threshold))
  }

  function ApplyRegister(s: State, spurious: bool): State
    requires s.owner.Register?
  {
    var Register(w, skip, seen) := s.owner;
    if seen.count <= s.threshold then s.(owner := Idle)
    else if seen.locked then s.(owner := Register(w, skip, s.word))
    else if seen.armed then
      if skip then s.(owner := Parked(w))
      else if s.word != seen || spurious then s.(owner := Register(w, skip, s.word))
      else s.(word := Word(false, true, seen.count), owner := ReplaceLocked(w), locker := ByOwner)
    else s.(owner := Replace(w))
  }

  /** The end of `try_set_waker`, given the count it saw when it set the flag. */
  function Registered(s: State, w: WakerId, count: nat): State {
    s.(last := Some(w), owner := if count <= s.threshold then Idle else Parked(w))
  }

  /** One more reference; one that takes the count above the threshold makes up for a miss. */
  function AddOne(s: State, threshold: nat): State {
    s.(word := s.word.(count := s.word.count + 1), guards := s.guards + [Guard(threshold, Held)],
       missed := s.missed && s.word.count + 1 <= s.threshold)
  }

  function Apply(s: State, a: Action): State
    requires Enabled(s, a)
  {
    match a
    case AddGuard => AddOne(s, s.threshold)
    case SetThreshold(n) => s.(threshold := n, missed := false)
    case WaitStart(w) => s.(owner := Check(w), last := None, missed := false)
    case CheckCount =>
      if s.word.count <= s.threshold then s.(owner := Idle) else s.(owner := Load(s.owner.w, s.last.Some?))
    case LoadWord => s.(owner := Register(s.owner.w, s.owner.skip, s.word))
    case RegisterStep(spurious) => ApplyRegister(s, spurious)
    case WriteSlot => s.(slot := Some(s.owner.w), owner := SetFlag(s.owner.w))
    case OrFlag => Registered(s.(word := s.word.(armed := true)), s.owner.w, s.word.count)
    case WriteSlotLocked => s.(slot := Some(s.owner.w), owner := SwapFlags(s.owner.w))
    case XorFlags =>
      Registered(s.(word := s.word.(armed := !s.word.armed, locked := !s.word.locked), locker := Nobody),
                 s.owner.w, s.word.count)
    case PollStart(w, renew) =>
      var s := s.(woken := s.woken - {w}, last := if renew then None else s.last, missed := !renew && s.missed);
      if s.word.count <= s.threshold then s.(owner := Idle)
      else if s.word.armed && s.last == Some(w) then s.(owner := Confirm(w))
      else s.(owner := Load(w, false))
    case ConfirmCount =>
      s.(owner := if s.word.count <= s.threshold then Idle else Parked(s.owner.w))
    case Unpark => s.(woken := s.woken - {s.owner.w}, owner := Check(s.owner.w))
    case GiveUp => s.(owner := Idle)
    case DropLoad => s.(owner := Drop(s.word))
    case DropStep(spurious) =>
      var seen := s.owner.seen;
      if seen.locked || seen.count > 1 then
        if s.word != seen || spurious then s.(owner := Drop(s.word))
        else if seen.count == 0 then s.(owner := Borrow)
        else s.(word := seen.(count := seen.count - 1), owner := Gone)
      else s.(owner := DropFree)
    case DropBox => s.(freed := s.freed + 1, owner := Gone)
    case Clone(i) => AddOne(s, s.guards[i].threshold)
    case DoneLoad(i) => SetPc(s, i, Done(s.word))
    case DoneStep(i, spurious) => ApplyDone(s, i, spurious)
    case RecheckLoad(i) =>
      if s.word == s.guards[i].pc.seen then SetPc(s, i, Free(true)) else SetPc(s, i, Done(s.word))
    case TakeWaker(i) => SetPc(s, i, Unlock(s.slot)).(slot := None)
    case UnlockWord(i) =>
      var s' := s.(word := Word(false, false, s.word.count));
      if s.word.count == 0 then SetPc(s', i, Free(false)).(locker := Freeing(i))
      else SetPc(s', i, Wake(s.guards[i].pc.waker)).(locker := Nobody)
    case WakeWaker(i) =>
      var o := s.guards[i].pc.waker;
      SetPc(s, i, Over).(woken := if o.Some? then s.woken + {o.value} else s.woken)
    case FreeBox(i) => SetPc(s, i, Over).(freed := s.freed + 1)
  }

  ghost predicate Next(s: State, t: State) {
    exists a :: Enabled(s, a) && t == Apply(s, a)
  }

  ghost predicate Run(r: seq<State>) {
    && |r| > 0 && r[0] == Initial(r[0].threshold)
    && forall i :: 0 <= i < |r| - 1 ==> Next(r[i], r[i + 1])
  }

  // ---------- counting ----------

  /** The guard's count is still in the word. */
  predicate Counted(pc: Pc) {
    pc == Held || pc.Done? || pc.Recheck? || (pc.Free? && pc.counted)
  }

  /** The guard will not touch the allocation again. */
  predicate Finished(pc: Pc) {
    pc.Wake? || pc == Over
  }

  function Ones(gs: seq<Guard>): nat {
    if gs == [] then 0 else Ones(gs[..|gs| - 1]) + (if Counted(gs[|gs| - 1].pc) then 1 else 0)
  }

  lemma {:induction false} OnesUpdate(gs: seq<Guard>, i: nat, g: Guard)
    requires i < |gs|
    ensures Ones(gs[i := g]) == Ones(gs) - (if Counted(gs[i].pc) then 1 else 0) + (if Counted(g.pc) then 1 else 0)
  {
    var n := |gs| - 1;
    if i == n {
      assert gs[i := g][..n] == gs[..n];
    } else {
      assert gs[i := g][..n] == gs[..n][i := g];
      OnesUpdate(gs[..n], i, g);
    }
  }

  lemma OnesAppend(gs: seq<Guard>, g: Guard)
    ensures Ones(gs + [g]) == Ones(gs) + (if Counted(g.pc) then 1 else 0)
  {
    assert (gs + [g])[..|gs|] == gs;
  }

  /** A guard that is counted is worth one, and two of them are worth two. */
  lemma {:induction false} OnesAtLeast(gs: seq<Guard>, i: nat, j: nat)
    requires i < |gs| && Counted(gs[i].pc)
    requires j < |gs| && Counted(gs[j].pc)
    ensures Ones(gs) >= if i == j then 1 else 2
  {
    OnesUpdate(gs, i, gs[i].(pc := Over));
    if i != j {
      OnesUpdate(gs[i := gs[i].(pc := Over)], j, gs[j].(pc := Over));
    }
  }

  // ---------- the inductive invariant ----------

  predicate OwnerCounted(o: Owner) {
    o != Gone && o != Borrow
  }

  predicate OwnerLocks(o: Owner) {
    o.ReplaceLocked? || o.SwapFlags?
  }

  predicate GuardInv(locker: Locker, count: nat, i: nat, pc: Pc) {
    match pc
    case Done(seen) => seen.count >= 1
    case Recheck(seen) => IsLast(seen)
    case Take => locker == ByGuard(i)
    case Unlock(_) => locker == ByGuard(i)
    case Free(counted) => locker == (if counted then Nobody else Freeing(i)) && count <= 1
    case Underflow => false
    case _ => true
  }

  ghost predicate GuardsInv(gs: seq<Guard>, locker: Locker, count: nat) {
    forall i :: 0 <= i < |gs| ==> GuardInv(locker, count, i, gs[i].pc)
  }

  /** The owner is about to free, or has decided to on what it loaded. */
  predicate OwnerFrees(o: Owner) {
    o == DropFree || (o.Drop? && !o.seen.locked && o.seen.count <= 1)
  }

  /** The owner found both flags clear; only the owner can set one of them from there. */
  predicate OwnerSawNoFlag(o: Owner) {
    o.Replace? || o.SetFlag? || (o.Register? && !o.seen.armed && !o.seen.locked)
  }

  predicate OwnerInv(o: Owner, word: Word, locker: Locker) {
    && (OwnerLocks(o) <==> locker == ByOwner)
    && (OwnerSawNoFlag(o) ==> !word.armed && !word.locked)
    && (OwnerFrees(o) ==> locker == Nobody && word.count == 1)
    && (o.Drop? ==> o.seen.count >= 1)
    && o != Borrow
  }

  predicate LockInv(word: Word, locker: Locker, gs: seq<Guard>) {
    && (word.locked <==> locker.ByGuard? || locker == ByOwner)
    && !(word.locked && word.armed)
    && (locker.ByGuard? ==> locker.i < |gs| && (gs[locker.i].pc == Take || gs[locker.i].pc.Unlock?))
    && (locker.Freeing? ==> locker.i < |gs| && gs[locker.i].pc == Free(false) && word.count == 0)
    && (locker == Nobody ==> word.count >= 1)
  }

  /** While the allocation lives: the count is what its holders add up to, and some party
      is still bound to free it. */
  ghost predicate LiveFacts(s: State) {
    && LockInv(s.word, s.locker, s.guards) && OwnerInv(s.owner, s.word, s.locker)
    && GuardsInv(s.guards, s.locker, s.word.count)
    && s.word.count == Ones(s.guards) + (if OwnerCounted(s.owner) then 1 else 0)
  }

  // The invariant quantifies over these facts, so that they come into a proof only where LivePoint
  // is called.

  ghost predicate LiveInv(s: State) {
    forall x :: x == s ==> LiveFacts(x)
  }

  lemma LivePoint(s: State)
    requires LiveInv(s)
    ensures LiveFacts(s)
  {
  }

  ghost predicate FreedInv(s: State) {
    s.freed == 1 && s.owner == Gone && forall i :: 0 <= i < |s.guards| ==> Finished(s.guards[i].pc)
  }

  ghost predicate Inv(s: State) {
    if s.freed == 0 then LiveInv(s) else FreedInv(s)
  }

  // ---------- preservation: guards ----------

  predicate Plain(pc: Pc) {
    pc == Held || pc.Done? || pc.Recheck?
  }

  /** A guard moves between points where it is counted; the word does not change. */
  lemma MoveKeeps(s: State, i: nat, pc: Pc)
    requires LiveInv(s) && s.freed == 0 && At(s, i) && Plain(s.guards[i].pc)
    requires Plain(pc) && (pc.Done? ==> pc.seen.count >= 1) && (pc.Recheck? ==> IsLast(pc.seen))
    ensures LiveInv(SetPc(s, i, pc))
  {
    LivePoint(s);
    OnesUpdate(s.guards, i, s.guards[i].(pc := pc));
  }

  /** A guard gives its count back without taking the lock. */
  lemma LeaveKeeps(s: State, i: nat, missed: bool)
    requires LiveInv(s) && s.freed == 0 && At(s, i) && Plain(s.guards[i].pc) && !IsLast(s.word)
    ensures s.word.count >= 1
    ensures LiveInv(SetPc(s, i, Over).(word := s.word.(count := s.word.count - 1), missed := missed))
  {
    LivePoint(s);
    OnesUpdate(s.guards, i, s.guards[i].(pc := Over));
    OnesAtLeast(s.guards, i, i);
    forall j | 0 <= j < |s.guards| && j != i && s.guards[j].pc.Free? ensures !s.guards[j].pc.counted {
      if s.guards[j].pc.counted { OnesAtLeast(s.guards, i, j); }
    }
  }

  /** A guard gives its count back and takes the waker lock. */
  lemma LockKeeps(s: State, i: nat)
    requires LiveInv(s) && s.freed == 0 && At(s, i) && Plain(s.guards[i].pc)
    requires s.word.armed && !s.word.locked && !IsLast(s.word)
    ensures s.word.count >= 1
    ensures LiveInv(SetPc(s, i, Take).(word := Word(false, true, s.word.count - 1), locker := ByGuard(i)))
  {
    LivePoint(s);
    OnesUpdate(s.guards, i, s.guards[i].(pc := Take));
    OnesAtLeast(s.guards, i, i);
  }

  lemma DoneKeeps(s: State, i: nat, spurious: bool)
    requires LiveInv(s) && s.freed == 0 && At(s, i) && s.guards[i].pc.Done?
    ensures LiveInv(ApplyDone(s, i, spurious))
  {
    LivePoint(s);
    var seen := s.guards[i].pc.seen;
    OnesAtLeast(s.guards, i, i);
    if IsLast(seen) { MoveKeeps(s, i, Recheck(seen)); }
    else if s.word != seen || spurious { MoveKeeps(s, i, Done(s.word)); }
    else if ShouldLock(seen, s.guards[i].threshold) { LockKeeps(s, i); }
    else { LeaveKeeps(s, i, ApplyDone(s, i, spurious).missed); }
  }

  lemma DoneLoadKeeps(s: State, i: nat)
    requires LiveInv(s) && s.freed == 0 && At(s, i) && s.guards[i].pc == Held
    ensures LiveInv(SetPc(s, i, Done(s.word)))
  {
    LivePoint(s);
    OnesAtLeast(s.guards, i, i);
    MoveKeeps(s, i, Done(s.word));
  }

  lemma RecheckKeeps(s: State, i: nat)
    requires LiveInv(s) && s.freed == 0 && At(s, i) && s.guards[i].pc.Recheck?
    ensures LiveInv(Apply(s, RecheckLoad(i)))
  {
    LivePoint(s);
    if s.word == s.guards[i].pc.seen {
      OnesUpdate(s.guards, i, s.guards[i].(pc := Free(true)));
      OnesAtLeast(s.guards, i, i);
    } else {
      OnesAtLeast(s.guards, i, i);
      MoveKeeps(s, i, Done(s.word));
    }
  }

  /** The holder of the waker lock takes the waker, unlocks, wakes. */
  lemma TakeKeeps(s: State, i: nat)
    requires LiveInv(s) && s.freed == 0 && At(s, i) && s.guards[i].pc == Take
    ensures LiveInv(Apply(s, TakeWaker(i)))
  {
    LivePoint(s);
    OnesUpdate(s.guards, i, s.guards[i].(pc := Unlock(s.slot)));
  }

  lemma UnlockKeeps(s: State, i: nat)
    requires LiveInv(s) && s.freed == 0 && At(s, i) && s.guards[i].pc.Unlock?
    ensures LiveInv(Apply(s, UnlockWord(i)))
  {
    LivePoint(s);
    OnesUpdate(s.guards, i, Apply(s, UnlockWord(i)).guards[i]);
  }

  lemma WakeKeeps(s: State, i: nat)
    requires LiveInv(s) && s.freed == 0 && At(s, i) && s.guards[i].pc.Wake?
    ensures LiveInv(Apply(s, WakeWaker(i)))
  {
    LivePoint(s);
    OnesUpdate(s.guards, i, s.guards[i].(pc := Over));
  }

  /** A new guard: handed out by the owner or cloned from a live one. */
  lemma AddKeeps(s: State, threshold: nat)
    requires LiveInv(s) && s.freed == 0
    requires s.owner == Idle || s.owner.Parked? || exists i :: 0 <= i < |s.guards| && s.guards[i].pc == Held
    ensures LiveInv(AddOne(s, threshold))
  {
    LivePoint(s);
    OnesAppend(s.guards, Guard(threshold, Held));
    forall j | 0 <= j < |s.guards| && s.guards[j].pc.Free? ensures false {
      FreeingAlone(s, j);
    }
    if s.owner != Idle && !s.owner.Parked? {
      var i :| 0 <= i < |s.guards| && s.guards[i].pc == Held;
      OnesAtLeast(s.guards, i, i);
    }
  }

  /** Whoever frees is alone: every other party has made its last access. */
  lemma FreeingAlone(s: State, i: nat)
    requires LiveInv(s) && At(s, i) && s.guards[i].pc.Free?
    ensures s.owner == Gone
    ensures forall j :: 0 <= j < |s.guards| && j != i ==> Finished(s.guards[j].pc)
  {
    LivePoint(s);
    forall j | 0 <= j < |s.guards| && j != i ensures Finished(s.guards[j].pc) {
      if Counted(s.guards[j].pc) {
        OnesAtLeast(s.guards, j, j);
        if s.guards[i].pc.counted { OnesAtLeast(s.guards, i, j); }
      }
    }
    if s.guards[i].pc.counted { OnesAtLeast(s.guards, i, i); }
  }

  lemma DropFreeAlone(s: State)
    requires LiveInv(s) && s.owner == DropFree
    ensures forall j :: 0 <= j < |s.guards| ==> Finished(s.guards[j].pc)
  {
    LivePoint(s);
    forall j | 0 <= j < |s.guards| ensures Finished(s.guards[j].pc) {
      if Counted(s.guards[j].pc) { OnesAtLeast(s.guards, j, j); }
    }
  }

  // ---------- preservation: owner ----------

  /** The owner moves on; the word does not change. */
  lemma OwnerMoves(s: State, t: State)
    requires LiveInv(s)
    requires t == s.(owner := t.owner, slot := t.slot, woken := t.woken, threshold := t.threshold, last := t.last,
             missed := t.missed)
    requires OwnerInv(t.owner, s.word, s.locker) && (OwnerCounted(t.owner) <==> OwnerCounted(s.owner))
    ensures LiveInv(t)
  {
    LivePoint(s);
  }

  lemma WaitKeeps(s: State, a: Action)
    requires LiveInv(s) && Enabled(s, a)
    requires a.SetThreshold? || a.WaitStart? || a.CheckCount? || a.PollStart?
    ensures LiveInv(Apply(s, a))
  {
    LivePoint(s);
    OwnerMoves(s, Apply(s, a));
  }

  lemma LookKeeps(s: State, a: Action)
    requires LiveInv(s) && Enabled(s, a)
    requires a.LoadWord? || a.ConfirmCount? || a.Unpark? || a.GiveUp? || a.WriteSlot? || a.WriteSlotLocked?
    ensures LiveInv(Apply(s, a))
  {
    LivePoint(s);
    OwnerMoves(s, Apply(s, a));
  }

  lemma OwnerLockKeeps(s: State)
    requires LiveInv(s) && s.freed == 0 && s.owner.Register? && s.word.armed && !s.word.locked
    ensures LiveInv(s.(word := Word(false, true, s.word.count), owner := ReplaceLocked(s.owner.w), locker := ByOwner))
  {
    LivePoint(s);
    forall j | 0 <= j < |s.guards| && s.guards[j].pc.Free? ensures false {
      FreeingAlone(s, j);
    }
  }

  lemma RegisterKeeps(s: State, spurious: bool)
    requires LiveInv(s) && s.freed == 0 && s.owner.Register?
    ensures LiveInv(ApplyRegister(s, spurious))
  {
    LivePoint(s);
    var seen := s.owner.seen;
    if seen.count > s.threshold && !seen.locked && seen.armed && !s.owner.skip && s.word == seen && !spurious {
      OwnerLockKeeps(s);
    }
  }

  lemma FlagKeeps(s: State, a: Action)
    requires LiveInv(s) && s.freed == 0 && Enabled(s, a) && (a.OrFlag? || a.XorFlags?)
    ensures LiveInv(Apply(s, a))
  {
    LivePoint(s);
  }

  lemma DropKeeps(s: State, a: Action)
    requires LiveInv(s) && s.freed == 0 && Enabled(s, a) && (a.DropLoad? || a.DropStep?)
    ensures LiveInv(Apply(s, a))
  {
    LivePoint(s);
    forall j | 0 <= j < |s.guards| && s.guards[j].pc.Free? ensures false {
      FreeingAlone(s, j);
    }
  }

  lemma GuardKeeps(s: State, a: Action)
    requires LiveInv(s) && s.freed == 0 && Enabled(s, a)
    requires a.Clone? || a.DoneLoad? || a.DoneStep? || a.RecheckLoad? || a.TakeWaker? || a.UnlockWord? || a.WakeWaker?
    ensures LiveInv(Apply(s, a))
  {
    match a
    case Clone(i) => AddKeeps(s, s.guards[i].threshold);
    case DoneLoad(i) => DoneLoadKeeps(s, i);
    case DoneStep(i, spurious) => DoneKeeps(s, i, spurious);
    case RecheckLoad(i) => RecheckKeeps(s, i);
    case TakeWaker(i) => TakeKeeps(s, i);
    case UnlockWord(i) => UnlockKeeps(s, i);
    case WakeWaker(i) => WakeKeeps(s, i);
  }

  lemma LiveStep(s: State, a: Action)
    requires LiveInv(s) && s.freed == 0 && Enabled(s, a) && !a.FreeBox? && !a.DropBox?
    ensures LiveInv(Apply(s, a))
  {
    match a
    case AddGuard => AddKeeps(s, s.threshold);
    case RegisterStep(spurious) => RegisterKeeps(s, spurious);
    case LoadWord => LookKeeps(s, a);
    case ConfirmCount => LookKeeps(s, a);
    case Unpark => LookKeeps(s, a);
    case GiveUp => LookKeeps(s, a);
    case WriteSlot => LookKeeps(s, a);
    case WriteSlotLocked => LookKeeps(s, a);
    case OrFlag => FlagKeeps(s, a);
    case XorFlags => FlagKeeps(s, a);
    case DropLoad => DropKeeps(s, a);
    case DropStep(_) => DropKeeps(s, a);
    case SetThreshold(_) => WaitKeeps(s, a);
    case WaitStart(_) => WaitKeeps(s, a);
    case CheckCount => WaitKeeps(s, a);
    case PollStart(_, _) => WaitKeeps(s, a);
    case _ => GuardKeeps(s, a);
  }

  lemma InvStep(s: State, a: Action)
    requires Inv(s) && Enabled(s, a)
    ensures Inv(Apply(s, a))
  {
    if s.freed == 0 {
      if a.FreeBox? { FreeingAlone(s, a.i); }
      else if a.DropBox? { DropFreeAlone(s); }
      else { LiveStep(s, a); }
    }
  }

  lemma {:induction false} RunKeepsInv(r: seq<State>, i: nat)
    requires Run(r) && i < |r|
    ensures Inv(r[i])
  {
    if i > 0 {
      RunKeepsInv(r, i - 1);
      assert Next(r[i - 1], r[i]);
      var a :| Enabled(r[i - 1], a) && r[i] == Apply(r[i - 1], a);
      InvStep(r[i - 1], a);
    }
  }

  // ---------- the allocation is freed exactly once ----------

  /** Actions that access the allocation: all but waking with a waker already taken. */
  predicate Touches(a: Action) {
    !a.WakeWaker?
  }

  /** In every run the allocation is freed at most once, and after that no party has an
      access to it ahead; the count never underflows. */
  lemma NoUseAfterFree(r: seq<State>, i: nat, a: Action)
    requires Run(r) && i < |r| && Enabled(r[i], a)
    ensures r[i].freed <= 1
    ensures Touches(a) ==> r[i].freed == 0
    ensures r[i].owner != Borrow && forall j :: 0 <= j < |r[i].guards| ==> r[i].guards[j].pc != Underflow
  {
    RunKeepsInv(r, i);
    if r[i].freed == 0 { LivePoint(r[i]); }
  }

  /** When every party is finished the allocation was freed exactly once. */
  lemma FreedExactlyOnce(r: seq<State>, i: nat)
    requires Run(r) && i < |r| && r[i].owner == Gone
    requires forall j :: 0 <= j < |r[i].guards| ==> Finished(r[i].guards[j].pc)
    ensures r[i].freed == 1
  {
    RunKeepsInv(r, i);
    if r[i].freed == 0 { LivePoint(r[i]); }
    var s := r[i];
    if s.freed == 0 {
      NoneCounted(s.guards);
    }
  }

  lemma {:induction false} NoneCounted(gs: seq<Guard>)
    requires forall j :: 0 <= j < |gs| ==> !Counted(gs[j].pc)
    ensures Ones(gs) == 0
  {
    if gs != [] { NoneCounted(gs[..|gs| - 1]); }
  }

  // ---------- the waker slot ----------

  /** While a guard takes the waker out of the slot, nobody else accesses it: the owner is not
      about to write it, and no other guard is about to take it. */
  lemma TakeIsExclusive(r: seq<State>, i: nat, j: nat)
    requires Run(r) && i < |r| && At(r[i], j) && r[i].guards[j].pc == Take
    ensures !r[i].owner.Replace? && !r[i].owner.ReplaceLocked?
    ensures forall k :: 0 <= k < |r[i].guards| && r[i].guards[k].pc == Take ==> k == j
  {
    RunKeepsInv(r, i);
    if r[i].freed == 0 { LivePoint(r[i]); }
    assert GuardInv(r[i].locker, r[i].word.count, j, r[i].guards[j].pc);
  }

  // ---------- try_into_inner ----------

  /** A guard with an access to the allocation still ahead. */
  ghost predicate SomeAccessAhead(s: State) {
    exists j :: 0 <= j < |s.guards| && !Finished(s.guards[j].pc)
  }

  /** `try_into_inner` frees as soon as the count says that only the owner is left, whatever
      the flags say. In every reachable state where it would do so, every guard has made its
      last access exactly when the waker lock is free. */
  lemma IntoInnerSafeIff(r: seq<State>, i: nat)
    requires Run(r) && i < |r| && r[i].owner == Idle && r[i].word.count == 1
    ensures SomeAccessAhead(r[i]) <==> r[i].word.locked
  {
    RunKeepsInv(r, i);
    if r[i].freed == 0 { LivePoint(r[i]); }
    var s := r[i];
    if s.word.locked {
      assert !Finished(s.guards[s.locker.i].pc);
    } else {
      forall j | 0 <= j < |s.guards| ensures Finished(s.guards[j].pc) {
        if Counted(s.guards[j].pc) { OnesAtLeast(s.guards, j, j); }
      }
    }
  }

  function Last(r: seq<State>): State
    requires |r| > 0
  {
    r[|r| - 1]
  }

  lemma Extend(r: seq<State>, a: Action) returns (r': seq<State>)
    requires Run(r) && Enabled(Last(r), a)
    ensures Run(r') && Last(r') == Apply(Last(r), a)
  {
    r' := r + [Apply(Last(r), a)];
    forall i | 0 <= i < |r'| - 1 ensures Next(r'[i], r'[i + 1]) {
      if i == |r| - 1 { assert r'[i] == Last(r) && r'[i + 1] == Apply(Last(r), a); }
    }
  }

  /** A guard is handed out, and the owner waits with threshold 1 until it sleeps. */
  lemma SleepingRun() returns (r: seq<State>)
    ensures Run(r)
    ensures Last(r) == State(Word(true, false, 2), Some(0), Parked(0), [Guard(1, Held)], {}, 1, Some(0), 0, Nobody,
            false)
  {
    r := [Initial(1)];
    r := Extend(r, AddGuard);
    r := Extend(r, WaitStart(0));
    r := Extend(r, CheckCount);
    r := Extend(r, LoadWord);
    r := Extend(r, RegisterStep(false));
    r := Extend(r, WriteSlot);
    r := Extend(r, OrFlag);
  }

  /** The unsafe case is reachable: the guard reaches the threshold and locks the waker, the
      waiter returns from its park, finds the count low and may call `try_into_inner`. */
  lemma IntoInnerUnsafeReachable()
    ensures exists r :: Run(r) && Last(r).owner == Idle && Last(r).word.count == 1 && SomeAccessAhead(Last(r))
  {
    var r := SleepingRun();
    r := Extend(r, DoneLoad(0));
    r := Extend(r, DoneStep(0, false));
    r := Extend(r, Unpark);
    r := Extend(r, CheckCount);
    assert Last(r).guards[0].pc == Take;
  }
}
