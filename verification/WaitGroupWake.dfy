/**
 No lost wake in the wait group: a waiter that is asleep is either still registered above its
 threshold, or a wake for it is on its way.
 */
module WaitGroupWake {
  import opened Basics
  import opened WaitGroup

  /** Guard j has locked, taken or is delivering the waker w. */
  predicate HoldsWaker(g: Guard, slot: Option<WakerId>, w: WakerId) {
    match g.pc
    case Take => slot == Some(w)
    case Unlock(o) => o == Some(w)
    case Wake(o) => o == Some(w)
    case _ => false
  }

  ghost predicate SomeoneHolds(s: State, w: WakerId) {
    exists j :: 0 <= j < |s.guards| && HoldsWaker(s.guards[j], s.slot, w)
  }

  /** A wake for w is pending or under way. */
  ghost predicate Coming(s: State, w: WakerId) {
    w in s.woken || SomeoneHolds(s, w)
  }

  predicate Armed(s: State, w: WakerId) {
    s.word.armed && s.slot == Some(w)
  }

  /** The owner relies on its registration of w being in place, or on a wake for it. */
  ghost predicate SleepInv(s: State) {
    match s.owner
    case Parked(w) => s.last == Some(w) && (Coming(s, w) || (Armed(s, w) && (s.word.count > s.threshold || s.missed)))
    case Confirm(w) => s.last == Some(w) && (Coming(s, w) || Armed(s, w))
    case Register(w, skip, seen) =>
      skip ==>
        && s.last == Some(w)
        && (seen.armed && seen.count > s.threshold ==>
              Coming(s, w) || (Armed(s, w) && (s.word.count > s.threshold || s.missed)))
    case Load(w, skip) => skip ==> s.last == Some(w)
    case Check(w) => s.last.Some? ==> s.last == Some(w)
    case SetFlag(w) => s.slot == Some(w)
    case SwapFlags(w) => s.slot == Some(w)
    case _ => true
  }

  predicate LastRegistered(s: State) {
    s.last.Some? && s.word.armed ==> s.slot == s.last
  }

  ghost predicate WakeFacts(s: State) {
    LastRegistered(s) && SleepInv(s) && (s.missed ==> s.word.count <= s.threshold)
  }

  /** Quantified, as the invariant of the wait group: WakePoint unfolds it. */
  ghost predicate WakeInv(s: State) {
    forall x :: x == s ==> WakeFacts(x)
  }

  lemma WakePoint(s: State)
    requires WakeInv(s)
    ensures WakeFacts(s)
  {
  }

  // ---------- preservation ----------

  /** A guard that delivers a wake does not withdraw it. */
  lemma ComingStays(s: State, a: Action, w: WakerId)
    requires LiveInv(s) && s.freed == 0 && Enabled(s, a) && Coming(s, w) && OwnerCounted(s.owner)
    requires a.TakeWaker? || a.UnlockWord? || a.WakeWaker?
    ensures Coming(Apply(s, a), w)
  {
    LivePoint(s);
    var t := Apply(s, a);
    if w !in s.woken {
      var j :| 0 <= j < |s.guards| && HoldsWaker(s.guards[j], s.slot, w);
      if j == a.i && a.WakeWaker? {
        assert w in t.woken;
      } else {
        assert HoldsWaker(t.guards[j], t.slot, w);
      }
    }
  }

  lemma WakingStepKeeps(s: State, a: Action)
    requires LiveInv(s) && s.freed == 0 && Enabled(s, a) && WakeInv(s)
    requires a.TakeWaker? || a.UnlockWord? || a.WakeWaker?
    ensures WakeInv(Apply(s, a))
  {
    WakePoint(s);
    LivePoint(s);
    if s.owner.Parked? || s.owner.Confirm? || s.owner.Register? {
      if Coming(s, s.owner.w) { ComingStays(s, a, s.owner.w); }
    }
  }

  /** A guard without a waker moves on: a wake that is on its way stays so. */
  lemma StillComing(s: State, t: State, i: nat, w: WakerId)
    requires Coming(s, w) && At(s, i) && Plain(s.guards[i].pc) && t.slot == s.slot && s.woken <= t.woken
    requires |t.guards| == |s.guards| && forall j :: 0 <= j < |s.guards| && j != i ==> t.guards[j] == s.guards[j]
    ensures Coming(t, w)
  {
    if w !in s.woken {
      var j :| 0 <= j < |s.guards| && HoldsWaker(s.guards[j], s.slot, w);
      assert HoldsWaker(t.guards[j], t.slot, w);
    }
  }

  lemma LookKeeps(s: State, t: State, i: nat, pc: Pc)
    requires WakeInv(s) && At(s, i) && Plain(s.guards[i].pc) && Counted(pc) && t == SetPc(s, i, pc)
    ensures WakeInv(t)
  {
    WakePoint(s);
    if s.owner.Parked? || s.owner.Confirm? || s.owner.Register? {
      if Coming(s, s.owner.w) { StillComing(s, t, i, s.owner.w); }
    }
  }

  /** A guard gives its count back without locking: with a waker set the count is still above the
      threshold, or else the guard misses it. */
  lemma LeaveKeeps(s: State, t: State, i: nat)
    requires LiveInv(s) && WakeInv(s) && At(s, i) && Plain(s.guards[i].pc) && s.word.count >= 1
    requires !ShouldLock(s.word, s.guards[i].threshold)
             && t == SetPc(s, i, Over).(word := s.word.(count := s.word.count - 1),
                                        missed := s.missed || Misses(s.word, s.guards[i].threshold, s.threshold))
    ensures WakeInv(t)
  {
    WakePoint(s);
    LivePoint(s);
    if s.owner.Parked? || s.owner.Confirm? || s.owner.Register? {
      if Coming(s, s.owner.w) { StillComing(s, t, i, s.owner.w); }
    }
  }

  /** Or it locks, and then it has the waker that was set. */
  lemma LockKeeps(s: State, t: State, i: nat)
    requires WakeInv(s) && At(s, i) && Plain(s.guards[i].pc) && s.word.armed && s.word.count >= 1
    requires t == SetPc(s, i, Take).(word := Word(false, true, s.word.count - 1), locker := ByGuard(i))
    ensures WakeInv(t)
  {
    WakePoint(s);
    if s.owner.Parked? || s.owner.Confirm? || s.owner.Register? {
      var w := s.owner.w;
      if Coming(s, w) { StillComing(s, t, i, w); }
      else if s.slot == Some(w) { assert HoldsWaker(t.guards[i], t.slot, w); }
    }
  }

  lemma LoadStepKeeps(s: State, a: Action)
    requires Enabled(s, a) && WakeInv(s) && (a.DoneLoad? || a.RecheckLoad?)
    ensures WakeInv(Apply(s, a))
  {
    LookKeeps(s, Apply(s, a), a.i, Apply(s, a).guards[a.i].pc);
  }

  lemma DoneStepKeeps(s: State, i: nat, spurious: bool)
    requires LiveInv(s) && At(s, i) && s.guards[i].pc.Done? && WakeInv(s)
    ensures WakeInv(ApplyDone(s, i, spurious))
  {
    var t, seen := ApplyDone(s, i, spurious), s.guards[i].pc.seen;
    if IsLast(seen) || (seen.count >= 1 && (s.word != seen || spurious)) { LookKeeps(s, t, i, t.guards[i].pc); }
    else {
      DoneCounts(s, i);
      if ShouldLock(seen, s.guards[i].threshold) { LockKeeps(s, t, i); } else { LeaveKeeps(s, t, i); }
    }
  }

  lemma DoneCounts(s: State, i: nat)
    requires LiveInv(s) && At(s, i) && s.guards[i].pc.Done?
    ensures s.guards[i].pc.seen.count >= 1
  {
    LivePoint(s);
    assert GuardInv(s.locker, s.word.count, i, s.guards[i].pc);
  }

  lemma AddKeeps(s: State, a: Action)
    requires LiveInv(s) && s.freed == 0 && Enabled(s, a) && WakeInv(s) && (a.AddGuard? || a.Clone?)
    ensures WakeInv(Apply(s, a))
  {
    WakePoint(s);
    LivePoint(s);
    var t := Apply(s, a);
    if s.owner.Parked? || s.owner.Confirm? || s.owner.Register? {
      if SomeoneHolds(s, s.owner.w) {
        var j :| 0 <= j < |s.guards| && HoldsWaker(s.guards[j], s.slot, s.owner.w);
        assert HoldsWaker(t.guards[j], t.slot, s.owner.w);
      }
    }
  }

  lemma OwnerStepKeeps(s: State, a: Action)
    requires LiveInv(s) && s.freed == 0 && Enabled(s, a) && WakeInv(s)
    requires a.CheckCount? || a.LoadWord? || (a.PollStart? && !a.renew) || a.ConfirmCount? || a.Unpark? || a.GiveUp?
             || a.DropLoad? || a.DropStep?
    ensures WakeInv(Apply(s, a))
  {
    WakePoint(s);
    LivePoint(s);
  }

  lemma ThresholdKeeps(s: State, n: nat)
    requires s.owner == Idle && WakeInv(s)
    ensures WakeInv(Apply(s, SetThreshold(n)))
  {
    WakePoint(s);
  }

  lemma RegisterKeeps(s: State, a: Action)
    requires LiveInv(s) && s.freed == 0 && Enabled(s, a) && WakeInv(s)
    requires a.RegisterStep? || a.WriteSlot? || a.OrFlag? || a.WriteSlotLocked? || a.XorFlags?
    ensures WakeInv(Apply(s, a))
  {
    WakePoint(s);
    LivePoint(s);
  }

  /** A new wait starts from scratch. */
  lemma FreshWait(s: State, a: Action)
    requires Enabled(s, a) && WakeInv(s) && (a.WaitStart? || (a.PollStart? && a.renew))
    ensures WakeInv(Apply(s, a))
  {
  }

  lemma GuardStepKeeps(s: State, a: Action)
    requires LiveInv(s) && s.freed == 0 && Enabled(s, a) && WakeInv(s)
    requires a.Clone? || a.DoneLoad? || a.DoneStep? || a.RecheckLoad? || a.TakeWaker? || a.UnlockWord? || a.WakeWaker?
    ensures WakeInv(Apply(s, a))
  {
    match a
    case Clone(_) => AddKeeps(s, a);
    case DoneStep(i, spurious) => DoneStepKeeps(s, i, spurious);
    case DoneLoad(_) => LoadStepKeeps(s, a);
    case RecheckLoad(_) => LoadStepKeeps(s, a);
    case TakeWaker(_) => WakingStepKeeps(s, a);
    case UnlockWord(_) => WakingStepKeeps(s, a);
    case WakeWaker(_) => WakingStepKeeps(s, a);
  }

  lemma OwnerKeeps(s: State, a: Action)
    requires LiveInv(s) && s.freed == 0 && Enabled(s, a) && WakeInv(s)
    requires a.AddGuard? || a.SetThreshold? || a.CheckCount? || a.LoadWord? || (a.PollStart? && !a.renew)
             || a.ConfirmCount? || a.Unpark? || a.GiveUp? || a.DropLoad? || a.DropStep? || a.RegisterStep?
             || a.WriteSlot? || a.OrFlag? || a.WriteSlotLocked? || a.XorFlags?
    ensures WakeInv(Apply(s, a))
  {
    if a.AddGuard? { AddKeeps(s, a); }
    else if a.SetThreshold? { ThresholdKeeps(s, a.n); }
    else if a.RegisterStep? || a.WriteSlot? || a.OrFlag? || a.WriteSlotLocked? || a.XorFlags? { RegisterKeeps(s, a); }
    else { OwnerStepKeeps(s, a); }
  }

  lemma WakeStep(s: State, a: Action)
    requires Inv(s) && s.freed == 0 && Enabled(s, a) && WakeInv(s) && Apply(s, a).freed == 0
    ensures WakeInv(Apply(s, a))
  {
    if a.WaitStart? || (a.PollStart? && a.renew) { FreshWait(s, a); }
    else if a.Clone? || a.DoneLoad? || a.DoneStep? || a.RecheckLoad? || a.TakeWaker? || a.UnlockWord? || a.WakeWaker? {
      GuardStepKeeps(s, a);
    }
    else if !a.FreeBox? && !a.DropBox? { OwnerKeeps(s, a); }
  }

  lemma FreedForGood(s: State, a: Action)
    requires Enabled(s, a)
    ensures s.freed <= Apply(s, a).freed
  {
  }

  lemma WakeNext(s: State, t: State)
    requires Inv(s) && Next(s, t) && (s.freed == 0 ==> WakeInv(s)) && t.freed == 0
    ensures WakeInv(t)
  {
    var a :| Enabled(s, a) && t == Apply(s, a);
    FreedForGood(s, a);
    WakeStep(s, a);
  }

  /** What holds in every state of a run. */
  ghost predicate Wakeful(s: State) {
    s.freed == 0 ==> WakeInv(s)
  }

  lemma WakefulNext(s: State, t: State)
    requires Inv(s) && Next(s, t) && Wakeful(s)
    ensures Wakeful(t)
  {
    if t.freed == 0 { WakeNext(s, t); }
  }

  lemma InitWakeful(threshold: nat)
    ensures Wakeful(Initial(threshold))
  {
  }

  lemma {:induction false} RunKeepsWake(r: seq<State>, i: nat)
    requires Run(r) && i < |r|
    ensures Wakeful(r[i])
  {
    if i == 0 {
      InitWakeful(r[0].threshold);
    } else {
      RunKeepsWake(r, i - 1);
      RunKeepsInv(r, i - 1);
      WakefulNext(r[i - 1], r[i]);
    }
  }

  /** Asleep, with no token and with no `done` holding the waker. */
  ghost predicate Stranded(s: State) {
    s.owner.Parked? && s.owner.w !in s.woken && !SomeoneHolds(s, s.owner.w)
  }

  lemma SleeperIsRegistered(s: State)
    requires Inv(s) && Wakeful(s) && Stranded(s)
    ensures s.word.armed && s.slot == Some(s.owner.w)
    ensures s.word.count <= s.threshold <==> s.missed
  {
    WakePoint(s);
  }

  /** A waiter that is asleep with no wake under way has its waker in the slot and the SET flag
      set; and its count is down to its threshold if and only if the `done` of a guard made under a
      lower threshold took it there. */
  lemma NoLostWake(r: seq<State>, i: nat)
    requires Run(r) && i < |r| && Stranded(r[i])
    ensures r[i].word.armed && r[i].slot == Some(r[i].owner.w)
    ensures r[i].word.count <= r[i].threshold <==> r[i].missed
  {
    RunKeepsWake(r, i);
    RunKeepsInv(r, i);
    SleeperIsRegistered(r[i]);
  }

  // ---------- when a wait returns ----------

  /** In a blocking wait, or in a poll or between two polls. */
  predicate InWait(o: Owner) {
    o.Check? || o.Load? || o.Register? || o.Replace? || o.SetFlag? || o.ReplaceLocked? || o.SwapFlags? || o.Confirm?
    || o.Parked?
  }

  /** The count that an action of the owner decides by. */
  function CountSeen(s: State, a: Action): nat {
    if a.RegisterStep? && s.owner.Register? then s.owner.seen.count else s.word.count
  }

  /** The owner compares a count with its threshold. */
  predicate Decides(a: Action) {
    a.CheckCount? || a.PollStart? || a.RegisterStep? || a.OrFlag? || a.XorFlags? || a.ConfirmCount?
  }

  /** A wait or poll returns, unless it gives up, exactly where it finds the count at most the
      threshold. */
  lemma ReturnsAtThreshold(s: State, a: Action)
    requires Enabled(s, a) && (InWait(s.owner) || a.WaitStart? || a.PollStart?) && !a.GiveUp?
    ensures Apply(s, a).owner == Idle <==> Decides(a) && CountSeen(s, a) <= s.threshold
    ensures Apply(s, a).threshold == s.threshold
  {
  }

  /** A run and the actions it took. */
  ghost predicate Trace(r: seq<State>, acts: seq<Action>) {
    && |r| == |acts| + 1 && r[0] == Initial(r[0].threshold)
    && forall i :: 0 <= i < |acts| ==> Enabled(r[i], acts[i]) && r[i + 1] == Apply(r[i], acts[i])
  }

  predicate ByOwner(a: Action) {
    && !a.Clone? && !a.DoneLoad? && !a.DoneStep? && !a.RecheckLoad? && !a.TakeWaker? && !a.UnlockWord? && !a.WakeWaker?
    && !a.FreeBox?
  }

  /** At some step of the current or last wait the count was at most the threshold. */
  ghost predicate WasLow(r: seq<State>, acts: seq<Action>, k: nat)
    requires Trace(r, acts) && k <= |acts|
  {
    && k > 0
    && var s, a := r[k - 1], acts[k - 1];
       if !ByOwner(a) || a.AddGuard? then WasLow(r, acts, k - 1)
       else s.word.count <= s.threshold || (!a.WaitStart? && !(a.PollStart? && a.renew) && WasLow(r, acts, k - 1))
  }

  /** A low count that the owner carries was loaded by this step, or before it. */
  lemma LowLoad(s: State, a: Action)
    requires Enabled(s, a) && Apply(s, a).owner.Register? && Apply(s, a).owner.seen.count <= Apply(s, a).threshold
    ensures if ByOwner(a) then !a.AddGuard? && !a.WaitStart? && !a.PollStart? && s.word.count <= s.threshold
            else s.owner == Apply(s, a).owner && s.threshold == Apply(s, a).threshold
  {
  }

  lemma {:induction false} LowLoadWasLow(r: seq<State>, acts: seq<Action>, k: nat)
    requires Trace(r, acts) && k <= |acts| && r[k].owner.Register? && r[k].owner.seen.count <= r[k].threshold
    ensures WasLow(r, acts, k)
    decreases k
  {
    if k > 0 {
      LowLoad(r[k - 1], acts[k - 1]);
      if !ByOwner(acts[k - 1]) { LowLoadWasLow(r, acts, k - 1); }
    }
  }

  /** In every run: when a wait or poll returns, and has not given up, the count was down to the
      threshold at some step of it. */
  lemma WaitSawThreshold(r: seq<State>, acts: seq<Action>, k: nat)
    requires Trace(r, acts) && k < |acts| && !acts[k].GiveUp? && r[k + 1].owner == Idle
    requires InWait(r[k].owner) || acts[k].PollStart?
    ensures WasLow(r, acts, k + 1)
  {
    ReturnsAtThreshold(r[k], acts[k]);
    if acts[k].RegisterStep? { LowLoadWasLow(r, acts, k); }
  }

  // ---------- a done never waits ----------

  /** An upper bound on the steps left to a guard that is given up. */
  function DoneLeft(word: Word, pc: Pc): nat {
    match pc
    case Held => 8
    case Done(seen) => if seen == word then 6 else 8
    case Recheck(seen) => if seen == word then 5 else 7
    case Take => 4
    case Unlock(_) => 3
    case Wake(_) => 2
    case Free(_) => 1
    case _ => 0
  }

  function DoneAction(i: nat, pc: Pc): Action {
    match pc
    case Held => DoneLoad(i)
    case Done(_) => DoneStep(i, false)
    case Recheck(_) => RecheckLoad(i)
    case Take => TakeWaker(i)
    case Unlock(_) => UnlockWord(i)
    case Wake(_) => WakeWaker(i)
    case _ => FreeBox(i)
  }

  /** Its own steps bring a guard to its end, wherever all others have stopped. */
  ghost predicate GoesOver(s: State, i: nat, n: nat)
    decreases n
  {
    && At(s, i)
    && (s.guards[i].pc == Over
        || (n > 0 && Enabled(s, DoneAction(i, s.guards[i].pc))
            && GoesOver(Apply(s, DoneAction(i, s.guards[i].pc)), i, n - 1)))
  }

  lemma DoneLess(s: State, i: nat)
    requires (s.freed == 0 ==> LiveInv(s)) && At(s, i) && s.guards[i].pc != Over && s.guards[i].pc != Underflow
    requires s.freed > 0 ==> s.guards[i].pc.Wake?
    ensures Enabled(s, DoneAction(i, s.guards[i].pc))
    ensures var t := Apply(s, DoneAction(i, s.guards[i].pc));
            At(t, i) && DoneLeft(t.word, t.guards[i].pc) < DoneLeft(s.word, s.guards[i].pc)
  {
    if s.freed == 0 {
      LivePoint(s);
      assert GuardInv(s.locker, s.word.count, i, s.guards[i].pc);
    }
  }

  lemma {:induction false} GuardGoesOver(s: State, i: nat, n: nat)
    requires Inv(s) && At(s, i) && n >= DoneLeft(s.word, s.guards[i].pc)
    ensures GoesOver(s, i, n)
    decreases n
  {
    if s.guards[i].pc != Over {
      GuardStillGoing(s, i);
      DoneLess(s, i);
      InvStep(s, DoneAction(i, s.guards[i].pc));
      GuardGoesOver(Apply(s, DoneAction(i, s.guards[i].pc)), i, n - 1);
    }
  }

  lemma GuardStillGoing(s: State, i: nat)
    requires Inv(s) && At(s, i) && s.guards[i].pc != Over
    ensures s.guards[i].pc != Underflow && (s.freed > 0 ==> s.guards[i].pc.Wake?)
  {
    if s.freed == 0 {
      LivePoint(s);
      assert GuardInv(s.locker, s.word.count, i, s.guards[i].pc);
    }
  }

  /** In every run a guard that is given up is done after at most eight steps of its own. */
  lemma DoneFinishesAlone(r: seq<State>, k: nat, i: nat)
    requires Run(r) && k < |r| && At(r[k], i)
    ensures GoesOver(r[k], i, 8)
  {
    RunKeepsInv(r, k);
    GuardGoesOver(r[k], i, 8);
  }

  // ---------- who misses ----------

  /** Every live guard carries a threshold that is at least the owner's. */
  ghost predicate GuardsInTime(s: State) {
    forall j :: 0 <= j < |s.guards| && Counted(s.guards[j].pc) ==> s.guards[j].threshold >= s.threshold
  }

  lemma InTimeDone(s: State, i: nat, spurious: bool)
    requires LiveInv(s) && At(s, i) && s.guards[i].pc.Done? && GuardsInTime(s) && !s.missed
    ensures GuardsInTime(ApplyDone(s, i, spurious)) && !ApplyDone(s, i, spurious).missed
  {
    DoneCounts(s, i);
  }

  /** Guards keep their thresholds, and new ones are in time. */
  lemma InTimeOther(s: State, t: State, i: nat)
    requires GuardsInTime(s) && t.threshold == s.threshold && (At(s, i) ==> |t.guards| > i)
    requires forall j :: 0 <= j < |s.guards| && j != i ==> j < |t.guards| && t.guards[j] == s.guards[j]
    requires At(s, i) && Counted(t.guards[i].pc) ==>
               t.guards[i].threshold == s.guards[i].threshold && Counted(s.guards[i].pc)
    requires forall j :: |s.guards| <= j < |t.guards| ==> t.guards[j].threshold >= s.threshold
    ensures GuardsInTime(t)
  {
  }

  lemma InTimeGuard(s: State, a: Action)
    requires Enabled(s, a) && GuardsInTime(s)
    requires a.DoneLoad? || a.RecheckLoad? || a.TakeWaker? || a.UnlockWord? || a.WakeWaker? || a.FreeBox?
    ensures GuardsInTime(Apply(s, a)) && Apply(s, a).missed == s.missed
  {
    if a.UnlockWord? { assert !Counted(Apply(s, a).guards[a.i].pc); }
    InTimeOther(s, Apply(s, a), a.i);
  }

  lemma InTimeOwner(s: State, a: Action)
    requires Enabled(s, a) && GuardsInTime(s) && !s.missed && !a.SetThreshold? && !a.DoneStep?
    requires !a.DoneLoad? && !a.RecheckLoad? && !a.TakeWaker? && !a.UnlockWord? && !a.WakeWaker? && !a.FreeBox?
    ensures GuardsInTime(Apply(s, a)) && !Apply(s, a).missed
  {
  }

  /** With such guards only, and as long as the threshold stays, no `done` ever misses. */
  lemma InTimeNeverMisses(s: State, a: Action)
    requires Inv(s) && s.freed == 0 && Enabled(s, a) && !a.SetThreshold? && GuardsInTime(s) && !s.missed
    ensures GuardsInTime(Apply(s, a)) && !Apply(s, a).missed
  {
    if a.DoneStep? { InTimeDone(s, a.i, a.spurious); }
    else if a.DoneLoad? || a.RecheckLoad? || a.TakeWaker? || a.UnlockWord? || a.WakeWaker? || a.FreeBox? {
      InTimeGuard(s, a);
    } else { InTimeOwner(s, a); }
  }

  lemma LastDone(s: State, j: nat)
    requires Inv(s) && Wakeful(s) && Stranded(s) && !s.missed
    requires At(s, j) && s.guards[j].pc == Done(s.word) && ApplyDone(s, j, false).word.count <= s.threshold
    ensures HoldsWaker(ApplyDone(s, j, false).guards[j], s.slot, s.owner.w) <==> s.guards[j].threshold >= s.threshold
    ensures ApplyDone(s, j, false).missed <==> s.guards[j].threshold < s.threshold
  {
    SleeperIsRegistered(s);
    LivePoint(s);
    assert GuardInv(s.locker, s.word.count, j, s.guards[j].pc);
  }

  /** The `done` that brings the count of a sleeper down to its threshold takes the waker exactly
      if its guard's threshold is at least the sleeper's; otherwise it is the miss that leaves the
      sleeper asleep. */
  lemma LastDoneWakesIff(r: seq<State>, i: nat, j: nat)
    requires Run(r) && i < |r| && Stranded(r[i]) && !r[i].missed
    requires At(r[i], j) && r[i].guards[j].pc == Done(r[i].word)
    requires Apply(r[i], DoneStep(j, false)).word.count <= r[i].threshold
    ensures HoldsWaker(Apply(r[i], DoneStep(j, false)).guards[j], r[i].slot, r[i].owner.w)
            <==> r[i].guards[j].threshold >= r[i].threshold
    ensures Apply(r[i], DoneStep(j, false)).missed <==> r[i].guards[j].threshold < r[i].threshold
  {
    RunKeepsWake(r, i);
    RunKeepsInv(r, i);
    LastDone(r[i], j);
  }

  /** A guard is handed out under threshold 1, the threshold raised to 2, and the owner waits
      until it sleeps. */
  lemma LateSleeper() returns (r: seq<State>)
    ensures Run(r) && Last(r).guards == [Guard(1, Held), Guard(1, Held)] && Last(r).word == Word(true, false, 3)
    ensures Last(r).owner == Parked(0) && Last(r).threshold == 2 && Last(r).woken == {}
  {
    r := [Initial(1)];
    r := Extend(r, AddGuard);
    r := Extend(r, AddGuard);
    r := Extend(r, SetThreshold(2));
    r := Extend(r, WaitStart(0));
    r := Extend(r, CheckCount);
    r := Extend(r, LoadWord);
    r := Extend(r, RegisterStep(false));
    r := Extend(r, WriteSlot);
    r := Extend(r, OrFlag);
  }

  /** Such a wait can sleep on at its threshold: the guard wakes at the threshold it was made
      with. */
  lemma LateGuardWakesLate()
    ensures exists r :: Run(r) && Stranded(Last(r)) && Last(r).word.count <= Last(r).threshold && Last(r).missed
  {
    var r := LateSleeper();
    r := Extend(r, DoneLoad(0));
    r := Extend(r, DoneStep(0, false));
    assert Last(r).guards == [Guard(1, Over), Guard(1, Held)];
  }
}
