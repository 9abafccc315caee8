/**
 No call of the work-stealing queues waits for another thread: wherever the others have stopped,
 a thread left alone brings its call to an end.
 */
module StealAlone {
  import opened Basics
  import opened Laps
  import opened StealQueue
  import opened StealInv
  import StealBreak

  /** The items from a worker head to the tail. */
  function Ahead(m: Mem, i: nat): nat {
    if i < |m.qs| && m.qs[i].wh <= m.qs[i].tail then m.qs[i].tail - m.qs[i].wh else 0
  }

  /** The heads loaded are still those of the queue. */
  predicate Current(m: Mem, i: nat, wh: nat, sh: nat) {
    i < |m.qs| && HeadsAre(m.qs[i], wh, sh)
  }

  function Less(x: nat, y: nat): nat {
    if y <= x then x - y else 0
  }

  /** Half an upper bound on the steps that a thread at pc needs if nobody else takes any. */
  function Left(m: Mem, pc: Pc): nat {
    match pc
    case Idle => 0
    case PHeads(_, n, _) => n + 3
    case PFill(_, n, _, _, _) => n + 2
    case PPublish(_, _, _) => 1
    case QHeads(_) => 4
    case QCas(i, wh, sh) => if Current(m, i, wh, sh) then 2 else 3
    case QRead(_, _) => 1
    case SLook(i, _, _) => 17 + 2 * Ahead(m, i)
    case SLookTail(i, _, _, _) => 16 + 2 * Ahead(m, i)
    case SDest(i, _, _) => 15 + 2 * Ahead(m, i)
    case BHeads(i, _) => 14 + 2 * Ahead(m, i)
    case BTail(i, _, wh, sh) => (if Current(m, i, wh, sh) then 10 else 13) + 2 * Ahead(m, i)
    case BCount(i, _, wh, count) => if Current(m, i, wh, wh) then 9 + 2 * count else 12 + 2 * Ahead(m, i)
    case BCas(i, _, wh, n) => if Current(m, i, wh, wh) then 7 + 2 * n else 11 + 2 * Ahead(m, i)
    case SRead(_, _, pop, _, n, _, k) => 6 + 2 * Less(Moved(pop, n), k)
    case SWrite(_, _, pop, _, n, _, k, _) => 5 + 2 * Less(Moved(pop, n), k)
    case SLast(_, _, _, _, _) => 5
    case SPublish(_, _, _, _) => 4
    case DNext(_) => 4
    case RHeads(_) => 3
    case RCas(i, wh, sh) => if Current(m, i, wh, sh) then 1 else 2
  }

  lemma WorkerLess(m: Mem, m': Mem, p: nat, pc: Pc, c: Choice)
    requires PcInv(m, p, pc) && Sane(m, pc) && InWorker(pc) && !c.spurious && m' == MemAfter(m, p, pc, c)
    ensures Left(m', WorkerPc(m, pc, c)) < Left(m, pc)
  {
    PcPoint(m, p, pc);
    SanePoint(m, pc);
  }

  lemma BookLess(m: Mem, m': Mem, p: nat, pc: Pc, c: Choice)
    requires QsInv(m.qs) && PcInv(m, p, pc) && Sane(m, pc) && InBook(pc) && !pc.BCount? && !c.spurious
    requires m' == MemAfter(m, p, pc, c)
    ensures Left(m', BookPc(m, pc, c)) < Left(m, pc)
  {
    PcPoint(m, p, pc);
    SanePoint(m, pc);
    assert QInv(m.qs[pc.i]);
  }

  lemma MoveLess(m: Mem, m': Mem, p: nat, pc: Pc, c: Choice)
    requires PcInv(m, p, pc) && Sane(m, pc) && !InWorker(pc) && !InBook(pc) && pc != Idle && !c.spurious
    requires m' == MemAfter(m, p, pc, c)
    ensures Left(m', MovePc(m, pc, c)) < Left(m, pc)
  {
    PcPoint(m, p, pc);
    SanePoint(m, pc);
  }

  lemma StepLess(m: Mem, m': Mem, p: nat, pc: Pc, c: Choice)
    requires QsInv(m.qs) && PcInv(m, p, pc) && Sane(m, pc) && pc != Idle && !pc.BCount? && !c.spurious
    requires m' == MemAfter(m, p, pc, c)
    ensures Left(m', PcAfter(m, pc, c)) < Left(m, pc)
  {
    if InWorker(pc) { WorkerLess(m, m', p, pc, c); }
    else if InBook(pc) { BookLess(m, m', p, pc, c); }
    else { MoveLess(m, m', p, pc, c); }
  }

  lemma AnswerLess(m: Mem, pc: Pc, wanted: nat)
    requires pc.BCount?
    ensures Left(m, Resumed(pc, wanted)) < Left(m, pc)
  {
  }

  /** At most n steps of thread p alone lead from s to the end of the call it is in. */
  ghost predicate Finishes(s: State, p: nat, n: nat) {
    exists t: State, path: seq<Action> ::
      && |path| <= n && StealBreak.Reaches(s, t, path) && (forall i :: 0 <= i < |path| ==> path[i].p == p)
      && p < |t.pcs| && t.pcs[p] == Idle && |t.calls| == |s.calls| && p < |s.calls| && t.calls[p] == s.calls[p]
  }

  lemma Finished(s: State, p: nat)
    requires p < |s.pcs| == |s.calls| && s.pcs[p] == Idle
    ensures Finishes(s, p, 0)
  {
    assert StealBreak.Reaches(s, s, []);
  }

  /** Before those steps, others of the thread that come back to the same waiting calls. */
  lemma Before(s: State, t: State, path: seq<Action>, p: nat, n: nat)
    requires StealBreak.Reaches(s, t, path) && (forall i :: 0 <= i < |path| ==> path[i].p == p) && Finishes(t, p, n)
    requires |t.calls| == |s.calls| && p < |s.calls| && t.calls[p] == s.calls[p]
    ensures Finishes(s, p, |path| + n)
  {
    var u: State, rest: seq<Action> :|
      && |rest| <= n && StealBreak.Reaches(t, u, rest) && (forall i :: 0 <= i < |rest| ==> rest[i].p == p)
      && p < |u.pcs| && u.pcs[p] == Idle && |u.calls| == |t.calls| && p < |t.calls| && u.calls[p] == t.calls[p];
    Joined(s, t, u, path, rest);
  }

  lemma {:induction false} Joined(s: State, t: State, u: State, path: seq<Action>, rest: seq<Action>)
    requires StealBreak.Reaches(s, t, path) && StealBreak.Reaches(t, u, rest)
    ensures StealBreak.Reaches(s, u, path + rest)
    decreases |path|
  {
    if path == [] { assert path + rest == rest; }
    else {
      assert (path + rest)[0] == path[0] && (path + rest)[1..] == path[1..] + rest;
      Joined(Apply(s, path[0]), t, u, path[1..], rest);
    }
  }

  lemma OneStep(s: State, a: Action)
    requires Enabled(s, a) && Sane(s.m, s.pcs[a.p]) && !Harmful(s, a)
    ensures StealBreak.Reaches(s, Apply(s, a), [a])
  {
    assert StealBreak.Reaches(Apply(s, a), Apply(s, a), []);
  }

  /** Where a thread is after its count function has given an answer; a harmful one it does not give. */
  lemma Answered(s: State, p: nat, wanted: nat) returns (t: State, path: seq<Action>)
    requires Inv(s) && p < |s.pcs| && s.pcs[p].BCount?
    ensures Inv(t) && |path| == 2 && StealBreak.Reaches(s, t, path) && forall i :: 0 <= i < |path| ==> path[i].p == p
    ensures t.m == s.m && t.calls == s.calls && |t.pcs| == |s.pcs| && Left(t.m, t.pcs[p]) < Left(s.m, s.pcs[p])
  {
    var pc := s.pcs[p];
    var answer := if BooksBlindly(s.m, pc, wanted) then 0 else wanted;
    InvStep(s, Call(p));
    var u := Apply(s, Call(p));
    assert Waiting(u, p) == pc;
    InvStep(u, Return(p, answer));
    t := Apply(u, Return(p, answer));
    assert t.calls[p] == s.calls[p] && t.calls == s.calls;
    OneStep(s, Call(p));
    OneStep(u, Return(p, answer));
    path := [Call(p)] + [Return(p, answer)];
    Joined(s, u, t, [Call(p)], [Return(p, answer)]);
    AnswerLess(s.m, pc, answer);
  }

  lemma {:induction false} FinishesFrom(s: State, p: nat, wanted: nat)
    requires Inv(s) && p < |s.pcs|
    ensures Finishes(s, p, 2 * Left(s.m, s.pcs[p]))
    decreases Left(s.m, s.pcs[p])
  {
    if s.pcs[p] == Idle { Finished(s, p); }
    else if s.pcs[p].BCount? {
      var t, path := Answered(s, p, wanted);
      FinishesFrom(t, p, wanted);
      Before(s, t, path, p, 2 * Left(t.m, t.pcs[p]));
    } else {
      var x := StealBreak.Fresh(s.m.loc.Keys);
      var a := Go(p, Choice(false, x));
      assert ThreadInv(s.m, p, s.pcs[p]);
      InvStep(s, a);
      StepLess(s.m, Apply(s, a).m, p, s.pcs[p], a.c);
      OneStep(s, a);
      FinishesFrom(Apply(s, a), p, wanted);
      Before(s, Apply(s, a), [a], p, 2 * Left(Apply(s, a).m, Apply(s, a).pcs[p]));
    }
  }

  /** In every reachable state, wherever the others are, a bounded number of steps of its own bring
      every thread to the end of the call it is in, whatever its count function wants. */
  lemma EveryCallCanFinishAlone(r: seq<State>, caps: seq<nat>, own: seq<nat>, k: nat, p: nat, wanted: nat)
    requires Run(r, caps, own) && k < |r| && p < |r[k].pcs|
    ensures Finishes(r[k], p, 2 * Left(r[k].m, r[k].pcs[p]))
  {
    RunKeepsInv(r, caps, own, k);
    FinishesFrom(r[k], p, wanted);
  }
}
