/**
 The callbacks of the work-stealing queues. A count function or iterator that pushes to the very
 queue its call is about to write can break that queue. This module says exactly when.
 */
module StealBreak {
  import opened Basics
  import opened Laps
  import opened StealQueue
  import opened StealInv

  // ---------- broken queues ----------

  /** The queue that a call is writing, and the position where what it has written ends. */
  function Written(pc: Pc): Option<(nat, int)> {
    match pc
    case PFill(i, _, t, _, _) => Some((i, t))
    case PPublish(i, t, _) => Some((i, t))
    case SRead(_, j, _, _, _, dt, k) => Some((j, dt + k))
    case SWrite(_, j, _, _, _, dt, k, _) => Some((j, dt + k))
    case SLast(_, j, _, n, dt) => Some((j, dt + n - 1))
    case SPublish(_, j, _, t) => Some((j, t))
    case _ => None
  }

  predicate WritesBeyond(pc: Pc, i: nat, pos: nat) {
    Written(pc).Some? && Written(pc).value.0 == i && pos < Written(pc).value.1
  }

  /** Some call, under way or waiting for its callback, has written position pos of queue i. */
  ghost predicate Unpublished(s: State, i: nat, pos: nat) {
    || (exists p :: 0 <= p < |s.pcs| && WritesBeyond(s.pcs[p], i, pos))
    || exists p, k :: 0 <= p < |s.calls| && 0 <= k < |s.calls[p]| && WritesBeyond(s.calls[p][k], i, pos)
  }

  /** Somebody may still read position pos of queue i. */
  ghost predicate InUse(s: State, i: nat, pos: nat)
    requires i < |s.m.qs|
  {
    var q := s.m.qs[i];
    || (q.book.Some? && q.book.value.done <= pos < q.book.value.to)
    || q.hold == Some(pos)
    || q.wh <= pos < q.tail
    || (q.tail <= pos && Unpublished(s, i, pos))
  }

  ghost predicate InSlots(s: State, x: Item) {
    exists i, pos: nat :: 0 <= i < |s.m.qs| && InUse(s, i, pos) && Readable(s.m, i, pos) && ItemAt(s.m, i, pos) == x
  }

  ghost predicate InHands(s: State, x: Item) {
    exists p :: 0 <= p < |s.pcs| && Holding(s.pcs[p]) == Some(x)
  }

  /** Item x was pushed and never handed out, and nobody will ever read it. */
  ghost predicate Lost(s: State, x: Item) {
    x in s.m.loc && !s.m.loc[x].Out? && !InSlots(s, x) && !InHands(s, x)
  }

  /** The tail is behind the worker head: a pop would hand out what is not there. */
  predicate TailBehind(m: Mem, i: nat) {
    i < |m.qs| && m.qs[i].tail < m.qs[i].wh
  }

  ghost predicate Broken(s: State) {
    (exists x :: Lost(s, x)) || exists i :: TailBehind(s.m, i)
  }

  // ---------- the invariant rules that out ----------

  lemma FillIsWritten(m: Mem, p: nat, pc: Pc, i: nat)
    requires ThreadInv(m, p, pc) && i < |m.qs| && Owns(m, p, i) && m.qs[i].fill != m.qs[i].tail
    ensures Written(pc) == Some((i, m.qs[i].fill))
  {
    PcPoint(m, p, pc);
  }

  lemma LiveInUse(s: State, i: nat, pos: nat)
    requires Inv(s) && i < |s.m.qs| && Live(s.m.qs[i], pos)
    ensures InUse(s, i, pos)
  {
    var q, p := s.m.qs[i], s.m.own[i];
    assert QInv(q);
    if q.wh <= pos < q.fill && q.tail <= pos {
      assert ThreadInv(s.m, p, s.pcs[p]);
      FillIsWritten(s.m, p, s.pcs[p], i);
      assert WritesBeyond(s.pcs[p], i, pos);
    }
  }

  lemma NothingLost(s: State, x: Item)
    requires Inv(s)
    ensures !Lost(s, x)
  {
    if x in s.m.loc {
      var l := s.m.loc[x];
      match l
      case Out(_) =>
      case Held(p) =>
        assert Holding(s.pcs[p]) == Some(x);
      case At(i, pos) =>
        assert QInv(s.m.qs[i]);
        LiveReadable(s.m, i, pos);
        LiveInUse(s, i, pos);
        assert InSlots(s, x);
    }
  }

  lemma InvIsWhole(s: State)
    requires Inv(s)
    ensures !Broken(s)
  {
    forall x ensures !Lost(s, x) { NothingLost(s, x); }
    forall i | 0 <= i < |s.m.qs| ensures !TailBehind(s.m, i) { assert QInv(s.m.qs[i]); }
  }

  // ---------- continuations ----------

  /** The states that lie ahead of s, with no further harmful callback. */
  ghost predicate Reaches(s: State, t: State, path: seq<Action>)
    decreases |path|
  {
    if path == [] then s == t
    else
      var a := path[0];
      Enabled(s, a) && Sane(s.m, s.pcs[a.p]) && !Harmful(s, a) && Reaches(Apply(s, a), t, path[1..])
  }

  /** Some continuation of s breaks a queue. */
  ghost predicate CanBreak(s: State) {
    exists t, path :: Reaches(s, t, path) && Broken(t)
  }

  lemma {:induction false} StaysWhole(s: State, t: State, path: seq<Action>)
    requires Inv(s) && Reaches(s, t, path)
    ensures Inv(t)
    decreases |path|
  {
    if path != [] {
      InvStep(s, path[0]);
      StaysWhole(Apply(s, path[0]), t, path[1..]);
    }
  }

  lemma BrokenNow(s: State)
    requires Broken(s)
    ensures CanBreak(s)
  {
    assert Reaches(s, s, []);
  }

  lemma Later(s: State, a: Action)
    requires Enabled(s, a) && Sane(s.m, s.pcs[a.p]) && !Harmful(s, a) && CanBreak(Apply(s, a))
    ensures CanBreak(s)
  {
    var t, path :| Reaches(Apply(s, a), t, path) && Broken(t);
    assert ([a] + path)[1..] == path;
    assert Reaches(s, t, [a] + path);
  }

  // ---------- what remains true after a harmful callback ----------

  /** Thread p writes to queues of its own, and not beyond what it has written. */
  predicate Writer(m: Mem, p: nat, pc: Pc) {
    Written(pc).Some? ==>
      var (i, end) := Written(pc).value;
      Owns(m, p, i) && end <= m.qs[i].fill
  }

  predicate Holder(m: Mem, p: nat, pc: Pc) {
    Holding(pc).Some? ==> Holding(pc).value in m.loc && m.loc[Holding(pc).value] == Held(p)
  }

  ghost predicate Waiters(m: Mem, p: nat, calls: seq<Pc>) {
    forall k :: 0 <= k < |calls| ==> Writer(m, p, calls[k])
  }

  ghost predicate Sound(s: State) {
    && MemInv(s.m) && |s.calls| == |s.pcs|
    && (forall p :: 0 <= p < |s.pcs| ==> Writer(s.m, p, s.pcs[p]) && Holder(s.m, p, s.pcs[p]))
    && forall p :: 0 <= p < |s.calls| ==> Waiters(s.m, p, s.calls[p])
  }

  lemma InvWriter(m: Mem, p: nat, pc: Pc)
    requires MemInv(m) && PcInv(m, p, pc)
    ensures Writer(m, p, pc) && Holder(m, p, pc)
  {
    PcPoint(m, p, pc);
  }

  lemma InvSound(s: State)
    requires Inv(s)
    ensures Sound(s)
  {
    forall p | 0 <= p < |s.pcs| ensures Writer(s.m, p, s.pcs[p]) && Holder(s.m, p, s.pcs[p]) {
      assert ThreadInv(s.m, p, s.pcs[p]);
      InvWriter(s.m, p, s.pcs[p]);
    }
    forall p | 0 <= p < |s.calls| ensures Waiters(s.m, p, s.calls[p]) {
      assert WaitInv(s.m, p, s.calls[p]);
    }
  }

  // ---------- two ways to break a queue ----------

  /** Item z is said to be at some position, and the slot of no live position holds it. */
  ghost predicate Gone(m: Mem, m': Mem, z: Item) {
    && z in m'.loc && m'.loc[z].At?
    && forall i, u: nat :: 0 <= i < |m.qs| && Live(m.qs[i], u) && Readable(m', i, u) ==> ItemAt(m', i, u) != z
  }

  /** A write before the end of what is written: the item of the live position with that slot is
      gone or, if there is none, the item written. */
  lemma PutOver(m: Mem, m': Mem, i: nat, pos: nat, x: Item) returns (z: Item)
    requires MemInv(m) && i < |m.qs| && m.qs[i].WellFormed() && (x in m.loc ==> m.loc[x].Held?)
    requires m' == MoveItem(m, i, Put(m.qs[i], pos, x), x, At(i, pos))
    ensures Gone(m, m', z) && (z == x || (z in m.loc && m.loc[z].At?))
  {
    var q := m.qs[i];
    z := x;
    if u: nat :| Live(q, u) && Idx(u, q.cap) == Idx(pos, q.cap) {
      assert QInv(q);
      z := q.cont[u];
    }
    forall j, u: nat | 0 <= j < |m.qs| && Live(m.qs[j], u) && Readable(m', j, u) ensures ItemAt(m', j, u) != z {
      LiveReadable(m, j, u);
      TakenWasAt(m, j, u);
    }
  }

  /** Heads, tails and bookings are the same. */
  predicate SameUse(m: Mem, m': Mem) {
    && |m'.qs| == |m.qs|
    && forall i :: 0 <= i < |m.qs| ==>
         && m'.qs[i].wh == m.qs[i].wh && m'.qs[i].tail == m.qs[i].tail
         && m'.qs[i].book == m.qs[i].book && m'.qs[i].hold == m.qs[i].hold
  }

  /** In t nobody can read more than what is live in m. */
  ghost predicate UsesLive(m: Mem, t: State) {
    forall i, u: nat :: 0 <= i < |t.m.qs| && InUse(t, i, u) ==> i < |m.qs| && Live(m.qs[i], u)
  }

  lemma SameUsesLive(m: Mem, t: State)
    requires QsInv(m.qs) && SameUse(m, t.m)
    requires forall p :: 0 <= p < |t.pcs| ==> Writer(m, p, t.pcs[p])
    requires forall p :: 0 <= p < |t.calls| ==> Waiters(m, p, t.calls[p])
    ensures UsesLive(m, t)
  {
    forall i, u: nat | 0 <= i < |t.m.qs| && InUse(t, i, u) ensures i < |m.qs| && Live(m.qs[i], u) {
      assert QInv(m.qs[i]);
    }
  }

  lemma GoneIsLost(m: Mem, t: State, z: Item)
    requires Gone(m, t.m, z) && UsesLive(m, t) && |t.m.qs| == |m.qs| && !InHands(t, z)
    ensures Broken(t)
  {
    assert Lost(t, z);
  }

  /** Thread p has written item x at a position that it, or a call around, had passed. */
  lemma PutBreaks(s: State, t: State, p: nat, i: nat, pos: nat, x: Item)
    requires Sound(s) && p < |s.pcs| && i < |s.m.qs| && s.m.qs[i].WellFormed() && pos < s.m.qs[i].fill
    requires x in s.m.loc ==> s.m.loc[x] == Held(p)
    requires t.m == MoveItem(s.m, i, Put(s.m.qs[i], pos, x), x, At(i, pos))
    requires |t.pcs| == |s.pcs| && t.pcs == s.pcs[p := t.pcs[p]] && t.calls == s.calls
    requires Holding(t.pcs[p]) == None && Writer(s.m, p, t.pcs[p])
    ensures Broken(t)
  {
    var z := PutOver(s.m, t.m, i, pos, x);
    forall q | 0 <= q < |t.pcs| ensures Writer(s.m, q, t.pcs[q]) && Holding(t.pcs[q]) != Some(z) {
      if q != p { assert Writer(s.m, q, s.pcs[q]) && Holder(s.m, q, s.pcs[q]); }
    }
    SameUsesLive(s.m, t);
    GoneIsLost(s.m, t, z);
  }

  /** A thread is about to store a tail of queue j that is behind the one there. */
  lemma TailBack(s: State, p: nat, c: Choice, j: nat, t: nat)
    requires Sound(s) && p < |s.pcs| && Sane(s.m, s.pcs[p]) && j < |s.m.qs| && Enabled(s, Go(p, c))
    requires MemAfter(s.m, p, s.pcs[p], c) == SetQueue(s.m, j, s.m.qs[j].(tail := t))
    requires Owns(s.m, p, j) && t < s.m.qs[j].tail && Written(PcAfter(s.m, s.pcs[p], c)) == None
    requires Holding(PcAfter(s.m, s.pcs[p], c)) == None
    requires forall k :: 0 <= k < |s.calls[p]| ==> Written(s.calls[p][k]) == None
    ensures CanBreak(s)
  {
    var s' := Apply(s, Go(p, c));
    var q := s.m.qs[j];
    assert QInv(q);
    if t < q.wh {
      assert TailBehind(s'.m, j);
    } else {
      var z := q.cont[t];
      assert s.m.loc[z] == At(j, t);
      forall r | 0 <= r < |s'.pcs| ensures Holding(s'.pcs[r]) != Some(z) {
        if r != p { assert Holder(s.m, r, s.pcs[r]); }
      }
      BackUses(s, s', p, j, t);
      assert !InSlots(s', z) by {
        forall i, u: nat | 0 <= i < |s'.m.qs| && InUse(s', i, u) && Readable(s'.m, i, u)
          ensures ItemAt(s'.m, i, u) != z
        {
          LiveReadable(s.m, i, u);
          TakenWasAt(s.m, i, u);
        }
      }
      assert Lost(s', z);
    }
    BrokenNow(s');
    Later(s, Go(p, c));
  }

  lemma BackUses(s: State, s': State, p: nat, j: nat, t: nat)
    requires Sound(s) && p < |s.pcs| && j < |s.m.qs| && s'.m == SetQueue(s.m, j, s.m.qs[j].(tail := t))
    requires Owns(s.m, p, j) && s.m.qs[j].wh <= t < s.m.qs[j].tail
    requires |s'.pcs| == |s.pcs| && Written(s'.pcs[p]) == None && s'.pcs == s.pcs[p := s'.pcs[p]] && s'.calls == s.calls
    requires forall k :: 0 <= k < |s.calls[p]| ==> Written(s.calls[p][k]) == None
    ensures forall i, u: nat :: 0 <= i < |s'.m.qs| && InUse(s', i, u) ==> Live(s.m.qs[i], u) && (i, u) != (j, t)
  {
    forall i, u: nat | 0 <= i < |s'.m.qs| && InUse(s', i, u) ensures Live(s.m.qs[i], u) && (i, u) != (j, t) {
      assert QInv(s.m.qs[i]);
      if Unpublished(s', i, u) {
        if i == j {
          NobodyElse(s, s', p, j, u);
        }
      }
    }
  }

  lemma NobodyElse(s: State, s': State, p: nat, j: nat, u: nat)
    requires Sound(s) && p < |s.pcs| && j < |s.m.qs| && Owns(s.m, p, j)
    requires |s'.pcs| == |s.pcs| && Written(s'.pcs[p]) == None && s'.pcs == s.pcs[p := s'.pcs[p]] && s'.calls == s.calls
    requires forall k :: 0 <= k < |s.calls[p]| ==> Written(s.calls[p][k]) == None
    ensures !Unpublished(s', j, u)
  {
    forall q | 0 <= q < |s'.pcs| ensures !WritesBeyond(s'.pcs[q], j, u) {
      if q != p { assert Writer(s.m, q, s.pcs[q]); }
    }
    forall q, k | 0 <= q < |s'.calls| && 0 <= k < |s'.calls[q]| ensures !WritesBeyond(s'.calls[q][k], j, u) {
      assert Waiters(s.m, q, s.calls[q]);
    }
  }

  /** No call of the thread that waits for its callback has written anything. */
  ghost predicate NothingWaiting(calls: seq<Pc>) {
    forall k :: 0 <= k < |calls| ==> Written(calls[k]) == None
  }

  lemma FillBreaks(s: State, p: nat, x: Item)
    requires Sound(s) && p < |s.pcs| && s.pcs[p].PFill? && Enabled(s, Go(p, Choice(false, x)))
    requires Owns(s.m, p, s.pcs[p].i) && s.pcs[p].n > 0 && s.pcs[p].t < s.m.qs[s.pcs[p].i].fill
    ensures CanBreak(s)
  {
    var a := Go(p, Choice(false, x));
    assert QInv(s.m.qs[s.pcs[p].i]);
    PutBreaks(s, Apply(s, a), p, s.pcs[p].i, s.pcs[p].t, x);
    BrokenNow(Apply(s, a));
    Later(s, a);
  }

  lemma WriteBreaks(s: State, p: nat)
    requires Sound(s) && p < |s.pcs| && s.pcs[p].SWrite? && Owns(s.m, p, s.pcs[p].j)
    requires s.pcs[p].dt + s.pcs[p].k < s.m.qs[s.pcs[p].j].fill && s.pcs[p].k < Moved(s.pcs[p].pop, s.pcs[p].n)
    ensures CanBreak(s)
  {
    var pc, a := s.pcs[p], Go(p, Choice(false, 0));
    assert QInv(s.m.qs[pc.j]);
    assert Holder(s.m, p, pc);
    PutBreaks(s, Apply(s, a), p, pc.j, pc.dt + pc.k, pc.x);
    BrokenNow(Apply(s, a));
    Later(s, a);
  }

  // ---------- a booking under a stale tail ----------

  /** What thread p does to others. */
  ghost predicate Leaves(m: Mem, m': Mem, p: nat) {
    && m'.own == m.own && |m'.qs| == |m.qs| && (forall i :: 0 <= i < |m.qs| ==> m.qs[i].fill <= m'.qs[i].fill)
    && Untouched(m.loc, m'.loc, p)
  }

  lemma SoundStep(s: State, t: State, p: nat)
    requires Sound(s) && MemInv(t.m) && p < |s.pcs| == |t.pcs| && Leaves(s.m, t.m, p)
    requires t.pcs == s.pcs[p := t.pcs[p]] && t.calls == s.calls
    requires Writer(t.m, p, t.pcs[p]) && Holder(t.m, p, t.pcs[p])
    ensures Sound(t)
  {
    forall q | 0 <= q < |t.pcs| ensures Writer(t.m, q, t.pcs[q]) && Holder(t.m, q, t.pcs[q]) {
      if q != p { assert Writer(s.m, q, s.pcs[q]) && Holder(s.m, q, s.pcs[q]); }
    }
    forall q | 0 <= q < |t.calls| ensures Waiters(t.m, q, t.calls[q]) {
      assert Waiters(s.m, q, s.calls[q]);
    }
  }

  /** Thread p, with its booking of queue i just made, will write to its queue j before the tail. */
  predicate Astray(m: Mem, p: nat, i: nat, j: nat, dt: nat, from: nat) {
    && i < |m.qs| && m.qs[i].book.Some? && m.qs[i].book.value.thief == Some(p)
    && m.qs[i].book.value.done == from < m.qs[i].book.value.to
    && Owns(m, p, j) && dt < m.qs[j].tail
  }

  lemma AstrayReadable(m: Mem, p: nat, i: nat, j: nat, dt: nat, from: nat)
    requires MemInv(m) && Astray(m, p, i, j, dt, from)
    ensures Readable(m, i, from) && ItemAt(m, i, from) in m.loc && m.loc[ItemAt(m, i, from)] == At(i, from)
    ensures m.qs[j].tail <= m.qs[j].fill
  {
    assert QInv(m.qs[i]) && QInv(m.qs[j]);
    LiveReadable(m, i, from);
    TakenWasAt(m, i, from);
  }

  /** It takes the first item it booked. */
  lemma AstrayTakes(m: Mem, m': Mem, p: nat, i: nat, j: nat, dt: nat, from: nat, l: Loc)
    requires MemInv(m) && Astray(m, p, i, j, dt, from) && Readable(m, i, from) && (l == Held(p) || l == Out(p))
    requires m' == MoveItem(m, i, TakeBooked(m.qs[i], from), ItemAt(m, i, from), l)
    ensures MemInv(m') && Leaves(m, m', p) && Owns(m', p, j) && dt < m'.qs[j].tail <= m'.qs[j].fill
  {
    AstrayReadable(m, p, i, j, dt, from);
    TakeBookedKeeps(m, m', p, i, from, l);
  }

  /** Thread p is about to take that item. */
  ghost predicate Taking(s: State, p: nat, pc: Pc) {
    && Sound(s) && p < |s.pcs| && s.pcs[p] == pc && Sane(s.m, pc) && NothingWaiting(s.calls[p])
    && ((pc.SRead? && pc.k == 0 < Moved(pc.pop, pc.n)) || (pc.SLast? && pc.n == 1))
    && Astray(s.m, p, pc.i, pc.j, pc.dt, pc.from)
  }

  lemma AstraySane(m: Mem, p: nat, pc: Pc)
    requires MemInv(m) && ((pc.SRead? && pc.k == 0) || (pc.SLast? && pc.n == 1))
    requires Astray(m, p, pc.i, pc.j, pc.dt, pc.from)
    ensures Sane(m, pc)
  {
    AstrayReadable(m, p, pc.i, pc.j, pc.dt, pc.from);
  }

  /** Where it goes on with the item. */
  function TookPc(pc: Pc, x: Item): Pc
    requires pc.SRead? || pc.SLast?
  {
    if pc.SRead? then SWrite(pc.i, pc.j, pc.pop, pc.from, pc.n, pc.dt, 0, x) else SPublish(pc.i, pc.j, pc.dt, pc.dt)
  }

  function TookTo(p: nat, pc: Pc): Loc {
    if pc.SRead? then Held(p) else Out(p)
  }

  lemma TakingIs(s: State, p: nat, pc: Pc, t: State)
    requires Taking(s, p, pc) && t == Apply(s, Go(p, Choice(false, 0)))
    ensures Readable(s.m, pc.i, pc.from)
    ensures var x := ItemAt(s.m, pc.i, pc.from);
            && t.m == MoveItem(s.m, pc.i, TakeBooked(s.m.qs[pc.i], pc.from), x, TookTo(p, pc))
            && t.calls == s.calls && t.pcs == s.pcs[p := TookPc(pc, x)]
  {
    SanePoint(s.m, pc);
  }

  lemma TookWriter(m: Mem, p: nat, pc: Pc, x: Item)
    requires (pc.SRead? || pc.SLast?) && Owns(m, p, pc.j) && pc.dt < m.qs[pc.j].fill
    requires x in m.loc && m.loc[x] == TookTo(p, pc)
    ensures Writer(m, p, TookPc(pc, x)) && Holder(m, p, TookPc(pc, x))
  {
  }

  lemma TakingSound(s: State, p: nat, pc: Pc, t: State, x: Item)
    requires Taking(s, p, pc) && Readable(s.m, pc.i, pc.from) && x == ItemAt(s.m, pc.i, pc.from)
    requires t.m == MoveItem(s.m, pc.i, TakeBooked(s.m.qs[pc.i], pc.from), x, TookTo(p, pc))
             && t.calls == s.calls && t.pcs == s.pcs[p := TookPc(pc, x)]
    ensures Sound(t) && Owns(t.m, p, pc.j) && pc.dt < t.m.qs[pc.j].tail <= t.m.qs[pc.j].fill
  {
    AstrayTakes(s.m, t.m, p, pc.i, pc.j, pc.dt, pc.from, TookTo(p, pc));
    TookWriter(t.m, p, pc, x);
    SoundStep(s, t, p);
  }

  /** It writes that item before the tail, or stores a tail before the tail. */
  lemma TookBreaks(t: State, p: nat, pc: Pc, x: Item)
    requires Sound(t) && p < |t.pcs| && (pc.SRead? || pc.SLast?) && t.pcs[p] == TookPc(pc, x)
    requires (pc.SRead? ==> 0 < Moved(pc.pop, pc.n)) && NothingWaiting(t.calls[p])
    requires Owns(t.m, p, pc.j) && pc.dt < t.m.qs[pc.j].tail <= t.m.qs[pc.j].fill
    requires pc.i < |t.m.qs|
    ensures CanBreak(t)
  {
    if pc.SRead? { WriteBreaks(t, p); } else { TailBack(t, p, Choice(false, 0), pc.j, pc.dt); }
  }

  lemma TakingBreaks(s: State, p: nat, pc: Pc)
    requires Taking(s, p, pc)
    ensures CanBreak(s)
  {
    var a := Go(p, Choice(false, 0));
    var t := Apply(s, a);
    TakingIs(s, p, pc, t);
    TakingSound(s, p, pc, t, ItemAt(s.m, pc.i, pc.from));
    TookBreaks(t, p, pc, ItemAt(s.m, pc.i, pc.from));
    Later(s, a);
  }

  lemma BookingBreaks(s: State, p: nat)
    requires Sound(s) && p < |s.pcs| && s.pcs[p].BCas? && s.pcs[p].job.Steal? && NothingWaiting(s.calls[p])
    requires s.pcs[p].i < |s.m.qs| && HeadsAre(s.m.qs[s.pcs[p].i], s.pcs[p].wh, s.pcs[p].wh)
    requires 1 <= s.pcs[p].n && s.pcs[p].wh + s.pcs[p].n <= s.m.qs[s.pcs[p].i].tail
    requires Owns(s.m, p, s.pcs[p].job.j) && s.pcs[p].job.dt < s.m.qs[s.pcs[p].job.j].tail
    ensures CanBreak(s)
  {
    var pc, a := s.pcs[p], Go(p, Choice(false, 0));
    assert QInv(s.m.qs[pc.i]) && QInv(s.m.qs[pc.job.j]);
    var t := Apply(s, a);
    BookKeeps(s.m, t.m, p, pc.i, Some(p), pc.n);
    assert QInv(t.m.qs[pc.job.j]);
    SoundStep(s, t, p);
    AstraySane(t.m, p, t.pcs[p]);
    TakingBreaks(t, p, t.pcs[p]);
    Later(s, a);
  }

  lemma AnswerBreaks(s: State, p: nat, wanted: nat)
    requires Inv(s) && Enabled(s, Return(p, wanted)) && Sane(s.m, s.pcs[p]) && Harmful(s, Return(p, wanted))
    ensures CanBreak(Apply(s, Return(p, wanted)))
  {
    var pc, t := Waiting(s, p), Apply(s, Return(p, wanted));
    assert WaitInv(s.m, p, s.calls[p]);
    PcPoint(s.m, p, pc);
    InvSound(s);
    forall q | 0 <= q < |t.calls| ensures Waiters(t.m, q, t.calls[q]) {
      assert Waiters(s.m, q, s.calls[q]);
    }
    BookingBreaks(t, p);
  }

  // ---------- a push into a queue that is being extended ----------

  lemma Fresh(used: set<Item>) returns (x: Item)
    ensures forall y :: y in used ==> y < x
  {
    x := 0;
    if used != {} {
      var y :| y in used;
      x := Fresh(used - {y});
      if x <= y { x := y + 1; }
      assert forall z :: z in used ==> z == y || z in used - {y};
    }
  }

  /** The call that waits goes on and overwrites or hides what was pushed. */
  lemma ResumedBreaks(s: State, p: nat)
    requires Sound(s) && p < |s.pcs| && s.pcs[p] == Idle && s.calls[p] != []
    requires InExtend(Waiting(s, p)) && Owns(s.m, p, Waiting(s, p).i) && Waiting(s, p).t < s.m.qs[Waiting(s, p).i].tail
    requires (Waiting(s, p).PFill? ==> Waiting(s, p).n > 0) && NothingWaiting(s.calls[p][..|s.calls[p]| - 1])
    ensures CanBreak(s)
  {
    var pc, a := Waiting(s, p), Return(p, 0);
    var t := Apply(s, a);
    assert QInv(s.m.qs[pc.i]);
    assert Waiters(s.m, p, s.calls[p]);
    assert Sound(t) by {
      forall q | 0 <= q < |t.calls| ensures Waiters(t.m, q, t.calls[q]) {
        assert Waiters(s.m, q, s.calls[q]);
      }
    }
    if pc.PFill? {
      var x := Fresh(t.m.loc.Keys);
      FillBreaks(t, p, x);
    } else {
      TailBack(t, p, Choice(false, 0), pc.i, pc.t);
    }
    Later(s, a);
  }

  /** Thread p pushes within an extend that has written nothing yet. */
  ghost predicate PushesFirst(s: State, p: nat, pc: Pc, i: nat, t: nat) {
    && p < |s.pcs| && s.pcs[p] == pc && Owns(s.m, p, i) && p < |s.calls| && s.calls[p] != []
    && InExtend(Waiting(s, p)) && Waiting(s, p).i == i && Waiting(s, p).t == t
    && (Waiting(s, p).PFill? ==> Waiting(s, p).n > 0) && NothingWaiting(s.calls[p][..|s.calls[p]| - 1])
  }

  lemma PublishedFirst(s: State, p: nat, i: nat, t: nat)
    requires Sound(s) && PushesFirst(s, p, PPublish(i, t + 1, true), i, t) && Fills(s.m, p, i, t + 1, t + 1)
    ensures CanBreak(s)
  {
    var a := Go(p, Choice(false, 0));
    var u := Apply(s, a);
    PublishKeeps(s.m, u.m, p, i, t + 1);
    SoundStep(s, u, p);
    ResumedBreaks(u, p);
    Later(s, a);
  }

  /** The pushed item is written, and then published. */
  lemma PushedFirst(s: State, p: nat, i: nat, t: nat, limit: nat, x: Item)
    requires Sound(s) && PushesFirst(s, p, PFill(i, 1, t, limit, true), i, t)
    requires Fills(s.m, p, i, t, limit) && t < limit && s.m.qs[i].hold == None && x !in s.m.loc
    ensures CanBreak(s)
  {
    var a := Go(p, Choice(false, x));
    assert QInv(s.m.qs[i]);
    var u := Apply(s, a);
    PutKeeps(s.m, u.m, p, i, t, limit, x);
    SoundStep(s, u, p);
    PublishedFirst(u, p, i, t);
    Later(s, a);
  }

  lemma IterPushBreaks(s: State, p: nat)
    requires Inv(s) && Enabled(s, IterPush(p)) && Sane(s.m, s.pcs[p]) && Harmful(s, IterPush(p))
    ensures CanBreak(Apply(s, IterPush(p)))
  {
    var pc, t := s.pcs[p], Apply(s, IterPush(p));
    var q := s.m.qs[pc.i];
    assert ThreadInv(s.m, p, pc) && QInv(q);
    PcPoint(s.m, p, pc);
    InvSound(s);
    assert WaitInv(s.m, p, s.calls[p]);
    assert t.calls[p][..|t.calls[p]| - 1] == s.calls[p];
    assert Waiters(s.m, p, t.calls[p]);
    assert Sound(t) by {
      forall q | 0 <= q < |t.calls| ensures Waiters(t.m, q, t.calls[q]) {
        assert Waiters(s.m, q, s.calls[q]);
      }
    }
    var x := Fresh(t.m.loc.Keys);
    if q.tail < q.fill { FillBreaks(t, p, x); } else { PushedFirst(t, p, pc.i, q.tail, q.sh + q.cap, x); }
  }

  // ---------- the exact condition ----------

  /** After an action in a reachable state some continuation breaks a queue, if and only if the
      action is a harmful callback: a count function's answer that makes a steal book items under
      the heads it loaded, the tail of its destination having moved since; or a push that an
      iterator makes to the queue being extended and that is not refused. */
  lemma BreaksIffHarmful(r: seq<State>, caps: seq<nat>, own: seq<nat>, k: nat, a: Action)
    requires Run(r, caps, own) && k < |r| && Enabled(r[k], a)
    ensures Sane(r[k].m, r[k].pcs[a.p])
    ensures CanBreak(Apply(r[k], a)) <==> Harmful(r[k], a)
  {
    RunKeepsInv(r, caps, own, k);
    InvStep(r[k], a);
    if Harmful(r[k], a) {
      if a.Return? { AnswerBreaks(r[k], a.p, a.wanted); } else { IterPushBreaks(r[k], a.p); }
    } else {
      forall t, path | Reaches(Apply(r[k], a), t, path) ensures !Broken(t) {
        StaysWhole(Apply(r[k], a), t, path);
        InvIsWhole(t);
      }
    }
  }

  // ---------- both occur ----------

  lemma Extend(r: seq<State>, caps: seq<nat>, own: seq<nat>, a: Action) returns (r': seq<State>)
    requires Run(r, caps, own) && Enabled(r[|r| - 1], a) && !Harmful(r[|r| - 1], a)
    ensures Sane(r[|r| - 1].m, r[|r| - 1].pcs[a.p])
    ensures Run(r', caps, own) && |r'| == |r| + 1 && r'[|r|] == Apply(r[|r| - 1], a)
  {
    RunKeepsInv(r, caps, own, |r| - 1);
    InvStep(r[|r| - 1], a);
    r' := r + [Apply(r[|r| - 1], a)];
    assert Next(r[|r| - 1], r'[|r|]);
  }

  /** A queue of capacity 1 with one item. */
  function OneItem(x: Item): Queue {
    Queue(1, 0, 0, 1, [Some(x)], 1, None, None, map[0 := x])
  }

  /** Thread p, idle, pushes an item to its empty queue i. */
  lemma PushOne(r: seq<State>, caps: seq<nat>, own: seq<nat>, p: nat, i: nat, x: Item) returns (r': seq<State>)
    requires Run(r, caps, own)
    requires var s := r[|r| - 1];
             && p < |s.pcs| == |s.calls| && s.pcs[p] == Idle && Owns(s.m, p, i) && s.m.qs[i] == EmptyQueue(1)
             && x !in s.m.loc
    ensures Run(r', caps, own) && |r'| > |r|
    ensures var s, t := r[|r| - 1], r'[|r'| - 1];
            t.calls == s.calls && t.pcs == s.pcs && t.m == MoveItem(s.m, i, OneItem(x), x, At(i, 0))
  {
    var c := Choice(false, x);
    var s := r[|r| - 1];
    r' := Extend(r, caps, own, StartPush(p, i, 1, true));
    r' := Extend(r', caps, own, Go(p, c));
    assert r'[|r'| - 1] == s.(pcs := s.pcs[p := PFill(i, 1, 0, 1, true)]);
    r' := Extend(r', caps, own, Go(p, c));
    assert r'[|r'| - 1].pcs == s.pcs[p := PPublish(i, 1, true)];
    r' := Extend(r', caps, own, Go(p, c));
    assert r'[|r'| - 1].m.qs[i] == OneItem(x);
    assert r'[|r'| - 1].pcs == s.pcs;
  }

  const TwoQueues: Mem := Mem([OneItem(7), EmptyQueue(1)], [0, 1], map[7 := At(0, 0)])

  /** Thread 1 starts to steal from queue 0, with one item, into its own empty queue. */
  lemma LookedRun() returns (r: seq<State>)
    ensures Run(r, [1, 1], [0, 1]) && r[|r| - 1] == State(TwoQueues, [Idle, SDest(0, 1, false)], [[], []])
  {
    var c := Choice(false, 0);
    r := [Initial([1, 1], [0, 1], 2)];
    r := PushOne(r, [1, 1], [0, 1], 0, 0, 7);
    assert r[|r| - 1] == State(TwoQueues, [Idle, Idle], [[], []]);
    r := Extend(r, [1, 1], [0, 1], StartSteal(1, 0, 1, false));
    r := Extend(r, [1, 1], [0, 1], Go(1, c));
    r := Extend(r, [1, 1], [0, 1], Go(1, c));
  }

  /** It is about to call its count function. */
  lemma AskedRun() returns (r: seq<State>)
    ensures Run(r, [1, 1], [0, 1])
    ensures r[|r| - 1] == State(TwoQueues, [Idle, BCount(0, Steal(1, false, 0, 1), 0, 1)], [[], []])
  {
    var c := Choice(false, 0);
    r := LookedRun();
    r := Extend(r, [1, 1], [0, 1], Go(1, c));
    r := Extend(r, [1, 1], [0, 1], Go(1, c));
    r := Extend(r, [1, 1], [0, 1], Go(1, c));
  }

  /** A count function that pushes to the destination and then asks for an item. */
  lemma CountFunctionCanBreak()
    ensures exists r: seq<State>, k: nat ::
              Run(r, [1, 1], [0, 1]) && k < |r| && Enabled(r[k], Return(1, 1)) && Sane(r[k].m, r[k].pcs[1])
              && CanBreak(Apply(r[k], Return(1, 1)))
  {
    var r := AskedRun();
    r := Extend(r, [1, 1], [0, 1], Call(1));
    r := PushOne(r, [1, 1], [0, 1], 1, 1, 8);
    BreaksIffHarmful(r, [1, 1], [0, 1], |r| - 1, Return(1, 1));
  }

  /** An iterator that pushes to the queue that its item is for. */
  lemma IteratorCanBreak()
    ensures exists r: seq<State>, k: nat ::
              Run(r, [1], [0]) && k < |r| && Enabled(r[k], IterPush(0)) && Sane(r[k].m, r[k].pcs[0])
              && CanBreak(Apply(r[k], IterPush(0)))
  {
    var r := [Initial([1], [0], 1)];
    r := Extend(r, [1], [0], StartPush(0, 0, 1, false));
    r := Extend(r, [1], [0], Go(0, Choice(false, 0)));
    BreaksIffHarmful(r, [1], [0], |r| - 1, IterPush(0));
  }
}
