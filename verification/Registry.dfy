/**
 The multi-waiter registry as its lock holder runs it: a queue of stamped entries for waker
 nodes, and a flag that tells whether the queue has any. Entries refer to their nodes weakly:
 a node may be dead. Stamps come from a process-wide counter.
 */
module Registry {
  import opened Basics
  import opened Waker

  datatype Entry = Entry(node: WakerInner, stamp: nat)

  /** A node to wake outside the lock; `committed` if it was waiting when it was collected. */
  datatype Pick = Pick(node: WakerInner, committed: bool, stamp: nat)

  type Words = map<WakerInner, nat>

  ghost predicate Sorted(q: seq<Entry>) {
    forall i, j :: 0 <= i < j < |q| ==> q[i].stamp < q[j].stamp
  }

  /** The entry is for the current registration of a live node. */
  ghost predicate Current(e: Entry, words: Words, live: set<WakerInner>) {
    e.node in words && e.node in live && SeqOf(words[e.node]) == e.stamp
  }

  // ---------- firing, one entry at a time ----------

  /** The queue and the words after n events: each event goes to one waiting node; dead and
      outdated entries are dropped, and other current ones woken, on the way. */
  ghost function Fired(q: seq<Entry>, words: Words, live: set<WakerInner>, n: nat): (seq<Entry>, Words) {
    if n == 0 || q == [] then (q, words)
    else if !Current(q[0], words, live) then Fired(q[1..], words, live, n)
    else
      var w := words[q[0].node];
      var words' := words[q[0].node := AfterWake(w, Some(q[0].stamp))];
      Fired(q[1..], words', live, if StateOf(w) == WAITING then n - 1 else n)
  }

  /** How many of n events are delivered. */
  ghost function Delivered(q: seq<Entry>, words: Words, live: set<WakerInner>, n: nat): (k: nat)
    ensures k <= n
  {
    if n == 0 || q == [] then 0
    else if !Current(q[0], words, live) then Delivered(q[1..], words, live, n)
    else
      var w := words[q[0].node];
      var words' := words[q[0].node := AfterWake(w, Some(q[0].stamp))];
      if StateOf(w) == WAITING then 1 + Delivered(q[1..], words', live, n - 1) else Delivered(q[1..], words', live, n)
  }

  // ---------- what a fire must do ----------

  /** The entry is the current registration of a live node that nobody has woken or closed. */
  ghost predicate Awaits(e: Entry, words: Words, live: set<WakerInner>) {
    e.node in words && e.node in live && SeqOf(words[e.node]) == e.stamp && StateOf(words[e.node]) <= WAITING
  }

  /** And the node is committed to its wait. */
  ghost predicate Waits(e: Entry, words: Words, live: set<WakerInner>) {
    Awaits(e, words, live) && StateOf(words[e.node]) == WAITING
  }

  /** How many entries are of committed waiters. */
  ghost function Waiters(q: seq<Entry>, words: Words, live: set<WakerInner>): nat {
    if q == [] then 0 else (if Waits(q[0], words, live) then 1 else 0) + Waiters(q[1..], words, live)
  }

  /** The first k entries' nodes get state st if they await a wake, and no other node changes. */
  ghost predicate Reached(q: seq<Entry>, words: Words, live: set<WakerInner>, k: nat, st: nat, words': Words)
    requires k <= |q| && st < 256
  {
    && words'.Keys == words.Keys
    && (forall i :: 0 <= i < k && Awaits(q[i], words, live) ==>
          words'[q[i].node] == WithState(words[q[i].node], st))
    && (forall x :: x in words && words'[x] != words[x] ==>
          exists i :: 0 <= i < k && q[i].node == x && Awaits(q[i], words, live))
  }

  /** Firing for n events takes entries from the front up to the n-th committed waiter, or all if
      there are fewer, and wakes exactly the nodes of those that await a wake. */
  ghost predicate FireSpec(q: seq<Entry>, words: Words, live: set<WakerInner>, n: nat, q': seq<Entry>, words': Words) {
    && |q'| <= |q| && q' == q[|q| - |q'|..]
    && Reached(q, words, live, |q| - |q'|, WOKEN, words')
    && if Waiters(q, words, live) < n then q' == []
       else
         var k := |q| - |q'|;
         Waiters(q[..k], words, live) == n && (k > 0 ==> Waits(q[k - 1], words, live))
  }

  /** Waking the first entry's node changes no later entry. */
  lemma LaterSame(q: seq<Entry>, words: Words, live: set<WakerInner>, w: nat)
    requires q != [] && Sorted(q) && q[0].node in words && SeqOf(words[q[0].node]) == q[0].stamp == SeqOf(w)
    ensures forall i :: 1 <= i < |q| ==>
              (Awaits(q[i], words[q[0].node := w], live) <==> Awaits(q[i], words, live))
              && (Waits(q[i], words[q[0].node := w], live) <==> Waits(q[i], words, live))
  {
  }

  lemma {:induction false} WaitersSame(q: seq<Entry>, words: Words, words': Words, live: set<WakerInner>)
    requires forall i :: 0 <= i < |q| ==> (Waits(q[i], words', live) <==> Waits(q[i], words, live))
    ensures Waiters(q, words', live) == Waiters(q, words, live)
    decreases |q|
  {
    if q != [] { WaitersSame(q[1..], words, words', live); }
  }

  /** One more entry in front, whose node changed from words to words1. */
  lemma ReachedOneMore(q: seq<Entry>, words: Words, words1: Words, live: set<WakerInner>, k: nat, st: nat,
      words': Words)
    requires q != [] && Sorted(q) && k < |q| && st < 256 && Reached(q[1..], words1, live, k, st, words')
    requires if Awaits(q[0], words, live)
             then words1 == words[q[0].node := WithState(words[q[0].node], st)] && st > WAITING
             else words1 == words
    ensures Reached(q, words, live, k + 1, st, words')
  {
    if Awaits(q[0], words, live) {
      LaterSame(q, words, live, WithState(words[q[0].node], st));
      assert !Awaits(q[0], words1, live);
    }
    forall i | 0 <= i < k + 1 && Awaits(q[i], words, live)
      ensures words'[q[i].node] == WithState(words[q[i].node], st)
    {
      if i > 0 { assert q[i] == q[1..][i - 1]; }
    }
    forall x | x in words && words'[x] != words[x]
      ensures exists i :: 0 <= i < k + 1 && q[i].node == x && Awaits(q[i], words, live)
    {
      if words'[x] != words1[x] {
        var j :| 0 <= j < k && q[1..][j].node == x && Awaits(q[1..][j], words1, live);
        assert q[j + 1] == q[1..][j];
      } else { assert q[0].node == x; }
    }
  }

  /** The words after the first entry is woken, if it is current. */
  ghost function Woken1(q: seq<Entry>, words: Words, live: set<WakerInner>): Words
    requires q != []
  {
    var e := q[0];
    if Current(e, words, live) then words[e.node := AfterWake(words[e.node], Some(e.stamp))] else words
  }

  lemma Woken1Is(q: seq<Entry>, words: Words, live: set<WakerInner>)
    requires q != [] && Sorted(q)
    ensures var words1 := Woken1(q, words, live);
            && (if Awaits(q[0], words, live) then words1 == words[q[0].node := WithState(words[q[0].node], WOKEN)]
                else words1 == words)
            && (forall i :: 1 <= i < |q| ==> (Waits(q[i], words1, live) <==> Waits(q[i], words, live)))
  {
    if Current(q[0], words, live) { LaterSame(q, words, live, Woken1(q, words, live)[q[0].node]); }
  }

  lemma {:induction false} DeliveredIs(q: seq<Entry>, words: Words, live: set<WakerInner>, n: nat)
    requires Sorted(q)
    ensures Delivered(q, words, live, n) == if Waiters(q, words, live) < n then Waiters(q, words, live) else n
    decreases |q|
  {
    if n > 0 && q != [] {
      var words1 := Woken1(q, words, live);
      Woken1Is(q, words, live);
      WaitersSame(q[1..], words, words1, live);
      DeliveredIs(q[1..], words1, live, if Waits(q[0], words, live) then n - 1 else n);
    }
  }

  lemma {:induction false} FiredReaches(q: seq<Entry>, words: Words, live: set<WakerInner>, n: nat)
    requires Sorted(q)
    ensures var (q', words') := Fired(q, words, live, n);
            && |q'| <= |q| && q' == q[|q| - |q'|..] && Reached(q, words, live, |q| - |q'|, WOKEN, words')
    decreases |q|
  {
    if n > 0 && q != [] {
      var (q', words') := Fired(q, words, live, n);
      var words1 := Woken1(q, words, live);
      Woken1Is(q, words, live);
      FiredReaches(q[1..], words1, live, if Waits(q[0], words, live) then n - 1 else n);
      ReachedOneMore(q, words, words1, live, |q[1..]| - |q'|, WOKEN, words');
    }
  }

  lemma {:induction false} FiredStops(q: seq<Entry>, words: Words, live: set<WakerInner>, n: nat)
    requires Sorted(q)
    ensures var q' := Fired(q, words, live, n).0;
            && |q'| <= |q|
            && if Waiters(q, words, live) < n then q' == []
               else
                 var k := |q| - |q'|;
                 Waiters(q[..k], words, live) == n && (k > 0 ==> Waits(q[k - 1], words, live))
    decreases |q|
  {
    if n > 0 && q != [] {
      var q' := Fired(q, words, live, n).0;
      var words1 := Woken1(q, words, live);
      Woken1Is(q, words, live);
      WaitersSame(q[1..], words, words1, live);
      FiredStops(q[1..], words1, live, if Waits(q[0], words, live) then n - 1 else n);
      var k := |q[1..]| - |q'|;
      assert q[..k + 1][1..] == q[1..][..k];
      WaitersSame(q[1..][..k], words, words1, live);
    }
  }

  /** It does, and delivers as many events as there are committed waiters, but at most n. */
  lemma FiredMeetsSpec(q: seq<Entry>, words: Words, live: set<WakerInner>, n: nat)
    requires Sorted(q)
    ensures var (q', words') := Fired(q, words, live, n); FireSpec(q, words, live, n, q', words')
    ensures Delivered(q, words, live, n) == if Waiters(q, words, live) < n then Waiters(q, words, live) else n
  {
    FiredReaches(q, words, live, n);
    FiredStops(q, words, live, n);
    DeliveredIs(q, words, live, n);
  }

  /** Firing for a events and then for b is firing for a + b. */
  lemma {:induction false} FireAddsUp(q: seq<Entry>, words: Words, live: set<WakerInner>, a: nat, b: nat)
    ensures var (q1, w1) := Fired(q, words, live, a); Fired(q1, w1, live, b) == Fired(q, words, live, a + b)
    decreases |q|
  {
    if a > 0 && q != [] {
      if !Current(q[0], words, live) {
        FireAddsUp(q[1..], words, live, a, b);
      } else {
        var w := words[q[0].node];
        var words' := words[q[0].node := AfterWake(w, Some(q[0].stamp))];
        FireAddsUp(q[1..], words', live, if StateOf(w) == WAITING then a - 1 else a, b);
      }
    }
  }

  /** n single fires. */
  ghost function FiredOneByOne(q: seq<Entry>, words: Words, live: set<WakerInner>, n: nat): (seq<Entry>, Words)
    decreases n
  {
    if n == 0 then (q, words)
    else
      var (q1, w1) := Fired(q, words, live, 1);
      FiredOneByOne(q1, w1, live, n - 1)
  }

  /** A batch fire for n reaches the same queue and the same node states as n fires. */
  lemma {:induction false} BatchIsSingles(q: seq<Entry>, words: Words, live: set<WakerInner>, n: nat)
    ensures Fired(q, words, live, n) == FiredOneByOne(q, words, live, n)
    decreases n
  {
    if n > 0 {
      var (q1, w1) := Fired(q, words, live, 1);
      BatchIsSingles(q1, w1, live, n - 1);
      FireAddsUp(q, words, live, 1, n - 1);
    }
  }

  // ---------- firing as the code does: collect under the lock, wake afterwards ----------

  ghost function PickOf(e: Entry, words: Words): Pick
    requires e.node in words
  {
    Pick(e.node, StateOf(words[e.node]) == WAITING, e.stamp)
  }

  ghost function Picked(q: seq<Entry>, words: Words, live: set<WakerInner>, n: nat): seq<Pick> {
    if n == 0 || q == [] then []
    else if !Current(q[0], words, live) then Picked(q[1..], words, live, n)
    else [PickOf(q[0], words)] + Picked(q[1..], words, live, if StateOf(words[q[0].node]) == WAITING then n - 1 else n)
  }

  ghost function Unpicked(q: seq<Entry>, words: Words, live: set<WakerInner>, n: nat): seq<Entry> {
    if n == 0 || q == [] then q
    else if !Current(q[0], words, live) then Unpicked(q[1..], words, live, n)
    else Unpicked(q[1..], words, live, if StateOf(words[q[0].node]) == WAITING then n - 1 else n)
  }

  ghost function WokenAll(words: Words, ps: seq<Pick>): Words
    decreases |ps|
  {
    if ps == [] then words
    else if ps[0].node !in words then WokenAll(words, ps[1..])
    else WokenAll(words[ps[0].node := AfterWake(words[ps[0].node], Some(ps[0].stamp))], ps[1..])
  }

  /** The nodes of later entries with another stamp than x's are not x. */
  ghost predicate Elsewhere(q: seq<Entry>, words: Words, x: WakerInner) {
    x in words && forall i :: 0 <= i < |q| && q[i].node == x ==> q[i].stamp != SeqOf(words[x])
  }

  /** Changing the state of a node that no later entry is current for changes no later pick. */
  lemma {:induction false} PickedSame(q: seq<Entry>, words: Words, live: set<WakerInner>, n: nat, x: WakerInner, w: nat)
    requires Elsewhere(q, words, x) && SeqOf(w) == SeqOf(words[x])
    ensures Picked(q, words[x := w], live, n) == Picked(q, words, live, n)
    ensures Unpicked(q, words[x := w], live, n) == Unpicked(q, words, live, n)
    decreases |q|
  {
    if n > 0 && q != [] {
      var n' := if Current(q[0], words, live) && StateOf(words[q[0].node]) == WAITING then n - 1 else n;
      PickedSame(q[1..], words, live, n', x, w);
    }
  }

  lemma SortedElsewhere(q: seq<Entry>, words: Words, live: set<WakerInner>)
    requires Sorted(q) && q != [] && Current(q[0], words, live)
    ensures Elsewhere(q[1..], words, q[0].node)
  {
  }

  /** Collecting first and waking afterwards is firing entry by entry. */
  lemma {:induction false} TwoPhases(q: seq<Entry>, words: Words, live: set<WakerInner>, n: nat)
    requires Sorted(q)
    ensures Fired(q, words, live, n) == (Unpicked(q, words, live, n), WokenAll(words, Picked(q, words, live, n)))
    decreases |q|
  {
    if n > 0 && q != [] {
      if !Current(q[0], words, live) {
        TwoPhases(q[1..], words, live, n);
      } else {
        var x, w := q[0].node, words[q[0].node];
        var n' := if StateOf(w) == WAITING then n - 1 else n;
        SortedElsewhere(q, words, live);
        var w' := AfterWake(w, Some(q[0].stamp));
        PickedSame(q[1..], words, live, n', x, w');
        TwoPhases(q[1..], words[x := w'], live, n');
        assert Picked(q, words, live, n)[1..] == Picked(q[1..], words, live, n');
      }
    }
  }

  /** Picks of current nodes, with their state, no node twice. */
  ghost predicate PicksOf(ps: seq<Pick>, words: Words) {
    && (forall i :: 0 <= i < |ps| ==>
          ps[i].node in words && SeqOf(words[ps[i].node]) == ps[i].stamp
              && ps[i].committed == (StateOf(words[ps[i].node]) == WAITING))
    && (forall i, j :: 0 <= i < j < |ps| ==> ps[i].stamp < ps[j].stamp)
  }

  ghost function Committed(ps: seq<Pick>): (k: nat)
    ensures k <= |ps|
  {
    if ps == [] then 0 else (if ps[0].committed then 1 else 0) + Committed(ps[1..])
  }

  lemma {:induction false} PickedIsGood(q: seq<Entry>, words: Words, live: set<WakerInner>, n: nat)
    requires Sorted(q)
    ensures var ps := Picked(q, words, live, n);
            PicksOf(ps, words) && (forall i :: 0 <= i < |ps| ==> q != [] && q[0].stamp <= ps[i].stamp)
            && Committed(ps) == Delivered(q, words, live, n) <= n
    decreases |q|
  {
    if n > 0 && q != [] {
      if !Current(q[0], words, live) {
        PickedIsGood(q[1..], words, live, n);
      } else {
        var w, n' := words[q[0].node], if StateOf(words[q[0].node]) == WAITING then n - 1 else n;
        PickedIsGood(q[1..], words, live, n');
        SortedElsewhere(q, words, live);
        DeliveredSame(q[1..], words, live, n', q[0].node, AfterWake(w, Some(q[0].stamp)));
        assert Picked(q, words, live, n)[1..] == Picked(q[1..], words, live, n');
      }
    }
  }

  lemma {:induction false} DeliveredSame(q: seq<Entry>, words: Words, live: set<WakerInner>, n: nat, x: WakerInner,
      w: nat)
    requires Elsewhere(q, words, x) && SeqOf(w) == SeqOf(words[x])
    ensures Delivered(q, words[x := w], live, n) == Delivered(q, words, live, n)
    decreases |q|
  {
    if n > 0 && q != [] {
      if !Current(q[0], words, live) {
        DeliveredSame(q[1..], words, live, n, x, w);
      } else {
        var y, v := q[0].node, words[q[0].node];
        var v', n' := AfterWake(v, Some(q[0].stamp)), if StateOf(v) == WAITING then n - 1 else n;
        assert words[x := w][y := v'] == words[y := v'][x := w];
        DeliveredSame(q[1..], words[y := v'], live, n', x, w);
      }
    }
  }

  // ---------- cancelling ----------

  datatype Verdict = Drop | DropLast | Keep

  /** What cancelling node `me`, registered last with stamp `mine`, does with an entry. */
  ghost function VerdictOn(e: Entry, words: Words, live: set<WakerInner>, me: WakerInner, mine: nat,
      oneshot: bool): Verdict {
    if e.node !in live || e.node !in words then Drop
    else if e.stamp == mine then DropLast
    else if e.stamp > mine then Keep
    else if e.node == me then Drop
    else if StateOf(words[e.node]) < WOKEN then Keep
    else if oneshot then DropLast
    else Drop
  }

  /** The queue after that. */
  ghost function Cleared(q: seq<Entry>, words: Words, live: set<WakerInner>, me: WakerInner, mine: nat,
      oneshot: bool): seq<Entry> {
    if q == [] then []
    else
      match VerdictOn(q[0], words, live, me, mine, oneshot)
      case Drop => Cleared(q[1..], words, live, me, mine, oneshot)
      case DropLast => q[1..]
      case Keep => q
  }

  /** Entries that a cancellation may drop. */
  ghost predicate Droppable(e: Entry, words: Words, live: set<WakerInner>, me: WakerInner, mine: nat) {
    || e.node !in live || e.node !in words
    || e.stamp == mine
    || (e.node == me && e.stamp < mine)
    || StateOf(words[e.node]) >= WOKEN
  }

  /** It drops a run of entries from the front, and none that another waiter still needs. */
  lemma {:induction false} ClearDropsOnly(q: seq<Entry>, words: Words, live: set<WakerInner>, me: WakerInner,
      mine: nat, oneshot: bool)
    ensures var r := Cleared(q, words, live, me, mine, oneshot);
            && |r| <= |q| && r == q[|q| - |r|..]
            && forall i :: 0 <= i < |q| - |r| ==> Droppable(q[i], words, live, me, mine)
    decreases |q|
  {
    if q != [] && VerdictOn(q[0], words, live, me, mine, oneshot) == Drop {
      ClearDropsOnly(q[1..], words, live, me, mine, oneshot);
      var r := Cleared(q[1..], words, live, me, mine, oneshot);
      assert q[1..][|q| - 1 - |r|..] == q[|q| - |r|..];
      forall i | 1 <= i < |q| - |r| ensures Droppable(q[i], words, live, me, mine) {
        assert q[i] == q[1..][i - 1];
      }
    }
  }

  /** A later registration, or one of another node that is neither woken nor closed: the scan for
      registration `mine` of node `me` leaves it. */
  ghost predicate Stays(e: Entry, words: Words, live: set<WakerInner>, me: WakerInner, mine: nat) {
    && e.node in words && e.node in live && e.stamp != mine
    && (e.stamp > mine || (e.node != me && StateOf(words[e.node]) < WOKEN))
  }

  /** That registration itself; and for a oneshot one of another node that is woken or closed: the
      scan drops it and ends. */
  ghost predicate Ends(e: Entry, words: Words, live: set<WakerInner>, me: WakerInner, mine: nat, oneshot: bool) {
    && e.node in words && e.node in live
    && (e.stamp == mine || (oneshot && e.stamp < mine && e.node != me && StateOf(words[e.node]) >= WOKEN))
  }

  /** From q to r the scan dropped all entries up to the first one that stays or ends it; so the
      cancelled registration is gone, unless such an entry comes before it. */
  ghost predicate Scanned(q: seq<Entry>, words: Words, live: set<WakerInner>, me: WakerInner, mine: nat,
      oneshot: bool, r: seq<Entry>) {
    && |r| <= |q| && r == q[|q| - |r|..]
    && var k := |q| - |r|;
       && (forall i :: 0 <= i < k ==> !Stays(q[i], words, live, me, mine))
       && (forall i :: 0 <= i < k - 1 ==> !Ends(q[i], words, live, me, mine, oneshot))
       && (r != [] ==> (k > 0 && Ends(q[k - 1], words, live, me, mine, oneshot)) || Stays(q[k], words, live, me, mine))
  }

  lemma {:induction false} ClearScans(q: seq<Entry>, words: Words, live: set<WakerInner>, me: WakerInner,
      mine: nat, oneshot: bool)
    ensures Scanned(q, words, live, me, mine, oneshot, Cleared(q, words, live, me, mine, oneshot))
    decreases |q|
  {
    if q != [] && VerdictOn(q[0], words, live, me, mine, oneshot) == Drop {
      ClearScans(q[1..], words, live, me, mine, oneshot);
      var r := Cleared(q[1..], words, live, me, mine, oneshot);
      assert q[1..][|q| - 1 - |r|..] == q[|q| - |r|..];
      assert forall i :: 1 <= i < |q| ==> q[i] == q[1..][i - 1];
    }
  }

  /** Alone or first in the queue, a cancelled registration is gone. */
  lemma CancelDropsOwn(q: seq<Entry>, words: Words, live: set<WakerInner>, me: WakerInner, mine: nat, oneshot: bool,
      r: seq<Entry>, i: nat)
    requires Scanned(q, words, live, me, mine, oneshot, r) && i < |q| && q[i] == Entry(me, mine)
    requires forall j :: 0 <= j < i ==>
               !Stays(q[j], words, live, me, mine) && !Ends(q[j], words, live, me, mine, oneshot)
    ensures i < |q| - |r|
  {
  }

  // ---------- the registry ----------

  ghost function WordsOf(nodes: set<WakerInner>): Words
    reads nodes
  {
    map n | n in nodes :: n.word
  }

  ghost function UnparksOf(nodes: set<WakerInner>): Words
    reads nodes
  {
    map n | n in nodes :: n.unparks
  }

  /** Nodes whose word was changed, to Woken or beyond, were unparked once; the others were not. */
  ghost predicate UnparkedOnce(words: Words, unparks: Words, words': Words, unparks': Words) {
    && words.Keys == unparks.Keys == words'.Keys == unparks'.Keys
    && forall x :: x in words ==>
         if words'[x] == words[x] then unparks'[x] == unparks[x]
         else unparks'[x] == unparks[x] + 1 && StateOf(words'[x]) >= WOKEN
  }

  /** A wake or close of one node finds nothing to do if the node's word was changed before. */
  lemma UnparkOneMore(w0: Words, u0: Words, w1: Words, u1: Words, w2: Words, u2: Words, x: WakerInner,
      stamp: Option<nat>)
    requires UnparkedOnce(w0, u0, w1, u1) && UnparkedOnce(w1, u1, w2, u2) && x in w1
    requires w2 == w1[x := AfterWake(w1[x], stamp)] || w2 == w1[x := AfterClose(w1[x])]
    ensures UnparkedOnce(w0, u0, w2, u2)
  {
  }

  ghost function LiveOf(nodes: set<WakerInner>): set<WakerInner>
    reads nodes
  {
    set n | n in nodes && n.live
  }

  /** An entry of the cancelled node itself, of a dead node, or of one already woken or closed. */
  ghost predicate Outdated(e: Entry, me: WakerInner)
    reads e.node
  {
    e.node == me || !e.node.live || StateOf(e.node.word) >= WOKEN
  }

  /** From q to r only a run of outdated entries was dropped: none of another waiter. */
  ghost predicate Harmless(q: seq<Entry>, r: seq<Entry>, me: WakerInner)
    reads set i | 0 <= i < |q| :: q[i].node
  {
    && |r| <= |q| && r == q[|q| - |r|..]
    && forall i :: 0 <= i < |q| - |r| ==> Outdated(q[i], me)
  }

  class RegistryMulti {
    var queue: seq<Entry>
    var flag: bool                      // MULTI_HAS_WAKER
    ghost var nodes: set<WakerInner>    // all nodes that were ever registered here

    /** Sorted by stamp, the flag tells if there are entries, and an entry with the stamp of
        some node's current registration is that node's. */
    ghost predicate Valid()
      reads this, nodes
    {
      && Sorted(queue) && (flag <==> queue != [])
      && (forall i :: 0 <= i < |queue| ==> queue[i].node in nodes)
      && (forall i, n :: 0 <= i < |queue| && n in nodes && SeqOf(n.word) == queue[i].stamp ==> queue[i].node == n)
    }

    constructor ()
      ensures Valid() && queue == [] && nodes == {}
    {
      queue := [];
      flag := false;
      nodes := {};
    }

    /** Registers a node under a freshly minted stamp, at the end of the queue. */
    method RegWaker(waker: WakerInner, stamp: nat)
      requires Valid()
      requires (forall i :: 0 <= i < |queue| ==> queue[i].stamp < stamp)
               && (forall n :: n in nodes ==> SeqOf(n.word) < stamp)
      modifies this, waker`word
      ensures Valid() && queue == old(queue) + [Entry(waker, stamp)] && nodes == old(nodes) + {waker}
      ensures StateOf(waker.word) == StateOf(old(waker.word)) && SeqOf(waker.word) == stamp
    {
      waker.SetSeq(stamp);
      if queue == [] { flag := true; }
      queue := queue + [Entry(waker, stamp)];
      nodes := nodes + {waker};
    }

    method Process(e: Entry, oldWaker: WakerInner, mine: nat, oneshot: bool) returns (v: Verdict)
      requires e.node in nodes
      ensures v == VerdictOn(e, WordsOf(nodes), LiveOf(nodes), oldWaker, mine, oneshot)
    {
      if !e.node.live { return Drop; }
      if e.stamp == mine { return DropLast; }
      if e.stamp > mine { return Keep; }
      if e.node == oldWaker { return Drop; }
      if StateOf(e.node.word) < WOKEN { return Keep; }
      return if oneshot then DropLast else Drop;
    }

    /** Drops outdated entries from the front, up to that of the old waker. */
    method ClearWakers(oldWaker: WakerInner, oneshot: bool)
      requires Valid() && oldWaker in nodes
      modifies this`queue, this`flag
      ensures Valid()
      ensures queue == Cleared(old(queue), old(WordsOf(nodes)), old(LiveOf(nodes)), oldWaker, SeqOf(oldWaker.word),
              oneshot)
      ensures Harmless(old(queue), queue, oldWaker)
      ensures Scanned(old(queue), old(WordsOf(nodes)), old(LiveOf(nodes)), oldWaker, SeqOf(oldWaker.word), oneshot,
              queue)
    {
      ghost var start := queue;
      ClearScans(start, WordsOf(nodes), LiveOf(nodes), oldWaker, SeqOf(oldWaker.word), oneshot);
      ClearDropsOnly(start, WordsOf(nodes), LiveOf(nodes), oldWaker, SeqOf(oldWaker.word), oneshot);
      ClearLoop(oldWaker, oneshot);
      forall i | 0 <= i < |start| - |queue| ensures Outdated(start[i], oldWaker) {
        assert Droppable(start[i], WordsOf(nodes), LiveOf(nodes), oldWaker, SeqOf(oldWaker.word));
      }
    }

    method ClearLoop(oldWaker: WakerInner, oneshot: bool)
      requires Valid() && oldWaker in nodes
      modifies this`queue, this`flag
      ensures Valid()
      ensures queue == Cleared(old(queue), old(WordsOf(nodes)), old(LiveOf(nodes)), oldWaker, SeqOf(oldWaker.word),
              oneshot)
    {
      if !flag { return; }
      var mine := SeqOf(oldWaker.word);
      ghost var q0, words, live := queue, WordsOf(nodes), LiveOf(nodes);
      var stop := false;
      while !stop && queue != []
        invariant flag && |queue| <= |q0| && queue == q0[|q0| - |queue|..]
        invariant Cleared(q0, words, live, oldWaker, mine, oneshot) ==
                    if stop then queue else Cleared(queue, words, live, oldWaker, mine, oneshot)
        invariant WordsOf(nodes) == words && LiveOf(nodes) == live
        decreases !stop, |queue|
      {
        var v := Process(queue[0], oldWaker, mine, oneshot);
        if v != Keep { queue := queue[1..]; }
        stop := v != Drop;
      }
      if queue == [] { flag := false; }
    }

    /** Pops the first entry: a pick, unless its node is dead or registered anew. */
    method PopEntry() returns (pick: Option<Pick>)
      requires queue != [] && queue[0].node in nodes
      modifies this`queue
      ensures queue == old(queue[1..])
      ensures pick ==
                if !Current(old(queue[0]), WordsOf(nodes), LiveOf(nodes)) then None
                else Some(PickOf(old(queue[0]), WordsOf(nodes)))
    {
      var e := queue[0];
      queue := queue[1..];
      if e.node.live && SeqOf(e.node.word) == e.stamp {
        pick := Some(Pick(e.node, StateOf(e.node.word) == WAITING, e.stamp));
      } else {
        pick := None;
      }
    }

    method PopEntries(n: nat) returns (picks: seq<Pick>, remaining: nat, exhausted: bool)
      requires forall i :: 0 <= i < |queue| ==> queue[i].node in nodes
      modifies this`queue
      ensures |queue| <= |old(queue)| && queue == old(queue)[|old(queue)| - |queue|..]
      ensures picks == Picked(old(queue), WordsOf(nodes), LiveOf(nodes), n)
      ensures queue == Unpicked(old(queue), WordsOf(nodes), LiveOf(nodes), n)
      ensures remaining + Committed(picks) == n && exhausted == (remaining > 0) && (exhausted ==> queue == [])
    {
      ghost var q0, words, live := queue, WordsOf(nodes), LiveOf(nodes);
      picks, remaining, exhausted := [], n, false;
      while remaining > 0 && !exhausted
        invariant |queue| <= |q0| && queue == q0[|q0| - |queue|..]
        invariant exhausted ==> queue == [] && remaining > 0
        invariant Picked(q0, words, live, n) == picks + Picked(queue, words, live, remaining)
        invariant Unpicked(q0, words, live, n) == Unpicked(queue, words, live, remaining)
        invariant remaining + Committed(picks) == n
        decreases !exhausted, |queue|
      {
        if queue == [] {
          exhausted := true;
        } else {
          var pick := PopEntry();
          if pick.Some? {
            CommittedMore(picks, pick.value);
            assert forall rest :: picks + ([pick.value] + rest) == picks + [pick.value] + rest;
            if pick.value.committed { remaining := remaining - 1; }
            picks := picks + [pick.value];
          }
        }
      }
    }

    /** The collection round of a fire, under the lock. */
    method Collect(n: nat) returns (picks: seq<Pick>, remaining: nat, exhausted: bool)
      requires Valid() && n > 0
      modifies this`queue, this`flag
      ensures Valid()
      ensures picks == Picked(old(queue), WordsOf(nodes), LiveOf(nodes), n) && PicksOf(picks, WordsOf(nodes))
      ensures queue == Unpicked(old(queue), WordsOf(nodes), LiveOf(nodes), n)
      ensures remaining + Committed(picks) == n && exhausted == (remaining > 0) && (exhausted ==> queue == [])
    {
      PickedIsGood(queue, WordsOf(nodes), LiveOf(nodes), n);
      picks, remaining, exhausted := PopEntries(n);
      if queue == [] { flag := false; }
    }

    /** Wakes one picked node. */
    method WakePick(p: Pick) returns (r: WakeResult)
      requires p.node in nodes && SeqOf(p.node.word) == p.stamp && p.committed == (StateOf(p.node.word) == WAITING)
      modifies p.node
      ensures WordsOf(nodes) == old(WordsOf(nodes))[p.node := AfterWake(old(p.node.word), Some(p.stamp))]
      ensures LiveOf(nodes) == old(LiveOf(nodes)) && (p.committed ==> r == Woken)
      ensures UnparkedOnce(old(WordsOf(nodes)), old(UnparksOf(nodes)), WordsOf(nodes), UnparksOf(nodes))
    {
      r := p.node.Wake(Some(p.stamp));
    }

    /** The wakes of a round, outside the lock. Nobody interferes here, so no event is handed back. */
    method WakeAll(picks: seq<Pick>) returns (landed: bool, wasted: int)
      requires PicksOf(picks, WordsOf(nodes))
      modifies nodes
      ensures WordsOf(nodes) == WokenAll(old(WordsOf(nodes)), picks) && LiveOf(nodes) == old(LiveOf(nodes))
      ensures landed == (Committed(picks) > 0) && wasted == 0
      ensures UnparkedOnce(old(WordsOf(nodes)), old(UnparksOf(nodes)), WordsOf(nodes), UnparksOf(nodes))
    {
      landed, wasted := false, 0;
      ghost var words, live, unparks := WordsOf(nodes), LiveOf(nodes), UnparksOf(nodes);
      var i := 0;
      while i < |picks|
        invariant 0 <= i <= |picks| && wasted == 0
        invariant landed == (Committed(picks[..i]) > 0)
        invariant WordsOf(nodes).Keys == words.Keys && LiveOf(nodes) == live
        invariant UnparkedOnce(words, unparks, WordsOf(nodes), UnparksOf(nodes))
        invariant WokenAll(words, picks) == WokenAll(WordsOf(nodes), picks[i..])
        invariant forall j :: i <= j < |picks| ==>
                    picks[j].node in nodes && SeqOf(picks[j].node.word) == picks[j].stamp
                    && picks[j].committed == (StateOf(picks[j].node.word) == WAITING)
      {
        var p := picks[i];
        ghost var words1, unparks1 := WordsOf(nodes), UnparksOf(nodes);
        var r := WakePick(p);
        UnparkOneMore(words, unparks, words1, unparks1, WordsOf(nodes), UnparksOf(nodes), p.node, Some(p.stamp));
        NextPick(picks, i);
        if p.committed {
          if r == Woken { landed := true; } else { wasted := wasted + 1; }
        }
        i := i + 1;
      }
      assert picks[..i] == picks;
    }

    /** `fire_n`: rounds of collecting and waking until all events are spent or no waiter is
        left. Returns whether an event was delivered. */
    method FireN(n: nat) returns (landed: bool)
      requires Valid()
      modifies this`queue, this`flag, nodes
      ensures Valid() && nodes == old(nodes)
      ensures (queue, WordsOf(nodes)) == Fired(old(queue), old(WordsOf(nodes)), old(LiveOf(nodes)), n)
      ensures landed == (Delivered(old(queue), old(WordsOf(nodes)), old(LiveOf(nodes)), n) > 0)
      ensures FireSpec(old(queue), old(WordsOf(nodes)), old(LiveOf(nodes)), n, queue, WordsOf(nodes))
      ensures landed == (n > 0 && Waiters(old(queue), old(WordsOf(nodes)), old(LiveOf(nodes))) > 0)
      ensures UnparkedOnce(old(WordsOf(nodes)), old(UnparksOf(nodes)), WordsOf(nodes), UnparksOf(nodes))
    {
      var remaining := n;
      landed := false;
      FiredMeetsSpec(queue, WordsOf(nodes), LiveOf(nodes), n);
      while remaining > 0
        invariant Valid() && nodes == old(nodes) && (remaining == n || remaining == 0)
        invariant remaining == n ==>
                    queue == old(queue) && WordsOf(nodes) == old(WordsOf(nodes))
                    && LiveOf(nodes) == old(LiveOf(nodes)) && UnparksOf(nodes) == old(UnparksOf(nodes)) && !landed
        invariant UnparkedOnce(old(WordsOf(nodes)), old(UnparksOf(nodes)), WordsOf(nodes), UnparksOf(nodes))
        invariant remaining == 0 < n ==>
                 (queue, WordsOf(nodes)) == Fired(old(queue), old(WordsOf(nodes)), old(LiveOf(nodes)), n)
        invariant remaining == 0 < n ==>
                 landed == (Delivered(old(queue), old(WordsOf(nodes)), old(LiveOf(nodes)), n) > 0)
      {
        if !flag { return; }
        var exhausted, wasted;
        landed, remaining, exhausted, wasted := Round(remaining);
        remaining := remaining + wasted;
        if exhausted { return; }
      }
    }

    /** One round of it. */
    method Round(n: nat) returns (landed: bool, remaining: nat, exhausted: bool, wasted: nat)
      requires Valid() && n > 0
      modifies this`queue, this`flag, nodes
      ensures Valid() && nodes == old(nodes)
      ensures (queue, WordsOf(nodes)) == Fired(old(queue), old(WordsOf(nodes)), old(LiveOf(nodes)), n)
      ensures var k := Delivered(old(queue), old(WordsOf(nodes)), old(LiveOf(nodes)), n);
              landed == (k > 0) && remaining == n - k && wasted == 0 && exhausted == (remaining > 0)
      ensures UnparkedOnce(old(WordsOf(nodes)), old(UnparksOf(nodes)), WordsOf(nodes), UnparksOf(nodes))
    {
      ghost var q0, words, live := queue, WordsOf(nodes), LiveOf(nodes);
      var picks;
      picks, remaining, exhausted := Collect(n);
      landed, wasted := WakeAll(picks);
      TwoPhases(q0, words, live, n);
      PickedIsGood(q0, words, live, n);
      WakingKeepsStamps(words, picks);
      assert forall x :: x in nodes ==> WordsOf(nodes)[x] == x.word;
    }

    /** `fire`: one event. */
    method Fire() returns (r: WakeResult)
      requires Valid()
      modifies this`queue, this`flag, nodes
      ensures Valid() && nodes == old(nodes)
      ensures (queue, WordsOf(nodes)) == Fired(old(queue), old(WordsOf(nodes)), old(LiveOf(nodes)), 1)
      ensures r == if Delivered(old(queue), old(WordsOf(nodes)), old(LiveOf(nodes)), 1) > 0 then Woken else Next
      ensures FireSpec(old(queue), old(WordsOf(nodes)), old(LiveOf(nodes)), 1, queue, WordsOf(nodes))
      ensures r == if Waiters(old(queue), old(WordsOf(nodes)), old(LiveOf(nodes))) > 0 then Woken else Next
      ensures UnparkedOnce(old(WordsOf(nodes)), old(UnparksOf(nodes)), WordsOf(nodes), UnparksOf(nodes))
    {
      var landed := FireN(1);
      r := if landed then Woken else Next;
    }

    /** Pops the first entry and closes its node, if the entry is current. */
    method CloseFirst()
      requires queue != [] && queue[0].node in nodes
      modifies this`queue, nodes
      ensures queue == old(queue[1..]) && LiveOf(nodes) == old(LiveOf(nodes))
      ensures WordsOf(nodes) ==
                if Current(old(queue[0]), old(WordsOf(nodes)), old(LiveOf(nodes))) then
                  old(WordsOf(nodes))[old(queue[0].node) := AfterClose(old(queue[0].node.word))]
                else old(WordsOf(nodes))
      ensures UnparkedOnce(old(WordsOf(nodes)), old(UnparksOf(nodes)), WordsOf(nodes), UnparksOf(nodes))
    {
      var pick := PopEntry();
      if pick.Some? { var ok := pick.value.node.CloseWake(); }
    }

    /** Closes every current waiter and empties the queue. */
    method Close()
      requires Valid()
      modifies this`queue, this`flag, nodes
      ensures Valid() && nodes == old(nodes) && queue == []
      ensures WordsOf(nodes) == ClosedAll(old(queue), old(WordsOf(nodes)), old(LiveOf(nodes)))
      ensures Reached(old(queue), old(WordsOf(nodes)), old(LiveOf(nodes)), |old(queue)|, CLOSED, WordsOf(nodes))
      ensures UnparkedOnce(old(WordsOf(nodes)), old(UnparksOf(nodes)), WordsOf(nodes), UnparksOf(nodes))
    {
      ghost var q0, words, live, unparks := queue, WordsOf(nodes), LiveOf(nodes), UnparksOf(nodes);
      ClosedReaches(q0, words, live);
      while queue != []
        invariant nodes == old(nodes) && |queue| <= |q0| && queue == q0[|q0| - |queue|..]
        invariant LiveOf(nodes) == live && WordsOf(nodes).Keys == words.Keys
        invariant UnparkedOnce(words, unparks, WordsOf(nodes), UnparksOf(nodes))
        invariant ClosedAll(q0, words, live) == ClosedAll(queue, WordsOf(nodes), live)
        invariant forall i :: 0 <= i < |queue| ==> queue[i].node in nodes
        decreases |queue|
      {
        ghost var x, words1, unparks1 := queue[0].node, WordsOf(nodes), UnparksOf(nodes);
        CloseFirst();
        if WordsOf(nodes) != words1 {
          UnparkOneMore(words, unparks, words1, unparks1, WordsOf(nodes), UnparksOf(nodes), x, None);
        }
      }
      flag := false;
    }

    /** A waiter gives up: unless it was woken or closed meanwhile, it is closed and cleared. */
    method AbandonWaker(waker: WakerInner) returns (ok: bool, state: nat)
      requires Valid() && waker in nodes
      modifies this`queue, this`flag, waker`word
      ensures Valid() && ok == (StateOf(old(waker.word)) <= WAITING) && state == StateOf(old(waker.word))
      ensures waker.word == AfterClose(old(waker.word))
      ensures queue == if ok then Cleared(old(queue), WordsOf(nodes), LiveOf(nodes), waker, SeqOf(waker.word), false)
              else old(queue)
    {
      ok, state := waker.Abandon();
      if ok { ClearWakers(waker, false); }
    }

    /** A waiter that needs no wake any more: cleared and retired if it is still registered. */
    method CancelWaker(waker: WakerInner)
      requires Valid() && waker in nodes
      modifies this`queue, this`flag, waker`word
      ensures Valid()
      ensures if StateOf(old(waker.word)) >= WOKEN || StateOf(old(waker.word)) == REUSE then
                waker.word == old(waker.word) && queue == old(queue)
              else
                && waker.word == WithState(old(waker.word), REUSE)
                && queue == Cleared(old(queue), old(WordsOf(nodes)), old(LiveOf(nodes)), waker, SeqOf(waker.word), true)
    {
      var state := StateOf(waker.word);
      if state >= WOKEN || state == REUSE { return; }
      ClearWakers(waker, true);
      waker.Retire();
    }
  }

  /** Waking changes states, never stamps. */
  lemma {:induction false} WakingKeepsStamps(words: Words, ps: seq<Pick>)
    ensures WokenAll(words, ps).Keys == words.Keys
    ensures forall x :: x in words ==> SeqOf(WokenAll(words, ps)[x]) == SeqOf(words[x])
    decreases |ps|
  {
    if ps != [] {
      if ps[0].node !in words { WakingKeepsStamps(words, ps[1..]); }
      else { WakingKeepsStamps(words[ps[0].node := AfterWake(words[ps[0].node], Some(ps[0].stamp))], ps[1..]); }
    }
  }

  /** The words after a close. */
  ghost function ClosedAll(q: seq<Entry>, words: Words, live: set<WakerInner>): Words
    decreases |q|
  {
    if q == [] then words
    else if !Current(q[0], words, live) then ClosedAll(q[1..], words, live)
    else ClosedAll(q[1..], words[q[0].node := AfterClose(words[q[0].node])], live)
  }

  /** A close reaches exactly the nodes that await a wake. */
  lemma {:induction false} ClosedReaches(q: seq<Entry>, words: Words, live: set<WakerInner>)
    requires Sorted(q)
    ensures Reached(q, words, live, |q|, CLOSED, ClosedAll(q, words, live))
    decreases |q|
  {
    if q != [] {
      var e := q[0];
      var words1 := if Current(e, words, live) then words[e.node := AfterClose(words[e.node])] else words;
      ClosedReaches(q[1..], words1, live);
      ReachedOneMore(q, words, words1, live, |q[1..]|, CLOSED, ClosedAll(q, words, live));
    }
  }

  lemma NextPick(ps: seq<Pick>, i: nat)
    requires i < |ps|
    ensures ps[i..][0] == ps[i] && ps[i..][1..] == ps[i + 1..]
    ensures Committed(ps[..i + 1]) == Committed(ps[..i]) + if ps[i].committed then 1 else 0
  {
    assert ps[..i + 1] == ps[..i] + [ps[i]];
    CommittedMore(ps[..i], ps[i]);
  }

  lemma {:induction false} CommittedMore(ps: seq<Pick>, p: Pick)
    ensures Committed(ps + [p]) == Committed(ps) + if p.committed then 1 else 0
    decreases |ps|
  {
    if ps != [] {
      CommittedMore(ps[1..], p);
      assert (ps + [p])[1..] == ps[1..] + [p];
    }
  }
}
