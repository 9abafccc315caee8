/**
 The 32-bit positions of the work-stealing queues: they wrap around, and the two heads share
 one 64-bit word.
 */
module StealWords {
  import opened Laps
  import opened StealQueue
  import opened StealInv
  import opened StealRuns
  import BoundedWords

  const B: nat := 0x1_0000_0000
  const MAX_CAPACITY: nat := 0x8000_0000

  /** The low 32 bits. */
  function W(x: nat): (w: nat)
    ensures w < B
  {
    Idx(x, B)
  }

  function WrappingSub(a: nat, b: nat): nat
    requires a < B && b < B
  {
    if a >= b then a - b else a + B - b
  }

  function WrappingAdd(a: nat, b: nat): nat
    requires a < B && b < B
  {
    if a + b < B then a + b else a + b - B
  }

  /** Two short values in one long word, and back. */
  function Pack(a: nat, b: nat): (w: nat)
    requires a < B && b < B
    ensures w < B * B
  {
    assert a * B <= (B - 1) * B;
    a * B + b
  }

  function Unpack(w: nat): (nat, nat) {
    (w / B, w % B)
  }

  lemma PackRoundTrip(a: nat, b: nat)
    requires a < B && b < B
    ensures Unpack(Pack(a, b)) == (a, b)
  {
  }

  lemma UnpackRoundTrip(w: nat)
    requires w < B * B
    ensures Unpack(w).0 < B && Unpack(w).1 < B && Pack(Unpack(w).0, Unpack(w).1) == w
  {
  }

  lemma {:induction false} Difference(x: nat, y: nat)
    requires y <= x < y + B
    ensures WrappingSub(W(x), W(y)) == x - y
  {
    if y >= B { Difference(x - B, y - B); }
    else if x >= B { assert W(x) == W(x - B) == x - B; }
  }

  lemma {:induction false} Sum(x: nat, n: nat)
    requires n < B
    ensures WrappingAdd(W(x), n) == W(x + n)
  {
    if x >= B {
      Sum(x - B, n);
      assert W(x + n) == W(x - B + n);
    } else if x + n >= B {
      assert W(x + n) == W(x + n - B) == x + n - B;
    }
  }

  lemma SameWord(x: nat, y: nat)
    requires x < y + B && y < x + B
    ensures W(x) == W(y) <==> x == y
  {
    if x < y && W(x) == W(y) { SameSlot(x, y, B); }
    if y < x && W(x) == W(y) { SameSlot(y, x, B); }
  }

  // ---------- buffer indices ----------

  /** Adding a multiple of the capacity does not change the slot. */
  lemma {:induction false} SlotPeriod(x: nat, y: nat, cap: nat)
    requires cap > 0 && Idx(y, cap) == 0
    ensures Idx(x + y, cap) == Idx(x, cap)
    decreases y
  {
    if y >= cap {
      SlotPeriod(x, y - cap, cap);
      assert Idx(x + y, cap) == Idx(x + y - cap, cap);
    }
  }

  lemma {:induction false} SlotOfWord(x: nat, cap: nat)
    requires cap > 0 && Idx(B, cap) == 0
    ensures Idx(W(x), cap) == Idx(x, cap)
    decreases x
  {
    if x >= B {
      SlotOfWord(x - B, cap);
      SlotPeriod(x - B, B, cap);
    }
  }

  /** A power of two divides every larger one. */
  lemma {:induction false} PowersDivide(c: nat, d: nat)
    requires BoundedWords.PowerOfTwo(c) && BoundedWords.PowerOfTwo(d) && 0 < c <= d
    ensures Idx(d, c) == 0
    decreases d
  {
    if c < d {
      HalfPower(c, d);
      PowersDivide(c, d / 2);
      SlotPeriod(d / 2, d / 2, c);
      assert d / 2 + d / 2 == d;
    }
  }

  lemma {:induction false} HalfPower(c: nat, d: nat)
    requires BoundedWords.PowerOfTwo(c) && BoundedWords.PowerOfTwo(d) && c < d
    ensures d % 2 == 0 && BoundedWords.PowerOfTwo(d / 2) && c <= d / 2
    decreases d
  {
    if c > 1 { HalfPower(c / 2, d / 2); }
  }

  // ---------- the queue on 32-bit positions ----------

  /** What `Worker::new` makes of a capacity: a power of two of at least that, up to 2^31. */
  lemma NewCapacity(min: nat)
    requires min <= MAX_CAPACITY
    ensures var cap := BoundedWords.NextPowerOfTwo(min, 1);
            BoundedWords.PowerOfTwo(cap) && min <= cap <= MAX_CAPACITY && cap - 1 < B && WrappingAdd(cap - 1, 1) == cap
  {
    var cap := BoundedWords.NextPowerOfTwo(min, 1);
    if cap > MAX_CAPACITY {
      MaxIsPower();
      HalfPower(MAX_CAPACITY, cap);
    }
  }

  lemma MaxIsPower()
    ensures BoundedWords.PowerOfTwo(MAX_CAPACITY) && BoundedWords.PowerOfTwo(B)
  {
    Times16(1);
    Times16(0x10);
    Times16(0x100);
    Times16(0x1000);
    Times16(0x1_0000);
    Times16(0x10_0000);
    Times16(0x100_0000);
    Times16(0x1000_0000);
    assert B / 2 == MAX_CAPACITY;
  }

  lemma Times16(x: nat)
    requires BoundedWords.PowerOfTwo(x)
    ensures BoundedWords.PowerOfTwo(16 * x)
  {
    assert BoundedWords.PowerOfTwo(2 * x) by { assert (2 * x) / 2 == x; }
    assert BoundedWords.PowerOfTwo(4 * x) by { assert (4 * x) / 2 == 2 * x; }
    assert BoundedWords.PowerOfTwo(8 * x) by { assert (8 * x) / 2 == 4 * x; }
    assert (16 * x) / 2 == 8 * x;
  }

  /** Every test and every number that the operations compute from 32-bit positions is the one
      of the unbounded positions, without underflow or overflow. */
  ghost predicate WordsAgree(q: Queue) {
    var mask := q.cap - 1;
    && q.sh <= q.wh <= q.tail <= q.fill <= q.sh + q.cap && 0 < q.cap <= MAX_CAPACITY
    // pop, is_empty, is_likely_empty, book_items: nothing visible
    && (W(q.tail) == W(q.wh) <==> q.tail == q.wh)
    // book_items, drain and pop: a steal is in progress
    && (W(q.sh) == W(q.wh) <==> q.sh == q.wh)
    // book_items: item_count
    && WrappingSub(W(q.tail), W(q.wh)) == q.tail - q.wh
    // push: full
    && (WrappingSub(W(q.tail), W(q.sh)) > mask <==> q.tail - q.sh > mask)
    // extend: max_tail
    && (forall t: nat :: q.sh <= t <= q.sh + q.cap ==> (W(t) == WrappingAdd(W(q.sh), q.cap) <==> t == q.sh + q.cap))
    // spare_capacity and the free capacity of steal; and one more in steal_and_pop
    && q.cap - WrappingSub(W(q.tail), W(q.sh)) == Free(q) && 0 <= Free(q) && Free(q) + 1 < B
    // read_at, write_at: position & mask
    && (forall pos: nat :: Idx(W(pos), q.cap) == Idx(pos, q.cap))
    // new positions
    && (forall pos: nat, n: nat :: n < B ==> WrappingAdd(W(pos), n) == W(pos + n))
  }

  lemma Agreement(q: Queue)
    requires BoundsInv(q) && BoundedWords.PowerOfTwo(q.cap) && q.cap <= MAX_CAPACITY
    ensures WordsAgree(q)
  {
    SameWord(q.tail, q.wh);
    SameWord(q.sh, q.wh);
    Difference(q.tail, q.wh);
    Difference(q.tail, q.sh);
    Sum(q.sh, q.cap);
    forall t: nat | q.sh <= t <= q.sh + q.cap ensures W(t) == WrappingAdd(W(q.sh), q.cap) <==> t == q.sh + q.cap {
      SameWord(t, q.sh + q.cap);
    }
    MaxIsPower();
    PowersDivide(q.cap, B);
    forall pos: nat ensures Idx(W(pos), q.cap) == Idx(pos, q.cap) { SlotOfWord(pos, q.cap); }
    forall pos: nat, n: nat | n < B ensures WrappingAdd(W(pos), n) == W(pos + n) { Sum(pos, n); }
  }

  /** In every reachable state, whatever the capacities up to 2^31. */
  lemma WordsAgreeInRuns(r: seq<State>, caps: seq<nat>, own: seq<nat>, k: nat, i: nat)
    requires Run(r, caps, own) && k < |r| && i < |caps|
    requires forall j :: 0 <= j < |caps| ==> BoundedWords.PowerOfTwo(caps[j]) && caps[j] <= MAX_CAPACITY
    ensures i < |r[k].m.qs| && WordsAgree(r[k].m.qs[i])
  {
    RunMem(r, caps, own, k);
    CapsStay(r, caps, own, k, i);
    assert QInv(r[k].m.qs[i]);
    Agreement(r[k].m.qs[i]);
  }

  /** What book_items, is_likely_empty and pop compute from a head loaded earlier. */
  predicate LoadsAgree(q: Queue, pc: Pc) {
    && (pc.QCas? || pc.SLookTail? || pc.BTail? ==>
          && (W(q.tail) == W(pc.wh) <==> q.tail == pc.wh)
          && pc.wh <= q.tail && WrappingSub(W(q.tail), W(pc.wh)) == q.tail - pc.wh)
    && (pc.BTail? ==> (W(pc.sh) == W(pc.wh) <==> pc.sh == pc.wh))
  }

  lemma LoadsAgreeAt(m: Mem, p: nat, pc: Pc)
    requires QsInv(m.qs) && PcInv(m, p, pc) && (pc.QCas? || pc.SLookTail? || pc.BTail?)
    requires pc.i < |m.qs| && m.qs[pc.i].cap <= MAX_CAPACITY && m.qs[pc.i].tail < pc.wh + B
    ensures LoadsAgree(m.qs[pc.i], pc)
  {
    PcPoint(m, p, pc);
    assert QInv(m.qs[pc.i]);
    SameWord(m.qs[pc.i].tail, pc.wh);
    Difference(m.qs[pc.i].tail, pc.wh);
    if pc.BTail? { SameWord(pc.sh, pc.wh); }
  }

  /** The same holds for a head that a thread loaded earlier, if it is less than 2^32 old. */
  lemma StaleLoadsAgree(r: seq<State>, caps: seq<nat>, own: seq<nat>, k: nat, p: nat)
    requires Run(r, caps, own) && k < |r| && p < |r[k].pcs|
    requires forall j :: 0 <= j < |caps| ==> caps[j] <= MAX_CAPACITY
    requires r[k].pcs[p].QCas? || r[k].pcs[p].SLookTail? || r[k].pcs[p].BTail?
    requires r[k].pcs[p].i < |caps| && r[k].pcs[p].i < |r[k].m.qs| && r[k].m.qs[r[k].pcs[p].i].tail < r[k].pcs[p].wh + B
    ensures LoadsAgree(r[k].m.qs[r[k].pcs[p].i], r[k].pcs[p])
  {
    RunMem(r, caps, own, k);
    RunThread(r, caps, own, k, p);
    CapsStay(r, caps, own, k, r[k].pcs[p].i);
    LoadsAgreeAt(r[k].m, p, r[k].pcs[p]);
  }

  lemma CapStep(m: Mem, p: nat, pc: Pc, c: Choice, i: nat)
    requires Sane(m, pc) && i < |m.qs|
    ensures |MemAfter(m, p, pc, c).qs| == |m.qs| && MemAfter(m, p, pc, c).qs[i].cap == m.qs[i].cap
  {
    SanePoint(m, pc);
  }

  lemma CapNext(s: State, t: State, i: nat)
    requires Next(s, t) && i < |s.m.qs|
    ensures i < |t.m.qs| && t.m.qs[i].cap == s.m.qs[i].cap
  {
    var a :| Enabled(s, a) && Sane(s.m, s.pcs[a.p]) && !Harmful(s, a) && t == Apply(s, a);
    if a.Go? { CapStep(s.m, a.p, s.pcs[a.p], a.c, i); }
  }

  lemma {:induction false} CapsStay(r: seq<State>, caps: seq<nat>, own: seq<nat>, k: nat, i: nat)
    requires Run(r, caps, own) && k < |r| && i < |caps|
    ensures i < |r[k].m.qs| && r[k].m.qs[i].cap == caps[i]
    decreases k
  {
    if k > 0 {
      CapsStay(r, caps, own, k - 1, i);
      CapNext(r[k - 1], r[k], i);
    }
  }

  /** A CAS on the packed heads compares both positions, if those loaded are less than 2^32 old. */
  lemma HeadsCompare(wh: nat, sh: nat, wh': nat, sh': nat)
    requires wh < wh' + B && wh' < wh + B && sh < sh' + B && sh' < sh + B
    ensures Pack(W(wh), W(sh)) == Pack(W(wh'), W(sh')) <==> wh == wh' && sh == sh'
  {
    SameWord(wh, wh');
    SameWord(sh, sh');
    PackRoundTrip(W(wh), W(sh));
    PackRoundTrip(W(wh'), W(sh'));
  }
}
