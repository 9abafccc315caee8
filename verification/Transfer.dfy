/**
 Moving a run of items between two rings, or within one: element by element, and in at most
 three chunks that are contiguous on both sides. Both overwrite the destination buffer in
 place, and both do what `Moved` says.
 */
module Transfer {
  import opened Laps
  import opened StealWords
  import BoundedWords
  import StealQueue
  import StealInv
  import StealRuns

  const SMALL_CHUNK := 8

  /** Destination d after items sp .. sp + n of ring s have been written at dp .. dp + n. */
  function Moved<T>(d: seq<T>, s: seq<T>, sp: nat, dp: nat, n: nat): (r: seq<T>)
    requires |d| > 0 && |s| > 0
    ensures |r| == |d|
  {
    if n == 0 then d
    else Moved(d, s, sp, dp, n - 1)[Idx(dp + n - 1, |d|) := s[Idx(sp + n - 1, |s|)]]
  }

  /** Idx under a name that does not unfold into smaller positions, for quantifiers over slots. */
  function Slot(x: nat, cap: nat): nat
    requires cap > 0
  {
    Idx(x, cap)
  }

  /** Every item arrives at its place. */
  lemma {:induction false} MovedArrives<T>(d: seq<T>, s: seq<T>, sp: nat, dp: nat, n: nat, k: nat)
    requires |d| > 0 && |s| > 0 && k < n <= |d|
    ensures Moved(d, s, sp, dp, n)[Idx(dp + k, |d|)] == s[Idx(sp + k, |s|)]
    decreases n
  {
    if k < n - 1 {
      MovedArrives(d, s, sp, dp, n - 1, k);
      if Idx(dp + k, |d|) == Idx(dp + n - 1, |d|) { SameSlot(dp + k, dp + n - 1, |d|); }
    }
  }

  /** No other slot of the destination is touched. */
  lemma {:induction false} MovedElsewhere<T>(d: seq<T>, s: seq<T>, sp: nat, dp: nat, n: nat, i: nat)
    requires |d| > 0 && |s| > 0 && i < |d| && forall v: nat :: dp <= v < dp + n ==> Slot(v, |d|) != i
    ensures Moved(d, s, sp, dp, n)[i] == d[i]
    decreases n
  {
    if n > 0 {
      MovedElsewhere(d, s, sp, dp, n - 1, i);
      assert Slot(dp + n - 1, |d|) != i;
    }
  }

  /** Within one ring: the two runs of n positions share no slot. */
  ghost predicate Apart(sp: nat, dp: nat, n: nat, cap: nat)
    requires cap > 0
  {
    forall u: nat, v: nat :: sp <= u < sp + n && dp <= v < dp + n ==> Slot(u, cap) != Slot(v, cap)
  }

  /** A steal within one queue: the items are live, from sp to the tail dp, and the free space
      is from dp on; x and y are the unbounded positions behind sp and dp. */
  lemma SelfStealApart(x: nat, y: nat, sp: nat, dp: nat, n: nat, cap: nat)
    requires cap > 0 && Idx(x, cap) == Idx(sp, cap) && Idx(y, cap) == Idx(dp, cap)
    requires x + n <= y && y + n <= x + cap
    ensures Apart(sp, dp, n, cap)
  {
    RunBehind(x, sp, n, cap);
    RunBehind(y, dp, n, cap);
    BehindApart(x, y, sp, dp, n, cap);
  }

  /** The n positions from sp on have the slots of those from x on. */
  ghost predicate Behind(x: nat, sp: nat, n: nat, cap: nat)
    requires cap > 0
  {
    forall u: nat :: sp <= u < sp + n ==> Slot(u, cap) == Idx(x + (u - sp), cap)
  }

  lemma RunBehind(x: nat, sp: nat, n: nat, cap: nat)
    requires cap > 0 && Idx(x, cap) == Idx(sp, cap)
    ensures Behind(x, sp, n, cap)
  {
    forall u: nat | sp <= u < sp + n ensures Slot(u, cap) == Idx(x + (u - sp), cap) { SlotOf(x, sp, u, cap); }
  }

  lemma BehindApart(x: nat, y: nat, sp: nat, dp: nat, n: nat, cap: nat)
    requires cap > 0 && Behind(x, sp, n, cap) && Behind(y, dp, n, cap) && x + n <= y && y + n <= x + cap
    ensures Apart(sp, dp, n, cap)
  {
    forall u: nat, v: nat | sp <= u < sp + n && dp <= v < dp + n ensures Slot(u, cap) != Slot(v, cap) {
      var a, b := x + (u - sp), y + (v - dp);
      if Idx(a, cap) == Idx(b, cap) { SameSlot(a, b, cap); }
    }
  }

  lemma SlotOf(x: nat, sp: nat, u: nat, cap: nat)
    requires cap > 0 && Idx(x, cap) == Idx(sp, cap) && sp <= u
    ensures Slot(u, cap) == Idx(x + (u - sp), cap)
  {
    Shift(x, sp, u - sp, cap);
  }

  lemma {:induction false} Shift(x: nat, y: nat, k: nat, cap: nat)
    requires cap > 0 && Idx(x, cap) == Idx(y, cap)
    ensures Idx(x + k, cap) == Idx(y + k, cap)
    decreases k
  {
    if k > 0 {
      Shift(x, y, k - 1, cap);
      NextTicket(x + k - 1, cap);
      NextTicket(y + k - 1, cap);
    }
  }

  // ---------- element by element ----------

  method TransferLoop<T>(src: array<T>, srcPos: nat, dst: array<T>, dstPos: nat, count: nat)
    requires src.Length > 0 && dst.Length > 0 && Idx(B, src.Length) == 0 && Idx(B, dst.Length) == 0
    requires srcPos < B && dstPos < B && count < B && count <= dst.Length
    requires src == dst ==> Apart(srcPos, dstPos, count, src.Length)
    modifies dst
    ensures dst[..] == Moved(old(dst[..]), old(src[..]), srcPos, dstPos, count)
  {
    var offset := 0;
    while offset < count
      invariant offset <= count
      invariant dst[..] == Moved(old(dst[..]), old(src[..]), srcPos, dstPos, offset)
    {
      Sum(srcPos, offset);
      Sum(dstPos, offset);
      SlotOfWord(srcPos + offset, src.Length);
      SlotOfWord(dstPos + offset, dst.Length);
      if src == dst { SourceIntact(old(dst[..]), srcPos, dstPos, count, offset); }
      var item := src[Idx(WrappingAdd(srcPos, offset), src.Length)];
      dst[Idx(WrappingAdd(dstPos, offset), dst.Length)] := item;
      offset := offset + 1;
    }
  }

  /** In one ring, what was moved so far has not changed what is still to be moved. */
  lemma SourceIntact<T>(d: seq<T>, sp: nat, dp: nat, n: nat, k: nat)
    requires |d| > 0 && k < n && Apart(sp, dp, n, |d|)
    ensures Moved(d, d, sp, dp, k)[Idx(sp + k, |d|)] == d[Idx(sp + k, |d|)]
  {
    assert Slot(sp + k, |d|) == Idx(sp + k, |d|);
    MovedElsewhere(d, d, sp, dp, k, Slot(sp + k, |d|));
  }

  // ---------- in chunks ----------

  /** Copies a contiguous chunk: a loop for a short one, a bulk copy for a long one. */
  method CopyChunk<T>(src: array<T>, a0: nat, dst: array<T>, b0: nat, len: nat)
    requires a0 + len <= src.Length && b0 + len <= dst.Length
    requires src == dst ==> a0 + len <= b0 || b0 + len <= a0
    modifies dst
    ensures forall i :: 0 <= i < dst.Length ==>
              dst[i] == if b0 <= i < b0 + len then old(src[a0 + (i - b0)]) else old(dst[i])
  {
    if len <= SMALL_CHUNK {
      for i := 0 to len
        invariant forall j :: 0 <= j < dst.Length ==>
                    dst[j] == if b0 <= j < b0 + i then old(src[a0 + (j - b0)]) else old(dst[j])
      {
        dst[b0 + i] := src[a0 + i];
      }
    } else {
      forall i | 0 <= i < len { dst[b0 + i] := src[a0 + i]; }
    }
  }

  /** Position x + k is k slots after slot Idx(x), if that does not reach the end of the ring. */
  lemma {:induction false} RunOf(x: nat, k: nat, cap: nat)
    requires cap > 0 && Idx(x, cap) + k < cap
    ensures Idx(x + k, cap) == Idx(x, cap) + k
    decreases k
  {
    if k > 0 {
      RunOf(x, k - 1, cap);
      NextTicket(x + k - 1, cap);
    }
  }

  /** d1 is d0 with len items of s, from slot a0 on, at b0. */
  ghost predicate ChunkCopied<T>(d0: seq<T>, s: seq<T>, a0: nat, b0: nat, len: nat, d1: seq<T>) {
    && a0 + len <= |s| && b0 + len <= |d0| == |d1|
    && forall i :: 0 <= i < |d0| ==> d1[i] == if b0 <= i < b0 + len then s[a0 + (i - b0)] else d0[i]
  }

  lemma ChunkShorter<T>(d0: seq<T>, s: seq<T>, a0: nat, b0: nat, len: nat, d1: seq<T>) returns (d2: seq<T>)
    requires len > 0 && ChunkCopied(d0, s, a0, b0, len, d1)
    ensures ChunkCopied(d0, s, a0, b0, len - 1, d2) && d1 == d2[b0 + len - 1 := s[a0 + len - 1]]
  {
    d2 := d1[b0 + len - 1 := d0[b0 + len - 1]];
  }

  /** Copying the chunk of positions start .. start + len carries a move on by len. */
  lemma {:induction false} ChunkMoves<T>(d: seq<T>, s: seq<T>, sp: nat, dp: nat, start: nat, len: nat, d1: seq<T>)
    requires |d| > 0 && |s| > 0
    requires ChunkCopied(Moved(d, s, sp, dp, start), s, Idx(sp + start, |s|), Idx(dp + start, |d|), len, d1)
    ensures d1 == Moved(d, s, sp, dp, start + len)
    decreases len
  {
    if len > 0 {
      var a0, b0 := Idx(sp + start, |s|), Idx(dp + start, |d|);
      var d2 := ChunkShorter(Moved(d, s, sp, dp, start), s, a0, b0, len, d1);
      ChunkMoves(d, s, sp, dp, start, len - 1, d2);
      RunOf(sp + start, len - 1, |s|);
      RunOf(dp + start, len - 1, |d|);
      assert sp + start + (len - 1) == sp + (start + len) - 1 && dp + start + (len - 1) == dp + (start + len) - 1;
    }
  }

  /** The slot before that of position x + 1, if it is not the last of the ring. */
  lemma SlotBefore(x: nat, cap: nat)
    requires cap > 0 && Idx(x + 1, cap) > 0
    ensures Idx(x, cap) == Idx(x + 1, cap) - 1
  {
    NextTicket(x, cap);
  }

  /** A contiguous chunk of a run of positions: its first slot, and every one, is of the run. */
  ghost predicate Chunk(x: nat, n: nat, cap: nat, start: nat, len: nat, first: nat)
    requires cap > 0
  {
    && 0 <= start && start + len <= n && (len == 0 ==> start >= 1)
    && first == Idx(x + start, cap) && first + len <= cap
  }

  /** A slot inside a chunk, or just before an empty one, is the slot of a position of the run. */
  lemma InChunk(x: nat, n: nat, cap: nat, start: nat, len: nat, first: nat, slot: nat) returns (u: nat)
    requires cap > 0 && Chunk(x, n, cap, start, len, first)
    requires if len == 0 then slot + 1 == first else first <= slot < first + len
    ensures x <= u < x + n && Slot(u, cap) == slot
  {
    if len == 0 {
      u := x + start - 1;
      SlotBefore(u, cap);
    } else {
      RunOf(x + start, slot - first, cap);
      u := x + start + (slot - first);
    }
  }

  /** The chunk assertion of a self-steal: every source chunk, empty or not, is clear of every
      destination chunk. */
  lemma ChunksDisjoint(sp: nat, dp: nat, n: nat, cap: nat, a: nat, al: nat, a0: nat, b: nat, bl: nat, b0: nat)
    requires cap > 0 && Apart(sp, dp, n, cap) && Chunk(sp, n, cap, a, al, a0) && Chunk(dp, n, cap, b, bl, b0)
    ensures a0 + al <= b0 || b0 + bl <= a0
  {
    if b0 < a0 + al && a0 < b0 + bl {
      var slot := if al == 0 then a0 - 1 else if bl == 0 then b0 - 1 else if a0 <= b0 then b0 else a0;
      var u := InChunk(sp, n, cap, a, al, a0, slot);
      var v := InChunk(dp, n, cap, b, bl, b0, slot);
      assert false;
    }
  }

  function Min(x: nat, y: nat): nat {
    if x < y then x else y
  }

  /** A run of n slots from slot si on, cut at s where it reaches the end of the ring, consists
      of contiguous pieces. */
  lemma CutIsContiguous(x: nat, si: nat, n: nat, cap: nat, start: nat, end: nat)
    requires 0 < cap && si == Idx(x, cap) && start <= end <= n <= cap
             && (end <= Min(cap - si, n) || Min(cap - si, n) <= start)
    ensures Idx(si + start, cap) == Idx(x + start, cap) && Idx(x + start, cap) + (end - start) <= cap
  {
    assert Idx(si, cap) == si;
    Shift(si, x, start, cap);
    if si + start >= cap { assert Idx(si + start, cap) == Idx(si + start - cap, cap) == si + start - cap; }
  }

  lemma SourceChunkIntact<T>(d: seq<T>, sp: nat, dp: nat, n: nat, start: nat, len: nat, i: nat)
    requires |d| > 0 && start + len <= n && Apart(sp, dp, n, |d|)
    requires Idx(sp + start, |d|) <= i < Idx(sp + start, |d|) + len <= |d|
    ensures Moved(d, d, sp, dp, start)[i] == d[i]
  {
    var k := i - Idx(sp + start, |d|);
    RunOf(sp + start, k, |d|);
    assert Slot(sp + start + k, |d|) == i;
    MovedElsewhere(d, d, sp, dp, start, i);
  }

  /** The pieces lo and hi cut both runs at their ends. */
  ghost predicate Cuts(si: nat, cap: nat, di: nat, dcap: nat, n: nat, lo: nat, hi: nat) {
    && si < cap && di < dcap
    && var s, d := Min(cap - si, n), Min(dcap - di, n);
       lo == Min(s, d) && hi == s + d - lo
  }

  predicate IsPiece(a: (nat, nat), n: nat, lo: nat, hi: nat) {
    a == (0, lo) || a == (lo, hi) || a == (hi, n)
  }

  lemma PieceIsChunk(x: nat, si: nat, cap: nat, di: nat, dcap: nat, n: nat, lo: nat, hi: nat, start: nat, end: nat)
    requires cap > 0 && si == Idx(x, cap) && 2 <= n <= cap
             && (Cuts(si, cap, di, dcap, n, lo, hi) || Cuts(di, dcap, si, cap, n, lo, hi))
    requires IsPiece((start, end), n, lo, hi)
    ensures start <= end <= n && Chunk(x, n, cap, start, end - start, Idx(si + start, cap))
            && Idx(si + start, cap) == Idx(x + start, cap)
  {
    CutIsContiguous(x, si, n, cap, start, end);
  }

  /** The debug assertion of a self-steal, over all pairs of pieces. */
  ghost predicate AllDisjoint(si: nat, di: nat, cap: nat, pieces: seq<(nat, nat)>)
    requires cap > 0
  {
    forall a, b :: a in pieces && b in pieces ==> PairDisjoint(si, di, cap, a, b)
  }

  predicate PairDisjoint(si: nat, di: nat, cap: nat, a: (nat, nat), b: (nat, nat))
    requires cap > 0
  {
    var a0, b0 := Idx(si + a.0, cap), Idx(di + b.0, cap);
    a0 + (a.1 - a.0) <= b0 || b0 + (b.1 - b.0) <= a0
  }

  lemma PairIsDisjoint(sp: nat, dp: nat, si: nat, di: nat, cap: nat, n: nat, a: (nat, nat), b: (nat, nat))
    requires cap > 0 && Apart(sp, dp, n, cap) && a.0 <= a.1 && b.0 <= b.1
    requires Chunk(sp, n, cap, a.0, a.1 - a.0, Idx(si + a.0, cap))
             && Chunk(dp, n, cap, b.0, b.1 - b.0, Idx(di + b.0, cap))
    ensures PairDisjoint(si, di, cap, a, b)
  {
    ChunksDisjoint(sp, dp, n, cap, a.0, a.1 - a.0, Idx(si + a.0, cap), b.0, b.1 - b.0, Idx(di + b.0, cap));
  }

  /** In a self-steal of live items into free space the assertion always holds. */
  lemma ChunkAssertionHolds(sp: nat, dp: nat, si: nat, di: nat, cap: nat, n: nat, lo: nat, hi: nat)
    requires cap > 0 && si == Idx(sp, cap) && di == Idx(dp, cap) && 2 <= n <= cap && Cuts(si, cap, di, cap, n, lo, hi)
    requires Apart(sp, dp, n, cap)
    ensures AllDisjoint(si, di, cap, [(0, lo), (lo, hi), (hi, n)])
  {
    var pieces := [(0, lo), (lo, hi), (hi, n)];
    forall a, b | a in pieces && b in pieces ensures PairDisjoint(si, di, cap, a, b) {
      PieceIsChunk(sp, si, cap, di, cap, n, lo, hi, a.0, a.1);
      PieceIsChunk(dp, di, cap, si, cap, n, lo, hi, b.0, b.1);
      PairIsDisjoint(sp, dp, si, di, cap, n, a, b);
    }
  }

  lemma PieceIsApart(sp: nat, dp: nat, si: nat, di: nat, cap: nat, n: nat, lo: nat, hi: nat, start: nat, end: nat)
    requires cap > 0 && si == Idx(sp, cap) && di == Idx(dp, cap) && 2 <= n <= cap && Cuts(si, cap, di, cap, n, lo, hi)
    requires Apart(sp, dp, n, cap) && IsPiece((start, end), n, lo, hi)
    ensures PairDisjoint(si, di, cap, (start, end), (start, end))
  {
    PieceIsChunk(sp, si, cap, di, cap, n, lo, hi, start, end);
    PieceIsChunk(dp, di, cap, si, cap, n, lo, hi, start, end);
    PairIsDisjoint(sp, dp, si, di, cap, n, (start, end), (start, end));
  }

  /** One piece, from the state in which all before it are done. */
  method MovePiece<T>(src: array<T>, srcPos: nat, si: nat, dst: array<T>, dstPos: nat, di: nat, start: nat, end: nat,
      n: nat, ghost d: seq<T>, ghost s: seq<T>)
    requires src.Length > 0 && dst.Length > 0 && n <= dst.Length && start <= end <= n && |d| == dst.Length
             && |s| == src.Length
    requires Idx(si + start, src.Length) == Idx(srcPos + start, src.Length)
             && Idx(di + start, dst.Length) == Idx(dstPos + start, dst.Length)
    requires Idx(srcPos + start, src.Length) + (end - start) <= src.Length
             && Idx(dstPos + start, dst.Length) + (end - start) <= dst.Length
    requires src == dst ==>
               s == d && Apart(srcPos, dstPos, n, src.Length)
               && PairDisjoint(si, di, src.Length, (start, end), (start, end))
    requires src != dst ==> src[..] == s
    requires dst[..] == Moved(d, s, srcPos, dstPos, start)
    modifies dst
    ensures dst[..] == Moved(d, s, srcPos, dstPos, end)
  {
    var len := end - start;
    if len == 0 { return; }
    var a0, b0 := Idx(si + start, src.Length), Idx(di + start, dst.Length);
    ghost var s0 := src[..];
    forall i | a0 <= i < a0 + len ensures s0[i] == s[i] {
      if src == dst { SourceChunkIntact(d, srcPos, dstPos, n, start, len, i); }
    }
    CopyChunk(src, a0, dst, b0, len);
    assert ChunkCopied(Moved(d, s, srcPos, dstPos, start), s, a0, b0, len, dst[..]);
    ChunkMoves(d, s, srcPos, dstPos, start, len, dst[..]);
  }

  /** The chunked transfer does what the element loop does. */
  method TransferItems<T>(src: array<T>, srcPos: nat, dst: array<T>, dstPos: nat, count: nat)
    requires src.Length > 0 && dst.Length > 0 && count <= src.Length && count <= dst.Length
    requires src == dst ==> Apart(srcPos, dstPos, count, src.Length)
    modifies dst
    ensures dst[..] == Moved(old(dst[..]), old(src[..]), srcPos, dstPos, count)
  {
    var cap, dcap, n := src.Length, dst.Length, count;
    var si, di := Idx(srcPos, cap), Idx(dstPos, dcap);
    if n <= 1 {
      if n == 1 { dst[di] := src[si]; }
      return;
    }
    var s, d := Min(cap - si, n), Min(dcap - di, n);
    var lo, hi := if s <= d then s else d, if s <= d then d else s;
    if src == dst { ChunkAssertionHolds(srcPos, dstPos, si, di, cap, n, lo, hi); }
    assert src == dst ==> AllDisjoint(si, di, cap, [(0, lo), (lo, hi), (hi, n)]);
    ghost var d0, s0 := dst[..], src[..];
    var pieces := [(0, lo), (lo, hi), (hi, n)];
    var c := 0;
    while c < 3
      invariant c <= 3
      invariant src != dst ==> src[..] == s0
      invariant dst[..] == Moved(d0, s0, srcPos, dstPos, if c < 3 then pieces[c].0 else n)
    {
      var start, end := pieces[c].0, pieces[c].1;
      PieceIsChunk(srcPos, si, cap, di, dcap, n, lo, hi, start, end);
      PieceIsChunk(dstPos, di, dcap, si, cap, n, lo, hi, start, end);
      if src == dst { PieceIsApart(srcPos, dstPos, si, di, cap, n, lo, hi, start, end); }
      MovePiece(src, srcPos, si, dst, dstPos, di, start, end, n, d0, s0);
      c := c + 1;
    }
  }

  // ---------- steal meets the contract ----------

  lemma RoomForMove(m: StealQueue.Mem, p: nat, pc: StealQueue.Pc)
    requires StealInv.MemInv(m) && StealInv.ThreadInv(m, p, pc) && pc.SRead?
    ensures pc.i < |m.qs| && pc.j < |m.qs| && m.qs[pc.i].cap > 0 && m.qs[pc.j].cap > 0
    ensures var n := StealQueue.Moved(pc.pop, pc.n);
            && n <= m.qs[pc.i].cap && n <= m.qs[pc.j].cap
            && (pc.i == pc.j ==> pc.from + n <= pc.dt && pc.dt + n <= pc.from + m.qs[pc.i].cap)
  {
    StealInv.PcPoint(m, p, pc);
    StealInv.CopyPoint(m, pc);
    assert StealInv.QInv(m.qs[pc.i]) && StealInv.QInv(m.qs[pc.j]);
  }

  /** The transfer of a steal never moves more than either ring has, and within one ring its two
      runs share no slot; so TransferItems and TransferLoop may be called, and agree. */
  lemma StealMeetsContract(r: seq<StealQueue.State>, caps: seq<nat>, own: seq<nat>, k: nat, p: nat)
    requires StealQueue.Run(r, caps, own) && k < |r| && p < |r[k].pcs| && r[k].pcs[p].SRead?
    requires forall j :: 0 <= j < |caps| ==> BoundedWords.PowerOfTwo(caps[j]) && caps[j] <= MAX_CAPACITY
    ensures var m, pc := r[k].m, r[k].pcs[p];
            && pc.i < |m.qs| && pc.j < |m.qs| && m.qs[pc.i].cap > 0 && m.qs[pc.j].cap > 0
            && var n := StealQueue.Moved(pc.pop, pc.n);
               && n <= m.qs[pc.i].cap && n <= m.qs[pc.j].cap
               && (pc.i == pc.j ==> Apart(W(pc.from), W(pc.dt), n, m.qs[pc.i].cap))
  {
    StealRuns.RunMem(r, caps, own, k);
    StealRuns.RunThread(r, caps, own, k, p);
    var m, pc := r[k].m, r[k].pcs[p];
    RoomForMove(m, p, pc);
    if pc.i == pc.j {
      var cap := m.qs[pc.i].cap;
      QueueCount(r, caps, own, k);
      CapsStay(r, caps, own, k, pc.i);
      SelfMove(pc.from, pc.dt, StealQueue.Moved(pc.pop, pc.n), cap);
    }
  }

  lemma SelfMove(from: nat, dt: nat, n: nat, cap: nat)
    requires BoundedWords.PowerOfTwo(cap) && cap <= MAX_CAPACITY && from + n <= dt && dt + n <= from + cap
    ensures Apart(W(from), W(dt), n, cap)
  {
    MaxIsPower();
    PowersDivide(cap, B);
    SlotOfWord(from, cap);
    SlotOfWord(dt, cap);
    SelfStealApart(from, dt, W(from), W(dt), n, cap);
  }

  lemma {:induction false} QueueCount(r: seq<StealQueue.State>, caps: seq<nat>, own: seq<nat>, k: nat)
    requires StealQueue.Run(r, caps, own) && k < |r|
    ensures |r[k].m.qs| == |caps|
    decreases k
  {
    if k > 0 {
      QueueCount(r, caps, own, k - 1);
      CountNext(r[k - 1], r[k]);
    }
  }

  lemma CountNext(s: StealQueue.State, t: StealQueue.State)
    requires StealQueue.Next(s, t)
    ensures |t.m.qs| == |s.m.qs|
  {
    var a :| StealQueue.Enabled(s, a) && StealQueue.Sane(s.m, s.pcs[a.p]) && !StealQueue.Harmful(s, a)
             && t == StealQueue.Apply(s, a);
    StealQueue.SanePoint(s.m, s.pcs[a.p]);
  }
}
