/**
 A waker node: a state and a registration stamp packed in one word, and the park token of the
 thread behind it. These are the operations as one thread runs them; WakeProtocol interleaves
 them.
 */
module Waker {
  import opened Basics

  // WakerState; the order matters
  const INIT: nat := 0
  const WAITING: nat := 1
  const REUSE: nat := 2
  const WOKEN: nat := 3
  const CLOSED: nat := 4
  const DONE: nat := 5

  datatype WakeResult = Woken | Next | Skip

  function Pack(state: nat, stamp: nat): nat {
    state + 256 * stamp
  }

  function StateOf(w: nat): nat {
    w % 256
  }

  function SeqOf(w: nat): nat {
    w / 256
  }

  lemma PackRoundTrip(state: nat, stamp: nat)
    requires state < 256
    ensures StateOf(Pack(state, stamp)) == state && SeqOf(Pack(state, stamp)) == stamp
  {
  }

  lemma UnpackRoundTrip(w: nat)
    ensures Pack(StateOf(w), SeqOf(w)) == w && StateOf(w) < 256
  {
  }

  /** The same stamp with another state. */
  function WithState(w: nat, state: nat): (r: nat)
    requires state < 256
    ensures StateOf(r) == state && SeqOf(r) == SeqOf(w)
  {
    Pack(state, SeqOf(w))
  }

  // ---------- what a wake, a close and an abandon do to a word ----------

  function Woke(w: nat, stamp: Option<nat>): WakeResult {
    if StateOf(w) == INIT then Next
    else if StateOf(w) == WAITING && (stamp == None || stamp == Some(SeqOf(w))) then Woken
    else Skip
  }

  /** The word after a wake for a stamp; no stamp skips the gate. */
  function AfterWake(w: nat, stamp: Option<nat>): nat {
    if Woke(w, stamp) == Skip then w else WithState(w, WOKEN)
  }

  function AfterClose(w: nat): nat {
    if StateOf(w) <= WAITING then WithState(w, CLOSED) else w
  }

  /** A wake spends its event only on a committed waiter with its own stamp; it changes a word
      at most once per episode: a second wake, a close or an abandon finds nothing to do. */
  lemma OneDelivery(w: nat, stamp: nat, other: Option<nat>)
    ensures Woke(w, Some(stamp)) == Woken <==> StateOf(w) == WAITING && SeqOf(w) == stamp
    ensures SeqOf(AfterWake(w, Some(stamp))) == SeqOf(w)
    ensures Woke(w, Some(stamp)) != Skip ==>
              var w' := AfterWake(w, Some(stamp));
              StateOf(w') == WOKEN && Woke(w', other) == Skip && AfterWake(w', other) == w' && AfterClose(w') == w'
    ensures StateOf(w) <= WAITING ==>
              var w' := AfterClose(w);
              StateOf(w') == CLOSED && SeqOf(w') == SeqOf(w) && Woke(w', other) == Skip && AfterWake(w', other) == w'
    ensures StateOf(w) == REUSE ==> AfterWake(w, other) == w && AfterClose(w) == w
  {
  }

  class WakerInner {
    var word: nat
    var unparks: nat       // how often the thread behind the node was unparked
    var live: bool         // some strong reference is left

    constructor (stamp: nat)
      ensures word == Pack(INIT, stamp) && unparks == 0 && live
    {
      word := Pack(INIT, stamp);
      unparks := 0;
      live := true;
    }

    method SetSeq(stamp: nat)
      modifies this`word
      ensures StateOf(word) == StateOf(old(word)) && SeqOf(word) == stamp && word == Pack(StateOf(old(word)), stamp)
    {
      word := Pack(StateOf(word), stamp);
    }

    method Retire()
      modifies this`word
      ensures word == WithState(old(word), REUSE)
    {
      word := Pack(REUSE, SeqOf(word));
    }

    /** Returns the state afterwards: Waiting, or what was in the way. */
    method CommitWaiting() returns (state: nat)
      modifies this`word
      ensures word == (if StateOf(old(word)) == INIT then WithState(old(word), WAITING) else old(word))
      ensures state == StateOf(word)
    {
      if StateOf(word) == INIT {
        word := Pack(WAITING, SeqOf(word));
        state := WAITING;
      } else {
        state := StateOf(word);
      }
    }

    /** The CAS loop of a single thread: it succeeds if the state is at most `condition`. */
    method ChangeStateSmallerEq(condition: nat, target: nat) returns (ok: bool, state: nat)
      requires condition < target < 256
      modifies this`word
      ensures ok == (StateOf(old(word)) <= condition) && state == StateOf(old(word))
      ensures word == if ok then WithState(old(word), target) else old(word)
    {
      state := StateOf(word);
      ok := state <= condition;
      if ok { word := Pack(target, SeqOf(word)); }
    }

    method Abandon() returns (ok: bool, state: nat)
      modifies this`word
      ensures ok == (StateOf(old(word)) <= WAITING) && state == StateOf(old(word))
      ensures word == AfterClose(old(word))
    {
      ok, state := ChangeStateSmallerEq(WAITING, CLOSED);
    }

    method CloseWake() returns (ok: bool)
      modifies this`word, this`unparks
      ensures ok == (StateOf(old(word)) <= WAITING)
      ensures word == AfterClose(old(word)) && unparks == old(unparks) + if ok then 1 else 0
    {
      var state;
      ok, state := ChangeStateSmallerEq(WAITING, CLOSED);
      if ok { unparks := unparks + 1; }
    }

    method Wake(stamp: Option<nat>) returns (r: WakeResult)
      modifies this`word, this`unparks
      ensures r == Woke(old(word), stamp) && word == AfterWake(old(word), stamp)
      ensures unparks == old(unparks) + if r == Skip then 0 else 1
    {
      var state := StateOf(word);
      if state >= WOKEN || state == REUSE {
        r := Skip;
      } else if state == WAITING {
        if stamp != None && stamp != Some(SeqOf(word)) {
          r := Skip;
        } else {
          word := Pack(WOKEN, SeqOf(word));
          unparks := unparks + 1;
          r := Woken;
        }
      } else {
        word := Pack(WOKEN, SeqOf(word));
        unparks := unparks + 1;
        r := Next;
      }
    }
  }
}
