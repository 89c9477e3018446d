/**
 * The handshake every interrupt-driven example uses: an interrupt handler sets a
 * `volatile bool`, and the main loop spins on it, clears it and then acts once.
 *
 * A run is a history of atomic steps. `Raise` is a handler setting the flag;
 * `Poll` is one test of the flag by the main loop, which, when the flag is set,
 * clears it and performs the loop's action (an observation).
 */
module FlagChannel {

  datatype Event = Raise | Poll

  /** The flag after one step. */
  function Apply(flag: bool, e: Event): bool
  {
    match e
    case Raise => true
    case Poll => false
  }

  /** The flag after replaying history `h` from the initial value `init`. */
  function FlagAfter(init: bool, h: seq<Event>): bool
  {
    if h == [] then init else Apply(FlagAfter(init, h[..|h| - 1]), h[|h| - 1])
  }

  /** How many polls of `h` found the flag set, that is, how many times the loop acted. */
  function Observed(init: bool, h: seq<Event>): nat
  {
    if h == [] then 0
    else
      var before := h[..|h| - 1];
      Observed(init, before) + (if h[|h| - 1] == Poll && FlagAfter(init, before) then 1 else 0)
  }

  /** The number of `Raise` steps in `h`. */
  function Raises(h: seq<Event>): nat
  {
    if h == [] then 0 else Raises(h[..|h| - 1]) + (if h[|h| - 1] == Raise then 1 else 0)
  }

  /**
   * An independent count, read from the front: a poll acts exactly when the step
   * just before it was a raise (or, for the first step, when the flag started set).
   * `prev` is "the previous step left the flag set".
   */
  function RaiseThenPoll(prev: bool, h: seq<Event>): nat
    decreases |h|
  {
    if h == [] then 0
    else (if h[0] == Poll && prev then 1 else 0) + RaiseThenPoll(h[0] == Raise, h[1..])
  }

  /** Appending one step extends the replay by that step. */
  lemma Extend(init: bool, h: seq<Event>, e: Event)
    ensures FlagAfter(init, h + [e]) == Apply(FlagAfter(init, h), e)
    ensures Observed(init, h + [e]) == Observed(init, h) + (if e == Poll && FlagAfter(init, h) then 1 else 0)
    ensures Raises(h + [e]) == Raises(h) + (if e == Raise then 1 else 0)
  {
    assert (h + [e])[..|h|] == h;
  }

  /**
   * Nothing is observed that was not raised: every observation, and a flag still
   * pending, is backed by its own raise (or by the initial value).
   */
  lemma {:induction false} ObservedBoundedByRaises(init: bool, h: seq<Event>)
    ensures Observed(init, h) + (if FlagAfter(init, h) then 1 else 0) <= Raises(h) + (if init then 1 else 0)
  {
    if h != [] {
      ObservedBoundedByRaises(init, h[..|h| - 1]);
    }
  }

  /**
   * No raise is lost: when only raises lie between a raise at `i` and a poll at `j`,
   * the poll at `j` finds the flag set and acts.
   */
  lemma {:induction false} RaiseIsObserved(init: bool, h: seq<Event>, i: nat, j: nat)
    requires i < j < |h|
    requires h[i] == Raise && h[j] == Poll
    requires forall k :: i < k < j ==> h[k] == Raise
    ensures FlagAfter(init, h[..j])
    ensures Observed(init, h[..j + 1]) == Observed(init, h[..j]) + 1
  {
    assert h[..j][j - 1] == h[j - 1];
    assert h[j - 1] == Raise by {
      if j - 1 > i {
        assert i < j - 1 < j;
      }
    }
    Extend(init, h[..j], h[j]);
    assert h[..j] + [h[j]] == h[..j + 1];
  }

  /**
   * Each raise is consumed once: after a poll at `j`, every further poll before the
   * next raise finds the flag clear and does not act again.
   */
  lemma {:induction false} ObservedOnce(init: bool, h: seq<Event>, j: nat, k: nat)
    requires j < k <= |h|
    requires forall m :: j <= m < k ==> h[m] == Poll
    ensures !FlagAfter(init, h[..k])
    ensures Observed(init, h[..k]) <= Observed(init, h[..j + 1])
  {
    if k == j + 1 {
      assert h[..k][k - 1] == h[j];
    } else {
      ObservedOnce(init, h, j, k - 1);
      assert h[..k][k - 1] == h[k - 1];
      Extend(init, h[..k - 1], h[k - 1]);
      assert h[..k - 1] + [h[k - 1]] == h[..k];
    }
  }

  /** Several raises before one clear collapse into one: a second raise changes nothing. */
  lemma {:induction false} Coalesce(init: bool, h: seq<Event>, t: seq<Event>)
    ensures FlagAfter(init, h + [Raise, Raise] + t) == FlagAfter(init, h + [Raise] + t)
    ensures Observed(init, h + [Raise, Raise] + t) == Observed(init, h + [Raise] + t)
  {
    if t == [] {
      Extend(init, h, Raise);
      Extend(init, h + [Raise], Raise);
      assert h + [Raise, Raise] + [] == h + [Raise] + [Raise];
      assert h + [Raise] + [] == h + [Raise];
    } else {
      var last := t[|t| - 1];
      var front := t[..|t| - 1];
      Coalesce(init, h, front);
      assert h + [Raise, Raise] + t == (h + [Raise, Raise] + front) + [last];
      assert h + [Raise] + t == (h + [Raise] + front) + [last];
      Extend(init, h + [Raise, Raise] + front, last);
      Extend(init, h + [Raise] + front, last);
    }
  }

  /** Reading the history from the front gives the same count. */
  lemma {:induction false} ObservedCons(init: bool, e: Event, t: seq<Event>)
    ensures FlagAfter(init, [e] + t) == FlagAfter(Apply(init, e), t)
    ensures Observed(init, [e] + t) == (if e == Poll && init then 1 else 0) + Observed(Apply(init, e), t)
  {
    if t == [] {
      Extend(init, [], e);
      assert [e] + t == [] + [e];
    } else {
      var last := t[|t| - 1];
      var front := t[..|t| - 1];
      ObservedCons(init, e, front);
      assert [e] + t == ([e] + front) + [last];
      Extend(init, [e] + front, last);
      Extend(Apply(init, e), front, last);
      assert front + [last] == t;
    }
  }

  /**
   * The loop acts exactly once per maximal run of raises that a poll ends: the
   * operational count equals the count of raise-then-poll adjacencies.
   */
  lemma {:induction false} ObservedIsRaiseThenPoll(init: bool, h: seq<Event>)
    ensures Observed(init, h) == RaiseThenPoll(init, h)
    decreases |h|
  {
    if h != [] {
      ObservedCons(init, h[0], h[1..]);
      assert [h[0]] + h[1..] == h;
      ObservedIsRaiseThenPoll(Apply(init, h[0]), h[1..]);
      assert Apply(init, h[0]) == (h[0] == Raise);
    }
  }
}
