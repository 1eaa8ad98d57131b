/** The browser/Node timer runtime, modelled on values: `setTimeout` appends a
    pending record with a fresh handle, `clearTimeout` drops the records with
    that handle, and the event loop runs the earliest due record first (records
    due at the same instant run in the order they were created). */
module Timers {

  datatype Timer<K> = Timer(handle: nat, fireAt: int, kind: K)

  /** The pending timers whose handle is not in `hs`, in their original order. */
  function WithoutHandles<K(==,!new)>(p: seq<Timer<K>>, hs: set<nat>): (r: seq<Timer<K>>)
    ensures |r| <= |p|
    ensures forall t :: t in r <==> t in p && t.handle !in hs
  {
    if p == [] then []
    else (if p[0].handle in hs then [] else [p[0]]) + WithoutHandles(p[1..], hs)
  }

  /** `clearTimeout(h)`. */
  function Cancel<K(==,!new)>(p: seq<Timer<K>>, h: nat): (r: seq<Timer<K>>)
    ensures forall t :: t in r <==> t in p && t.handle != h
  {
    WithoutHandles(p, {h})
  }

  /** Clearing handles one after the other is the same as clearing them all at once. */
  lemma {:induction false} CancelAfterCancel<K(!new)>(p: seq<Timer<K>>, hs: set<nat>, h: nat)
    ensures Cancel(WithoutHandles(p, hs), h) == WithoutHandles(p, hs + {h})
  {
    if p != [] {
      var rest := WithoutHandles(p[1..], hs);
      CancelAfterCancel(p[1..], hs, h);
      if p[0].handle in hs {
        assert WithoutHandles(p, hs) == rest;
      } else {
        var q := [p[0]] + rest;
        assert WithoutHandles(p, hs) == q;
        assert q[0] == p[0] && q[1..] == rest;
        assert WithoutHandles(q, {h}) == (if p[0].handle == h then [] else [p[0]]) + WithoutHandles(rest, {h});
      }
    }
  }

  /** Clearing no handle leaves every timer pending. */
  lemma {:induction false} WithoutNoHandles<K(!new)>(p: seq<Timer<K>>)
    ensures WithoutHandles(p, {}) == p
  {
    if p != [] {
      WithoutNoHandles(p[1..]);
      assert p == [p[0]] + p[1..];
    }
  }

  /** Nothing pending is due at `now`. */
  predicate NoneDue<K>(p: seq<Timer<K>>, now: int) {
    forall j :: 0 <= j < |p| ==> p[j].fireAt > now
  }

  /** `p[k]` is the timer the event loop runs next at time `now`: it is due,
      no due timer is earlier, and every timer created before it is later. */
  predicate IsEarliestDue<K>(p: seq<Timer<K>>, now: int, k: int) {
    0 <= k < |p| && p[k].fireAt <= now
    && (forall j :: 0 <= j < |p| && p[j].fireAt <= now ==> p[k].fireAt <= p[j].fireAt)
    && (forall j :: 0 <= j < k ==> p[j].fireAt > p[k].fireAt)
  }

  /** The earliest-created timer with the smallest due time, or -1 when
      nothing is due. */
  method EarliestDue<K>(p: seq<Timer<K>>, now: int) returns (k: int)
    ensures -1 <= k < |p|
    ensures k == -1 <==> NoneDue(p, now)
    ensures k >= 0 ==> IsEarliestDue(p, now, k)
  {
    k := -1;
    for i := 0 to |p|
      invariant -1 <= k < i
      invariant k == -1 ==> forall j :: 0 <= j < i ==> p[j].fireAt > now
      invariant k >= 0 ==> p[k].fireAt <= now
      invariant k >= 0 ==> forall j :: 0 <= j < i && p[j].fireAt <= now ==> p[k].fireAt <= p[j].fireAt
      invariant k >= 0 ==> forall j :: 0 <= j < k ==> p[j].fireAt > p[k].fireAt
    {
      if p[i].fireAt <= now && (k == -1 || p[i].fireAt < p[k].fireAt) {
        k := i;
      }
    }
  }

  /** At most one timer is the next one to run. */
  lemma EarliestDueUnique<K>(p: seq<Timer<K>>, now: int, k1: int, k2: int)
    requires IsEarliestDue(p, now, k1) && IsEarliestDue(p, now, k2)
    ensures k1 == k2
  {
  }
}
