/** The cross-framework event bus of src/integration/EventBus.ts: a map from event name to
    the callbacks registered for it, in registration order. Callbacks are opaque identities;
    `emit` returns the calls it makes, in order. */
module EventBus {
  import opened Optional

  type CallbackId = nat

  /** One callback invocation `callback(data)`. */
  datatype Call<D> = Call(callback: CallbackId, data: D)

  datatype Bus = Bus(events: map<string, seq<CallbackId>>)

  /** The private constructor: no event registered. */
  function New(): (b: Bus)
    ensures forall e :: e !in b.events
  {
    Bus(map[])
  }

  /** `getInstance`: builds the bus on first use, then always returns that same bus. */
  function GetInstance(instance: Option<Bus>): (b: Bus)
    ensures instance.Some? ==> b == instance.value
    ensures instance.None? ==> b.events == map[]
  {
    instance.GetOr(New())
  }

  /** The callbacks `emit` would run for `e`; an unknown event behaves as an empty list. */
  function Callbacks(b: Bus, e: string): seq<CallbackId> {
    if e in b.events then b.events[e] else []
  }

  /** `on`: creates an empty list for a new event, then appends the callback. */
  function On(b: Bus, e: string, c: CallbackId): (r: Bus)
    ensures e in r.events && r.events[e] == Callbacks(b, e) + [c]
    ensures r.events.Keys == b.events.Keys + {e}
    ensures forall e' :: e' != e && e' in b.events ==> r.events[e'] == b.events[e']
  {
    var events := if e !in b.events then b.events[e := []] else b.events;
    Bus(events[e := events[e] + [c]])
  }

  /** `Array.prototype.indexOf`: the first position of `c`, or -1. */
  function IndexOf(s: seq<CallbackId>, c: CallbackId): (i: int)
    ensures -1 <= i < |s|
    ensures i == -1 <==> c !in s
    ensures 0 <= i ==> s[i] == c && c !in s[..i]
  {
    if s == [] then -1
    else if s[0] == c then 0
    else
      var j := IndexOf(s[1..], c);
      if j == -1 then -1
      else
        assert s[..j + 1] == [s[0]] + s[1..][..j];
        j + 1
  }

  /** Removal of the first occurrence of `c`, defined independently of positions. */
  function RemoveFirst(s: seq<CallbackId>, c: CallbackId): seq<CallbackId> {
    if s == [] then []
    else if s[0] == c then s[1..]
    else [s[0]] + RemoveFirst(s[1..], c)
  }

  /** Splicing at the first index of `c` is removal of the first occurrence of `c`. */
  lemma {:induction false} SpliceRemovesFirst(s: seq<CallbackId>, c: CallbackId)
    requires c in s
    ensures var i := IndexOf(s, c);
            s[..i] + s[i + 1..] == RemoveFirst(s, c)
  {
    if s[0] != c {
      var tail := s[1..];
      assert c in tail;
      var j := IndexOf(tail, c);
      assert IndexOf(s, c) == j + 1;
      SpliceRemovesFirst(tail, c);
      assert s[..j + 1] == [s[0]] + tail[..j];
      assert s[j + 2..] == tail[j + 1..];
      assert RemoveFirst(s, c) == [s[0]] + RemoveFirst(tail, c);
    }
  }

  /** What `off` leaves of a list: one fewer `c` when there was one, everything else kept. */
  lemma {:induction false} RemoveFirstCounts(s: seq<CallbackId>, c: CallbackId)
    ensures c in s ==> multiset(RemoveFirst(s, c)) == multiset(s) - multiset{c}
    ensures c !in s ==> RemoveFirst(s, c) == s
  {
    if s != [] {
      RemoveFirstCounts(s[1..], c);
      assert s == [s[0]] + s[1..];
    }
  }

  /** `off`: removes only the first registration of `c` for `e`; otherwise nothing changes. */
  function Off(b: Bus, e: string, c: CallbackId): (r: Bus)
    ensures e !in b.events || c !in b.events[e] ==> r == b
    ensures r.events.Keys == b.events.Keys
    ensures forall e' :: e' != e && e' in b.events ==> r.events[e'] == b.events[e']
    ensures e in b.events ==> r.events[e] == RemoveFirst(b.events[e], c)
  {
    if e in b.events then
      var callbacks := b.events[e];
      var index := IndexOf(callbacks, c);
      if index > -1 then
        SpliceRemovesFirst(callbacks, c);
        Bus(b.events[e := callbacks[..index] + callbacks[index + 1..]])
      else
        RemoveFirstCounts(callbacks, c);
        b
    else b
  }

  /** `emit`: every callback registered for `e`, once each, in registration order, with `d`. */
  function Emit<D>(b: Bus, e: string, d: D): (r: seq<Call<D>>)
    ensures |r| == |Callbacks(b, e)|
    ensures forall i :: 0 <= i < |r| ==> r[i] == Call(Callbacks(b, e)[i], d)
  {
    CallAll(Callbacks(b, e), d)
  }

  function CallAll<D>(cs: seq<CallbackId>, d: D): (r: seq<Call<D>>)
    ensures |r| == |cs|
    ensures forall i :: 0 <= i < |r| ==> r[i] == Call(cs[i], d)
  {
    if cs == [] then [] else [Call(cs[0], d)] + CallAll(cs[1..], d)
  }

  /** `clear`: forgets every event. */
  function Clear(b: Bus): (r: Bus)
    ensures forall e :: e !in r.events
  {
    Bus(map[])
  }

  /** A registration is the last to run. */
  lemma EmitAfterOn<D>(b: Bus, e: string, c: CallbackId, d: D)
    ensures Emit(On(b, e, c), e, d) == Emit(b, e, d) + [Call(c, d)]
  {
  }

  /** `on` then `off` of a callback not yet registered restores the list; only an empty list
      may remain where the event had none. */
  lemma OnThenOffRestores(b: Bus, e: string, c: CallbackId)
    requires c !in Callbacks(b, e)
    ensures Off(On(b, e, c), e, c).events == b.events[e := Callbacks(b, e)]
    ensures Callbacks(Off(On(b, e, c), e, c), e) == Callbacks(b, e)
  {
    RemoveFirstAppended(Callbacks(b, e), c);
  }

  /** When `c` is already registered, `off` removes the earlier registration, so `on` then
      `off` moves `c` to the end rather than undoing the `on`. */
  lemma OnThenOffWhenRegistered(b: Bus, e: string, c: CallbackId)
    requires c in Callbacks(b, e)
    ensures Callbacks(Off(On(b, e, c), e, c), e) == RemoveFirst(Callbacks(b, e), c) + [c]
  {
    RemoveFirstAppended(Callbacks(b, e), c);
  }

  lemma {:induction false} RemoveFirstAppended(s: seq<CallbackId>, c: CallbackId)
    ensures c !in s ==> RemoveFirst(s + [c], c) == s
    ensures c in s ==> RemoveFirst(s + [c], c) == RemoveFirst(s, c) + [c]
  {
    if s != [] {
      assert (s + [c])[1..] == s[1..] + [c];
      RemoveFirstAppended(s[1..], c);
    }
  }

  /** After `clear`, nothing is emitted and `off` has nothing to remove until the next `on`. */
  lemma ClearSilences<D>(b: Bus, e: string, c: CallbackId, d: D)
    ensures Emit(Clear(b), e, d) == []
    ensures Off(Clear(b), e, c) == Clear(b)
  {
  }
}
