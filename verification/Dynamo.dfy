/** Expiry in the DynamoDB store. `Set` stores the second in which an item expires and `Get`
    compares it with the present second, both rounded down, while DynamoDB's own sweeper
    removes expired items whenever it likes. Times are nanoseconds since the epoch. */
module Dynamo {
  import opened GoText

  const SECOND := 1_000_000_000

  /** `Time.Unix`, which rounds down. */
  function Unix(at: int): int { at / SECOND }

  datatype Item = Item(value: string, ttl: Option<int>)

  type Items = map<string, Item>

  predicate Expired(item: Item, now: int) { item.ttl.Some? && Unix(now) > item.ttl.value }

  datatype Event =
    | Set(key: string, value: string, ttl: int, at: int)
    | Delete(key: string, at: int)
    | Sweep(key: string, at: int)

  function After(items: Items, e: Event): Items {
    match e
    case Set(key, value, ttl, at) => items[key := Item(value, if ttl > 0 then Some(Unix(at + ttl)) else None)]
    case Delete(key, _) => items - {key}
    case Sweep(key, at) => if key in items && Expired(items[key], at) then items - {key} else items
  }

  function Replay(events: seq<Event>): Items {
    if events == [] then map[] else After(Replay(events[..|events|-1]), events[|events|-1])
  }

  function Fetch(items: Items, key: string, now: int): Option<string> {
    if key in items && !Expired(items[key], now) then Some(items[key].value) else None
  }

  /** The clock never goes back, and has not passed `now`. */
  predicate Monotone(events: seq<Event>, now: int) {
    && (forall i :: 0 < i < |events| ==> events[i - 1].at <= events[i].at)
    && (events != [] ==> events[|events|-1].at <= now)
  }

  /** The latest `Set` of a key that no `Delete` followed. */
  function Latest(events: seq<Event>, key: string): (r: Option<Event>)
    ensures r.Some? ==> r.value.Set? && r.value in events && r.value.key == key
  {
    if events == [] then None else
    var e := events[|events|-1];
    if e.key != key || e.Sweep? then Latest(events[..|events|-1], key)
    else if e.Set? then Some(e)
    else None
  }

  /** The last whole second an item lives in. */
  predicate Alive(set_: Event, now: int)
    requires set_.Set?
  {
    set_.ttl <= 0 || now < (Unix(set_.at + set_.ttl) + 1) * SECOND
  }

  /** What a `Get` should return after a history. */
  function Expected(events: seq<Event>, key: string, now: int): Option<string> {
    var l := Latest(events, key);
    if l.Some? && Alive(l.value, now) then Some(l.value.value) else None
  }

  /** Comparing seconds is comparing with the end of a second. */
  lemma SecondsCompare(a: int, now: int)
    ensures Unix(now) > Unix(a) <==> now >= (Unix(a) + 1) * SECOND
  {
  }

  /** What one event, seen later, does to a `Get`. An item swept in time has expired since. */
  lemma FetchAfter(items: Items, e: Event, key: string, now: int)
    requires e.at <= now
    ensures Fetch(After(items, e), key, now) ==
      if e.key != key || e.Sweep? then Fetch(items, key, now)
      else if e.Set? && Alive(e, now) then Some(e.value)
      else None
  {
    if e.Set? { SecondsCompare(e.at + e.ttl, now); }
  }

  /** In every run under a monotone clock, `Get` returns the latest value exactly while it is
      alive, whenever the sweeper ran. */
  lemma {:induction false} GetReturnsLatest(events: seq<Event>, key: string, now: int)
    requires Monotone(events, now)
    ensures Fetch(Replay(events), key, now) == Expected(events, key, now)
  {
    hide Alive, After, Fetch;
    if events == [] {
      EmptyFetch(key, now);
    } else {
      var rest, e := events[..|events|-1], events[|events|-1];
      GetReturnsLatest(rest, key, now);
      FetchAfter(Replay(rest), e, key, now);
    }
  }

  lemma EmptyFetch(key: string, now: int)
    ensures Fetch(map[], key, now) == None
  {
  }

  /** Expiry bound: the latest value is returned throughout [t, t + ttl] and never from one
      second later; with a ttl that is not positive it never expires. */
  lemma ExpiryBound(events: seq<Event>, key: string, now: int)
    requires Monotone(events, now)
    ensures Latest(events, key).None? ==> Fetch(Replay(events), key, now) == None
    ensures Latest(events, key).Some? ==>
      var l := Latest(events, key).value;
      && (l.ttl <= 0 || now <= l.at + l.ttl ==> Fetch(Replay(events), key, now) == Some(l.value))
      && (l.ttl > 0 && now >= l.at + l.ttl + SECOND ==> Fetch(Replay(events), key, now) == None)
  {
    GetReturnsLatest(events, key, now);
  }

  /** Both ends are tight: an item may live the whole extra second, or none of it. */
  lemma ExtraSecond(key: string, value: string, ttl: int, at: int)
    requires ttl > 0
    ensures var e := Set(key, value, ttl, at);
      && ((at + ttl) % SECOND == 0 ==> Fetch(Replay([e]), key, at + ttl + SECOND - 1) == Some(value))
      && ((at + ttl) % SECOND == SECOND - 1 ==> Fetch(Replay([e]), key, at + ttl + 1) == None)
  {
    var e := Set(key, value, ttl, at);
    GetReturnsLatest([e], key, at + ttl + SECOND - 1);
    GetReturnsLatest([e], key, at + ttl + 1);
    assert Latest([e], key) == Some(e);
  }

  datatype Reply = Value(value: string) | Stored | NotFound | ErrClosed

  /** `DynamoDBKVStore`, with the clock passed in and the history recorded. */
  class Store {
    var items: Items
    var closed: bool
    ghost var events: seq<Event>

    ghost predicate Valid(now: int)
      reads this
    {
      items == Replay(events) && Monotone(events, now)
    }

    constructor ()
      ensures events == [] && !closed && forall now :: Valid(now)
    {
      items, closed, events := map[], false, [];
    }

    /** Record an event the items have just taken. */
    ghost method Note(e: Event)
      requires items == After(Replay(events), e) && Monotone(events, e.at)
      modifies this`events
      ensures Valid(e.at) && events == old(events) + [e]
    {
      events := events + [e];
      assert events[..|events|-1] == old(events);
    }

    method Set(key: string, value: string, ttl: int, now: int) returns (r: Reply)
      requires Valid(now)
      modifies this`items, this`events
      ensures Valid(now) && (r == if closed then ErrClosed else Stored)
      ensures events == old(events) + if closed then [] else [Event.Set(key, value, ttl, now)]
    {
      if closed { return ErrClosed; }
      var item := Item(value, None);
      if ttl > 0 {
        var ttlTimestamp := Unix(now + ttl);
        item := item.(ttl := Some(ttlTimestamp));
      }
      items := items[key := item];
      Note(Event.Set(key, value, ttl, now));
      return Stored;
    }

    method Get(key: string, now: int) returns (r: Reply)
      requires Valid(now)
      ensures closed ==> r == ErrClosed
      ensures !closed ==> match Expected(events, key, now) case Some(v) => r == Value(v) case None => r == NotFound
    {
      if closed { return ErrClosed; }
      GetReturnsLatest(events, key, now);
      if key !in items { return NotFound; }
      if items[key].ttl.Some? {
        if Unix(now) > items[key].ttl.value { return NotFound; }
      }
      return Value(items[key].value);
    }

    method Delete(key: string, now: int) returns (r: Reply)
      requires Valid(now)
      modifies this`items, this`events
      ensures Valid(now) && (r == if closed then ErrClosed else Stored)
      ensures events == old(events) + if closed then [] else [Event.Delete(key, now)]
    {
      if closed { return ErrClosed; }
      items := items - {key};
      Note(Event.Delete(key, now));
      return Stored;
    }

    /** DynamoDB removes an expired item. */
    method Sweep(key: string, now: int)
      requires Valid(now)
      modifies this`items, this`events
      ensures Valid(now) && events == old(events) + [Event.Sweep(key, now)]
    {
      if key in items && Expired(items[key], now) { items := items - {key}; }
      Note(Event.Sweep(key, now));
    }
  }
}
