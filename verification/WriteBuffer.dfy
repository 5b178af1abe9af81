/** The write buffer: appends into a reused backing array, copy-out flushes, and a close that
    leaves nothing behind. */
module WriteBuffer {
  import opened FlushGroups

  /** `core.KVStore`, as far as the buffer uses it. */
  class Store {
    var cells: Cells

    constructor ()
      ensures cells == map[]
    {
      cells := map[];
    }

    method Set(key: string, value: string, ttl: Duration)
      modifies this
      ensures cells == old(cells)[key := Cell(value, ttl)]
    {
      cells := cells[key := Cell(value, ttl)];
    }

    /** Sets the items in any order and may fail at any point. */
    method BatchSet(items: map<string, string>, ttl: Duration) returns (ok: bool)
      modifies this
      ensures exists done ::
        done <= items.Keys && cells == Overlay(old(cells), items, ttl, done) && (ok ==> done == items.Keys)
    {
      hide Overlay;
      ghost var before := cells;
      ghost var done: set<string> := {};
      NothingDone(before, items, ttl);
      var rest := items.Keys;
      while rest != {}
        invariant rest <= items.Keys && done == items.Keys - rest
        invariant cells == Overlay(before, items, ttl, done)
        decreases |rest|
      {
        if * { return false; }
        var key :| key in rest;
        OverlayStep(before, items, ttl, done, key);
        rest, done := rest - {key}, done + {key};
        cells := cells[key := Cell(items[key], ttl)];
      }
      return true;
    }
  }

  lemma NothingDone(cells: Cells, items: map<string, string>, ttl: Duration)
    ensures Overlay(cells, items, ttl, {}) == cells
  {
  }

  /** One group per TTL, holding its writes in order. */
  ghost predicate IsGrouping(writes: seq<BufferedWrite>, groups: map<Duration, seq<BufferedWrite>>) {
    groups.Keys == Ttls(writes) && forall t :: t in groups ==> groups[t] == Group(writes, t)
  }

  lemma GroupingGrows(writes: seq<BufferedWrite>, w: BufferedWrite, groups: map<Duration, seq<BufferedWrite>>)
    requires IsGrouping(writes, groups)
    ensures IsGrouping(writes + [w], groups[w.ttl := (if w.ttl in groups then groups[w.ttl] else []) + [w]])
  {
    hide Group, Ttls;
    TtlsGrow(writes, w);
    GroupsGrow(writes, w);
    if w.ttl !in groups { NoGroup(writes, w.ttl); }
  }

  lemma TtlsGrow(writes: seq<BufferedWrite>, w: BufferedWrite)
    ensures Ttls(writes + [w]) == Ttls(writes) + {w.ttl}
  {
    var more := writes + [w];
    assert forall i :: 0 <= i < |writes| ==> more[i] == writes[i];
    assert more[|writes|] == w;
  }

  /** Grouping by TTL, as the first loop of `flushWrites` does. */
  method GroupByTtl(writes: seq<BufferedWrite>) returns (groups: map<Duration, seq<BufferedWrite>>)
    ensures groups.Keys == Ttls(writes)
    ensures forall t :: t in groups ==> groups[t] == Group(writes, t)
  {
    hide Group;
    groups := map[];
    for i := 0 to |writes|
      invariant IsGrouping(writes[..i], groups)
    {
      var write := writes[i];
      assert writes[..i+1] == writes[..i] + [write];
      GroupingGrows(writes[..i], write, groups);
      var group := if write.ttl in groups then groups[write.ttl] else [];
      groups := groups[write.ttl := group + [write]];
    }
    assert writes[..|writes|] == writes;
  }

  lemma GroupsGrow(writes: seq<BufferedWrite>, w: BufferedWrite)
    ensures Group(writes + [w], w.ttl) == Group(writes, w.ttl) + [w]
    ensures forall t :: t != w.ttl ==> Group(writes + [w], t) == Group(writes, t)
  {
    GroupAppend(writes, w, w.ttl);
    forall t | t != w.ttl ensures Group(writes + [w], t) == Group(writes, t) {
      GroupAppend(writes, w, t);
    }
  }

  lemma {:induction false} NoGroup(writes: seq<BufferedWrite>, ttl: Duration)
    requires ttl !in Ttls(writes)
    ensures Group(writes, ttl) == []
  {
    if writes != [] {
      assert writes[|writes|-1].ttl in Ttls(writes);
      NoGroup(writes[..|writes|-1], ttl);
    }
  }

  /** The items map of one group. */
  method CollectItems(group: seq<BufferedWrite>) returns (items: map<string, string>)
    ensures items == Items(group)
  {
    items := map[];
    for i := 0 to |group|
      invariant items == Items(group[..i])
    {
      assert group[..i+1][..i] == group[..i];
      items := items[group[i].key := group[i].value];
    }
    assert group[..|group|] == group;
  }

  /** One TTL group: batch set, and write by write if that fails. Either way the store ends
      up as if the group had been applied one by one. */
  method FlushGroup(store: Store, group: seq<BufferedWrite>, ttl: Duration)
    requires forall w :: w in group ==> w.ttl == ttl
    modifies store
    ensures store.cells == Sequential(old(store.cells), group)
  {
    ghost var before := store.cells;
    var items := CollectItems(group);
    var ok := store.BatchSet(items, ttl);
    ghost var done :|
      done <= items.Keys && store.cells == Overlay(before, items, ttl, done) && (ok ==> done == items.Keys);
    if ok {
      FullBatch(before, group, ttl);
    } else {
      ghost var partial := store.cells;
      for i := 0 to |group|
        invariant store.cells == Sequential(partial, group[..i])
      {
        assert group[..i+1][..i] == group[..i];
        store.Set(group[i].key, group[i].value, group[i].ttl);
      }
      assert group[..|group|] == group;
      PartialBatch(before, group, ttl, done);
    }
  }

  lemma NoGroupsYet(cells: Cells, writes: seq<BufferedWrite>)
    ensures Grouped(cells, writes, []) == cells
  {
  }

  /** `flushWrites`: some order of the TTL groups, group by group; and hence the writes one by
      one, whenever no key of the batch appears with two TTLs. */
  method FlushWrites(store: Store, writes: seq<BufferedWrite>)
    modifies store
    ensures exists order :: IsOrder(order, writes) && store.cells == Grouped(old(store.cells), writes, order)
    ensures OneTtlPerKey(writes) ==> store.cells == Sequential(old(store.cells), writes)
  {
    hide Grouped, Group, Sequential, OneTtlPerKey;
    ghost var before := store.cells;
    var groups := GroupByTtl(writes);
    NoGroupsYet(before, writes);
    ghost var order: seq<Duration> := [];
    var rest := groups.Keys;
    while rest != {}
      invariant rest <= groups.Keys
      invariant forall i, j :: 0 <= i < j < |order| ==> order[i] != order[j]
      invariant forall t :: t in order <==> t in groups.Keys - rest
      invariant store.cells == Grouped(before, writes, order)
      decreases |rest|
    {
      var ttl :| ttl in rest;
      assert ttl !in order;
      rest := rest - {ttl};
      FlushGroup(store, groups[ttl], ttl);
      GroupedAppend(before, writes, order, ttl);
      order := order + [ttl];
    }
    assert IsOrder(order, writes);
    if OneTtlPerKey(writes) {
      GroupedIsSequential(before, writes, order);
    }
  }

  /* ---------- the buffer's history ---------- */

  /** The buffer as a value: what it holds, every write it accepted and every batch it gave
      to a flush. */
  datatype History = History(
    maxSize: nat, flushSize: nat, buffer: seq<BufferedWrite>, closed: bool, signalled: bool,
    accepted: seq<BufferedWrite>, batches: seq<seq<BufferedWrite>>)

  datatype Reply = Accepted | ErrBufferFull | ErrBufferClosed

  function ReplyTo(h: History): Reply {
    if h.closed then ErrBufferClosed else if |h.buffer| >= h.maxSize then ErrBufferFull else Accepted
  }

  function AfterWrite(h: History, w: BufferedWrite): History {
    if ReplyTo(h) != Accepted then h
    else h.(buffer := h.buffer + [w], accepted := h.accepted + [w],
            signalled := h.signalled || |h.buffer| + 1 >= h.flushSize)
  }

  function AfterTake(h: History): History {
    if h.buffer == [] then h else h.(buffer := [], batches := h.batches + [h.buffer])
  }

  datatype Event = Write(w: BufferedWrite) | Take | Close | Signal

  function After(h: History, e: Event): History {
    match e
    case Write(w) => AfterWrite(h, w)
    case Take => AfterTake(h)
    case Close => h.(closed := true)
    case Signal => h.(signalled := false)
  }

  function RunOf(h: History, events: seq<Event>): History
    decreases |events|
  {
    if events == [] then h else RunOf(After(h, events[0]), events[1..])
  }

  function Flatten(batches: seq<seq<BufferedWrite>>): seq<BufferedWrite> {
    if batches == [] then [] else Flatten(batches[..|batches|-1]) + batches[|batches|-1]
  }

  lemma FlattenAppend(batches: seq<seq<BufferedWrite>>, b: seq<BufferedWrite>)
    ensures Flatten(batches + [b]) == Flatten(batches) + b
  {
    assert (batches + [b])[..|batches|] == batches;
  }

  /** Accepted writes are the flushed batches followed by the buffer, which never overflows. */
  predicate Conserved(h: History) {
    h.accepted == Flatten(h.batches) + h.buffer && |h.buffer| <= h.maxSize
  }

  lemma StepConserves(h: History, e: Event)
    requires Conserved(h)
    ensures Conserved(After(h, e))
  {
    if e.Take? && h.buffer != [] {
      FlattenAppend(h.batches, h.buffer);
    }
  }

  /** Buffer conservation over every run. */
  lemma {:induction false} BufferConserves(h: History, events: seq<Event>)
    requires Conserved(h)
    ensures Conserved(RunOf(h, events))
    decreases |events|
  {
    if events != [] {
      StepConserves(h, events[0]);
      BufferConserves(After(h, events[0]), events[1..]);
    }
  }

  lemma {:induction false} ClosedKeeps(h: History, events: seq<Event>)
    requires h.closed
    ensures RunOf(h, events).closed && RunOf(h, events).accepted == h.accepted
    ensures h.buffer == [] ==> RunOf(h, events).buffer == []
    decreases |events|
  {
    if events != [] {
      ClosedKeeps(After(h, events[0]), events[1..]);
    }
  }

  lemma {:induction false} RunConcat(h: History, a: seq<Event>, b: seq<Event>)
    ensures RunOf(h, a + b) == RunOf(RunOf(h, a), b)
    decreases |a|
  {
    if a == [] {
      assert a + b == b;
    } else {
      assert (a + b)[1..] == a[1..] + b;
      RunConcat(After(h, a[0]), a[1..], b);
    }
  }

  /** Once the closing call has taken its final batch, whatever else happened in between and
      whatever is called later, the buffer is empty, stays empty and nothing more is accepted:
      every write ever accepted is in a flushed batch. */
  lemma CloseLeavesNothing(h: History, before: seq<Event>, between: seq<Event>, later: seq<Event>)
    requires Conserved(h)
    ensures var end := RunOf(h, before + [Close] + between + [Take] + later);
            end.buffer == [] && end.accepted == Flatten(end.batches) && end.accepted == RunOf(h, before).accepted
  {
    var h0 := RunOf(h, before);
    var h1 := After(h0, Close);
    var h2 := RunOf(h1, between);
    var h3 := After(h2, Take);
    RunConcat(h, before, [Close]);
    RunConcat(h, before + [Close], between);
    RunConcat(h, before + [Close] + between, [Take]);
    RunConcat(h, before + [Close] + between + [Take], later);
    assert RunOf(h0, [Close]) == h1 && RunOf(h2, [Take]) == h3;
    ClosedKeeps(h1, between);
    ClosedKeeps(h3, later);
    BufferConserves(h, before + [Close] + between + [Take] + later);
  }

  /** A store that has received the batches, each of which uses one TTL per key, holds what
      their writes one by one would have left. */
  ghost predicate Faithful(start: Cells, batches: seq<seq<BufferedWrite>>, cells: Cells) {
    (forall b :: b in batches ==> OneTtlPerKey(b)) ==> cells == Sequential(start, Flatten(batches))
  }

  lemma FlushStaysFaithful(start: Cells, batches: seq<seq<BufferedWrite>>, batch: seq<BufferedWrite>,
                           before: Cells, after: Cells)
    requires Faithful(start, batches, before)
    requires OneTtlPerKey(batch) ==> after == Sequential(before, batch)
    ensures Faithful(start, batches + [batch], after)
  {
    FlattenAppend(batches, batch);
    SequentialConcat(start, Flatten(batches), batch);
    assert forall b :: b in batches ==> b in batches + [batch];
    assert batch in batches + [batch];
  }

  /* ---------- the buffer itself ---------- */

  /** A fresh array of the given capacity starting with a copy of `data[..len]`. */
  method CopyInto(data: array<BufferedWrite>, len: nat, capacity: nat) returns (copy: array<BufferedWrite>)
    requires len <= data.Length && len <= capacity
    ensures fresh(copy) && copy.Length == capacity && copy[..len] == data[..len]
  {
    copy := new BufferedWrite[capacity];
    for i := 0 to len
      invariant copy[..i] == data[..i]
    {
      copy[i] := data[i];
    }
  }

  /** `WriteBuffer`. The slice is a prefix of a backing array that later appends reuse; the
      ghost fields record its history and the copies handed to flushes. */
  class Buffer {
    const store: Store
    const maxSize: nat
    const flushSize: nat
    var data: array<BufferedWrite>
    var len: nat
    var closed: bool
    var flushCh: bool
    var totalWrites: nat
    var totalFlushes: nat
    ghost var accepted: seq<BufferedWrite>
    ghost var batches: seq<seq<BufferedWrite>>
    ghost var copies: seq<array<BufferedWrite>>
    ghost var start: Cells

    ghost function Abs(): History
      reads this, data
      requires len <= data.Length
    {
      History(maxSize, flushSize, data[..len], closed, flushCh, accepted, batches)
    }

    /** Nothing lost, counted right, and every copy handed out still holds its batch. */
    ghost predicate Valid()
      reads this, data, set c | c in copies
    {
      && len <= data.Length && Conserved(Abs()) && totalWrites == |accepted|
      && |copies| == |batches|
      && (forall i :: 0 <= i < |copies| ==> copies[i] != data && copies[i][..] == batches[i])
    }

    /** Flushes so far have been no different from applying their writes one by one. */
    ghost predicate InStep()
      reads this, store
    {
      Faithful(start, batches, store.cells)
    }

    constructor (store: Store, maxSize: nat, flushSize: nat)
      ensures Valid() && InStep() && fresh(data)
      ensures this.store == store && start == store.cells
      ensures maxSize == 0 ==> this.maxSize == 1000 && this.flushSize == 100
      ensures maxSize != 0 ==> this.maxSize == maxSize && this.flushSize == flushSize
      ensures Abs() == History(this.maxSize, this.flushSize, [], false, false, [], [])
    {
      this.store := store;
      this.maxSize := if maxSize == 0 then 1000 else maxSize;
      this.flushSize := if maxSize == 0 then 100 else flushSize;
      data := new BufferedWrite[if maxSize == 0 then 100 else flushSize];
      len, closed, flushCh, totalWrites, totalFlushes := 0, false, false, 0, 0;
      accepted, batches, copies, start := [], [], [], store.cells;
    }

    /** `append`: in place while the backing array has room, into a larger array otherwise. */
    method Append(w: BufferedWrite)
      requires Valid()
      modifies this`data, this`len, data
      ensures len == old(len) + 1 <= data.Length && data[..len] == old(data[..len]) + [w]
      ensures data == old(data) || fresh(data)
      ensures forall i :: 0 <= i < |copies| ==> copies[i] != data && copies[i][..] == batches[i]
    {
      if len == data.Length {
        data := CopyInto(data, len, 2 * len + 1);
      }
      data[len] := w;
      len := len + 1;
    }

    /** `Write`. */
    method Write(w: BufferedWrite) returns (r: Reply)
      requires Valid()
      modifies this`data, this`len, this`totalWrites, this`flushCh, this`accepted, data
      ensures Valid() && (data == old(data) || fresh(data))
      ensures r == old(ReplyTo(Abs())) && Abs() == old(AfterWrite(Abs(), w))
      ensures r == if closed then ErrBufferClosed else if old(len) < maxSize then Accepted else ErrBufferFull
      ensures r == Accepted ==> data[..len] == old(data[..len]) + [w] && accepted == old(accepted) + [w]
      ensures r != Accepted ==> data[..len] == old(data[..len]) && accepted == old(accepted)
      ensures flushCh <==> old(flushCh) || (r == Accepted && len >= flushSize)
    {
      if closed { return ErrBufferClosed; }
      if len >= maxSize { return ErrBufferFull; }
      Append(w);
      accepted := accepted + [w];
      totalWrites := totalWrites + 1;
      if len >= flushSize { flushCh := true; }
      return Accepted;
    }

    /** The locked region of `Flush`: copy the buffer out and empty it. */
    method TakeBatch() returns (writes: array<BufferedWrite>)
      requires Valid()
      modifies this`len, this`batches, this`copies
      ensures Valid() && fresh(writes) && writes[..] == old(data[..len])
      ensures Abs() == old(AfterTake(Abs()))
    {
      writes := CopyInto(data, len, len);
      assert writes[..] == writes[..len];
      if len == 0 { return; }
      FlattenAppend(batches, data[..len]);
      batches, copies := batches + [data[..len]], copies + [writes];
      len := 0;
    }

    /** `Flush`, not overlapping another flush. */
    method Flush()
      requires Valid() && InStep()
      modifies this`len, this`batches, this`copies, this`totalFlushes, store
      ensures Valid() && InStep() && Abs() == old(AfterTake(Abs()))
    {
      hide Sequential, OneTtlPerKey, Grouped, Conserved, Faithful;
      if len == 0 { return; }
      ghost var cells, taken := store.cells, batches;
      var writes := TakeBatch();
      FlushWrites(store, writes[..]);
      FlushStaysFaithful(start, taken, writes[..], cells, store.cells);
      totalFlushes := totalFlushes + 1;
    }

    /** Other callers and the flusher flush any number of times. */
    method OthersFlush()
      requires Valid() && InStep()
      modifies this`len, this`batches, this`copies, this`totalFlushes, store
      ensures Valid() && InStep()
    {
      hide Conserved, Faithful;
      var flushes: nat :| flushes >= 0;
      for i := 0 to flushes
        invariant Valid() && InStep()
      {
        Flush();
      }
    }

    /** `Close`: from here on writes are refused, while others still flush; then comes the
        flusher's final flush, and one more. */
    method Close()
      requires Valid() && InStep()
      modifies this`len, this`batches, this`copies, this`totalFlushes, this`closed, store
      ensures Valid() && InStep() && closed
      ensures !old(closed) ==> len == 0 && accepted == Flatten(batches)
      ensures !old(closed) && (forall b :: b in batches ==> OneTtlPerKey(b)) ==>
        store.cells == Sequential(start, accepted)
    {
      if closed { return; }
      closed := true;
      OthersFlush();
      Flush();
      OthersFlush();
      Flush();
    }
  }
}
