/** The write-back queues: the bounded in-memory FIFO and the Redis queue that keeps one
    global and one per-table list. */
module Queues {
  import opened GoText
  import StoreKeys

  /** A batch size as both `Dequeue` methods read it. */
  function Batch(batchSize: int): (n: nat)
    ensures n > 0
  {
    if batchSize <= 0 then 100 else batchSize
  }

  function Min(a: nat, b: nat): nat { if a < b then a else b }

  /* ---------- the in-memory queue ---------- */

  datatype EnqueueReply = Enqueued | ErrQueueClosed | ErrQueueFull | ErrCancelled

  /** `MemoryQueue`: a buffered channel. The ghost fields record everything that went in and
      came out. */
  class MemoryQueue<T> {
    const capacity: nat
    var queue: seq<T>
    var closed: bool
    ghost var enqueued: seq<T>
    ghost var dequeued: seq<T>

    /** Bounded, conserving and first-in first-out. */
    ghost predicate Valid()
      reads this
    {
      |queue| <= capacity && capacity > 0 && enqueued == dequeued + queue
    }

    constructor (bufferSize: int)
      ensures Valid() && queue == [] && enqueued == [] && !closed
      ensures capacity == if bufferSize <= 0 then 10000 else bufferSize
    {
      capacity := if bufferSize <= 0 then 10000 else bufferSize;
      queue, closed, enqueued, dequeued := [], false, [], [];
    }

    /** A cancelled context and a free slot race. */
    method Enqueue(op: T, cancelled: bool) returns (r: EnqueueReply)
      requires Valid()
      modifies this`queue, this`enqueued
      ensures Valid()
      ensures r.Enqueued? ==> !closed && queue == old(queue) + [op] && enqueued == old(enqueued) + [op]
      ensures !r.Enqueued? ==> queue == old(queue) && enqueued == old(enqueued)
      ensures r.ErrQueueClosed? <==> closed
      ensures r.ErrQueueFull? <==> !closed && !cancelled && |old(queue)| == capacity
      ensures !closed && !cancelled && |old(queue)| < capacity ==> r.Enqueued?
    {
      if closed { return ErrQueueClosed; }
      if |queue| < capacity {
        if cancelled {
          if * { return ErrCancelled; }
        }
        queue, enqueued := queue + [op], enqueued + [op];
        return Enqueued;
      }
      if cancelled { return ErrCancelled; }
      return ErrQueueFull;
    }

    /** Takes a prefix; all of it, up to the batch size, unless the context is cancelled. */
    method Dequeue(batchSize: int, cancelled: bool) returns (operations: seq<T>, err: bool)
      requires Valid()
      modifies this`queue, this`dequeued
      ensures Valid()
      ensures old(queue) == operations + queue && dequeued == old(dequeued) + operations
      ensures |operations| <= Batch(batchSize)
      ensures !err ==> |operations| == Min(Batch(batchSize), |old(queue)|)
      ensures err ==> cancelled && |operations| < Batch(batchSize)
    {
      operations := [];
      for i := 0 to Batch(batchSize)
        invariant Valid() && |operations| == i
        invariant old(queue) == operations + queue && dequeued == old(dequeued) + operations
      {
        if cancelled {
          if * { return operations, true; }
        }
        if queue == [] { return operations, cancelled && !closed; }
        operations, queue, dequeued := operations + [queue[0]], queue[1..], dequeued + [queue[0]];
      }
      return operations, false;
    }

    method Size() returns (n: nat)
      ensures n == |queue|
    {
      return |queue|;
    }
  }

  /* ---------- the Redis queue ---------- */

  datatype Operation = Operation(table: string, payload: string)

  function TableKey(table: string): string { StoreKeys.Text(StoreKeys.QueueList(table)) }

  function GlobalKey(): string { StoreKeys.Text(StoreKeys.QueueGlobal) }

  lemma QueueKeysApart(a: string, b: string)
    ensures TableKey(a) == TableKey(b) <==> a == b
    ensures TableKey(a) == GlobalKey() <==> a == "global"
  {
    if TableKey(a) == TableKey(b) {
      CancelPrefix("wbq:", a, b);
    }
    StoreKeys.GlobalTableCollides();
    if TableKey(a) == GlobalKey() {
      CancelPrefix("wbq:", a, "global");
    }
  }

  type Lists = map<string, seq<Operation>>

  function ListAt(lists: Lists, key: string): seq<Operation> { if key in lists then lists[key] else [] }

  function Push(lists: Lists, key: string, op: Operation): Lists { lists[key := ListAt(lists, key) + [op]] }

  /** Popping an empty list does nothing. */
  function Pop(lists: Lists, key: string): Lists {
    if ListAt(lists, key) == [] then lists else lists[key := ListAt(lists, key)[1..]]
  }

  function Popped(lists: Lists, key: string): seq<Operation> {
    if ListAt(lists, key) == [] then [] else [ListAt(lists, key)[0]]
  }

  /** The lists, in which order operations were pushed to table lists and to the global list,
      which enqueues are between their two pushes, and what was popped. */
  datatype Views = Views(
    lists: Lists, tableOrder: seq<Operation>, globalOrder: seq<Operation>, half: seq<Operation>,
    fromGlobal: seq<Operation>, fromTable: Lists)

  /** Nothing enqueued yet. */
  function Empty(): Views { Views(map[], [], [], [], [], map[]) }

  /** The accesses to the shared lists: an enqueue is a push to its table's list and, some
      time later, its push to the global list. */
  datatype Event = PushTable(op: Operation) | PushGlobal(i: nat) | PopGlobal | PopTable(table: string)

  function Without(ops: seq<Operation>, i: nat): seq<Operation>
    requires i < |ops|
  {
    ops[..i] + ops[i+1..]
  }

  function After(v: Views, e: Event): Views {
    match e
    case PushTable(op) =>
      v.(lists := Push(v.lists, TableKey(op.table), op), tableOrder := v.tableOrder + [op], half := v.half + [op])
    case PushGlobal(i) =>
      if i >= |v.half| then v else
      v.(lists := Push(v.lists, GlobalKey(), v.half[i]), globalOrder := v.globalOrder + [v.half[i]],
         half := Without(v.half, i))
    case PopGlobal =>
      v.(lists := Pop(v.lists, GlobalKey()), fromGlobal := v.fromGlobal + Popped(v.lists, GlobalKey()))
    case PopTable(t) =>
      v.(lists := Pop(v.lists, TableKey(t)),
         fromTable := v.fromTable[t := ListAt(v.fromTable, t) + Popped(v.lists, TableKey(t))])
  }

  /** No table is called `global`. */
  predicate Named(e: Event) {
    match e
    case PushTable(op) => op.table != "global"
    case PopTable(t) => t != "global"
    case _ => true
  }

  function Project(ops: seq<Operation>, table: string): seq<Operation> {
    if ops == [] then []
    else Project(ops[..|ops|-1], table) + if ops[|ops|-1].table == table then [ops[|ops|-1]] else []
  }

  lemma ProjectAppend(ops: seq<Operation>, op: Operation, table: string)
    ensures Project(ops + [op], table) == Project(ops, table) + if op.table == table then [op] else []
  {
    assert (ops + [op])[..|ops|] == ops;
  }

  /** The global list is its own push order minus what was popped from it. */
  ghost predicate GlobalInView(v: Views) {
    v.globalOrder == v.fromGlobal + ListAt(v.lists, GlobalKey())
  }

  /** A table's list is the table's share of the push order minus what was popped from it. */
  ghost predicate TableInView(v: Views, t: string) {
    Project(v.tableOrder, t) == ListAt(v.fromTable, t) + ListAt(v.lists, TableKey(t))
  }

  ghost predicate InView(v: Views) {
    GlobalInView(v) && forall t :: t != "global" ==> TableInView(v, t)
  }

  /** Each operation pushed to a table list is in the global order or still on its way. */
  ghost predicate Balanced(v: Views) {
    multiset(v.tableOrder) == multiset(v.globalOrder) + multiset(v.half)
  }

  lemma GlobalStep(v: Views, e: Event)
    requires GlobalInView(v) && Named(e)
    ensures GlobalInView(After(v, e))
  {
    hide TableKey, GlobalKey;
    match e
    case PushTable(op) => QueueKeysApart(op.table, op.table);
    case PushGlobal(i) =>
    case PopGlobal =>
    case PopTable(table) => QueueKeysApart(table, table);
  }

  lemma TableStep(v: Views, e: Event, t: string)
    requires TableInView(v, t) && t != "global" && Named(e)
    ensures TableInView(After(v, e), t)
  {
    hide TableKey, GlobalKey, Project;
    QueueKeysApart(t, t);
    match e
    case PushTable(op) =>
      QueueKeysApart(t, op.table);
      ProjectAppend(v.tableOrder, op, t);
    case PushGlobal(i) =>
    case PopGlobal =>
    case PopTable(table) => QueueKeysApart(t, table);
  }

  lemma StepInView(v: Views, e: Event)
    requires InView(v) && Named(e)
    ensures InView(After(v, e))
  {
    hide GlobalInView, TableInView, After;
    GlobalStep(v, e);
    forall t | t != "global" ensures TableInView(After(v, e), t) { TableStep(v, e, t); }
  }

  lemma StepBalanced(v: Views, e: Event)
    requires Balanced(v)
    ensures Balanced(After(v, e))
  {
    if e.PushGlobal? && e.i < |v.half| {
      assert v.half == v.half[..e.i] + [v.half[e.i]] + v.half[e.i+1..];
    }
  }

  function RunOf(v: Views, events: seq<Event>): Views {
    if events == [] then v else After(RunOf(v, events[..|events|-1]), events[|events|-1])
  }

  /** Two-list views: in every interleaving of pushes and pops, each list is its own push order
      minus what was popped from it, and both orders hold the same operations up to the
      enqueues on their way. */
  lemma {:induction false} TwoListViews(v: Views, events: seq<Event>)
    requires InView(v) && Balanced(v) && forall i :: 0 <= i < |events| ==> Named(events[i])
    ensures InView(RunOf(v, events)) && Balanced(RunOf(v, events))
  {
    hide InView, Balanced, After, Named;
    if events != [] {
      var rest, e := events[..|events|-1], events[|events|-1];
      TwoListViews(v, rest);
      StepInView(RunOf(v, rest), e);
      StepBalanced(RunOf(v, rest), e);
    }
  }

  lemma EmptyInView()
    ensures InView(Empty()) && Balanced(Empty()) && InOrder(Empty())
  {
  }

  lemma IdleGlobalPop(v: Views, t: string)
    requires TableInView(v, t) && t != "global" && ListAt(v.lists, GlobalKey()) == []
    ensures TableInView(After(v, PopTable("global")), t)
  {
    hide TableKey, GlobalKey, Project;
    QueueKeysApart("global", t);
  }

  /** Exactly when a step keeps the views: a push for a table called `global` lands in the
      global list, and a pop for it steals from `Dequeue`. */
  lemma StepInViewExact(v: Views, e: Event)
    requires InView(v)
    ensures InView(After(v, e)) <==> Named(e) || (e.PopTable? && ListAt(v.lists, GlobalKey()) == [])
  {
    hide TableKey, GlobalKey, Project;
    if Named(e) {
      StepInView(v, e);
    } else {
      QueueKeysApart("global", "global");
      if e.PushTable? {
        assert |ListAt(After(v, e).lists, GlobalKey())| == |ListAt(v.lists, GlobalKey())| + 1;
      } else if ListAt(v.lists, GlobalKey()) == [] {
        forall t | t != "global" ensures TableInView(After(v, e), t) { IdleGlobalPop(v, t); }
      } else {
        assert |ListAt(After(v, e).lists, GlobalKey())| < |ListAt(v.lists, GlobalKey())|;
      }
    }
  }

  /* ---------- do the two orders agree? ---------- */

  /** The global order follows the table order, except for the enqueues on their way. */
  ghost predicate InOrder(v: Views) { v.tableOrder == v.globalOrder + v.half }

  /** A step keeps the orders in agreement exactly when no push to the global list overtakes a
      different operation that reached its table's list earlier. */
  lemma StepInOrderExact(v: Views, e: Event)
    requires InOrder(v)
    ensures InOrder(After(v, e)) <==>
      (e.PushGlobal? && e.i < |v.half| ==> forall j :: 0 <= j < e.i ==> v.half[j] == v.half[e.i])
  {
    if e.PushGlobal? && e.i < |v.half| {
      OvertakeExact(v.half, e.i);
      var moved := [v.half[e.i]] + Without(v.half, e.i);
      assert v.globalOrder + [v.half[e.i]] + Without(v.half, e.i) == v.globalOrder + moved;
      assert (v.globalOrder + v.half)[|v.globalOrder|..] == v.half;
      assert (v.globalOrder + moved)[|v.globalOrder|..] == moved;
    }
  }

  lemma {:induction false} OvertakeExact(half: seq<Operation>, i: nat)
    requires i < |half|
    ensures [half[i]] + Without(half, i) == half <==> forall j :: 0 <= j < i ==> half[j] == half[i]
    decreases i
  {
    var moved := [half[i]] + Without(half, i);
    if forall j :: 0 <= j < i ==> half[j] == half[i] {
      forall k | 0 <= k < |half| ensures moved[k] == half[k] {
      }
    } else if moved == half {
      forall j | 0 <= j < i ensures half[j] == half[i] { Shifted(half, i, j); }
    }
  }

  lemma {:induction false} Shifted(half: seq<Operation>, i: nat, j: nat)
    requires j < i < |half| && [half[i]] + Without(half, i) == half
    ensures half[j] == half[i]
  {
    assert half[j] == ([half[i]] + Without(half, i))[j];
    if j > 0 { Shifted(half, i, j - 1); }
  }

  /** Enqueues that do not overlap: each starts when no other is on its way. */
  ghost predicate Serial(v: Views, events: seq<Event>) {
    events != [] ==>
      var rest, e := events[..|events|-1], events[|events|-1];
      Serial(v, rest) && (e.PushTable? ==> RunOf(v, rest).half == [])
  }

  /** Then both orders are one enqueue sequence, and at rest both lists are views of it. */
  lemma {:induction false} SerialEnqueuesAgree(events: seq<Event>)
    requires Serial(Empty(), events)
    ensures var v := RunOf(Empty(), events);
      InOrder(v) && |v.half| <= 1 && (v.half == [] ==> v.tableOrder == v.globalOrder)
  {
    if events != [] {
      var rest, e := events[..|events|-1], events[|events|-1];
      SerialEnqueuesAgree(rest);
      StepInOrderExact(RunOf(Empty(), rest), e);
    }
  }

  /** Overlapping enqueues need not agree: the run that reverses any two operations. */
  lemma OverlappingEnqueuesReverse(a: Operation, b: Operation)
    ensures var v := RunOf(Empty(), [PushTable(a), PushTable(b), PushGlobal(1), PushGlobal(0)]);
      v.half == [] && v.tableOrder == [a, b] && v.globalOrder == [b, a]
  {
    hide TableKey, GlobalKey, RunOf;
    StartOf(Empty());
    var v1 := After(Empty(), PushTable(a));
    var v2 := After(v1, PushTable(b));
    var v3 := After(v2, PushGlobal(1));
    RunAppend(Empty(), [], PushTable(a));
    assert [] + [PushTable(a)] == [PushTable(a)];
    RunAppend(Empty(), [PushTable(a)], PushTable(b));
    assert [PushTable(a)] + [PushTable(b)] == [PushTable(a), PushTable(b)];
    RunAppend(Empty(), [PushTable(a), PushTable(b)], PushGlobal(1));
    assert [PushTable(a), PushTable(b)] + [PushGlobal(1)] == [PushTable(a), PushTable(b), PushGlobal(1)];
    RunAppend(Empty(), [PushTable(a), PushTable(b), PushGlobal(1)], PushGlobal(0));
    assert [PushTable(a), PushTable(b), PushGlobal(1)] + [PushGlobal(0)]
        == [PushTable(a), PushTable(b), PushGlobal(1), PushGlobal(0)];
    assert v2.half == [a, b] && v3.half == [a];
  }

  lemma StartOf(v: Views)
    ensures RunOf(v, []) == v
  {
  }

  lemma RunAppend(v: Views, events: seq<Event>, e: Event)
    ensures RunOf(v, events + [e]) == After(RunOf(v, events), e)
  {
    assert (events + [e])[..|events|] == events;
  }

  /* ---------- the queue's methods ---------- */

  datatype RedisReply = Done | ErrClosed | ErrInvalidOperation

  /** `RedisQueue` over a store with list operations, all payloads decodable. It takes no lock:
      between any two accesses, other callers push and pop. */
  class RedisQueue {
    var lists: Lists
    var half: seq<Operation>
    var closed: bool
    ghost var tableOrder: seq<Operation>
    ghost var globalOrder: seq<Operation>
    ghost var fromGlobal: seq<Operation>
    ghost var fromTable: Lists
    ghost var events: seq<Event>

    ghost function Abs(): Views
      reads this
    {
      Views(lists, tableOrder, globalOrder, half, fromGlobal, fromTable)
    }

    /** The state is what some run of accesses leads to. */
    ghost predicate Traced()
      reads this
    {
      Abs() == RunOf(Empty(), events)
    }

    constructor ()
      ensures Traced() && Abs() == Empty() && InView(Abs()) && Balanced(Abs()) && !closed
    {
      lists, half, closed := map[], [], false;
      tableOrder, globalOrder, fromGlobal, fromTable, events := [], [], [], map[], [];
      new;
      EmptyInView();
    }

    /** Record an access the fields have just made. */
    ghost method Note(e: Event)
      requires Abs() == After(RunOf(Empty(), events), e)
      modifies this`events
      ensures Traced() && events == old(events) + [e]
    {
      hide After;
      events := events + [e];
      assert events[..|events|-1] == old(events);
    }

    method ListPushTable(op: Operation)
      requires Traced()
      modifies this`lists, this`half, this`tableOrder, this`events
      ensures Traced() && events == old(events) + [PushTable(op)]
      ensures half == old(half) + [op] && tableOrder == old(tableOrder) + [op]
    {
      hide RunOf;
      lists := Push(lists, TableKey(op.table), op);
      half, tableOrder := half + [op], tableOrder + [op];
      Note(PushTable(op));
    }

    method ListPushGlobal(i: nat)
      requires Traced() && i < |half|
      modifies this`lists, this`half, this`globalOrder, this`events
      ensures Traced() && events == old(events) + [PushGlobal(i)]
      ensures half == Without(old(half), i) && globalOrder == old(globalOrder) + [old(half)[i]]
    {
      hide RunOf;
      lists := Push(lists, GlobalKey(), half[i]);
      globalOrder := globalOrder + [half[i]];
      half := Without(half, i);
      Note(PushGlobal(i));
    }

    method ListPopGlobal() returns (op: Option<Operation>)
      requires Traced()
      modifies this`lists, this`fromGlobal, this`events
      ensures Traced() && events == old(events) + [PopGlobal]
      ensures fromGlobal == if op.Some? then old(fromGlobal) + [op.value] else old(fromGlobal)
      ensures op.None? ==> ListAt(lists, GlobalKey()) == []
    {
      hide RunOf;
      var list := ListAt(lists, GlobalKey());
      fromGlobal := fromGlobal + Popped(lists, GlobalKey());
      lists := Pop(lists, GlobalKey());
      op := if list == [] then None else Some(list[0]);
      Note(PopGlobal);
    }

    method ListPopTable(table: string) returns (op: Option<Operation>)
      requires Traced()
      modifies this`lists, this`fromTable, this`events
      ensures Traced() && events == old(events) + [PopTable(table)]
      ensures op.Some? ==> fromTable == old(fromTable)[table := ListAt(old(fromTable), table) + [op.value]]
      ensures op.None? ==> forall t :: ListAt(fromTable, t) == ListAt(old(fromTable), t)
      ensures op.None? ==> ListAt(lists, TableKey(table)) == []
    {
      hide RunOf;
      var list := ListAt(lists, TableKey(table));
      fromTable := fromTable[table := ListAt(fromTable, table) + Popped(lists, TableKey(table))];
      lists := Pop(lists, TableKey(table));
      op := if list == [] then None else Some(list[0]);
      Note(PopTable(table));
    }

    /** One access of another caller; `mine` is where this caller's own enqueue waits. */
    method OtherMoves(mine: Option<nat>) returns (mine': Option<nat>)
      requires Traced() && (mine.Some? ==> mine.value < |half|)
      modifies this`lists, this`half, this`tableOrder, this`globalOrder, this`fromGlobal, this`fromTable, this`events
      ensures Traced() && old(events) <= events && old(tableOrder) <= tableOrder && old(fromGlobal) <= fromGlobal
      ensures forall t :: ListAt(old(fromTable), t) <= ListAt(fromTable, t)
      ensures mine'.Some? <==> mine.Some?
      ensures mine'.Some? ==> mine'.value < |half| && half[mine'.value] == old(half)[mine.value]
    {
      hide RunOf, After;
      mine' := mine;
      var op: Operation := *;
      var j: nat :| j >= 0;
      if * {
        ListPushTable(op);
      } else if * {
        if j < |half| && mine != Some(j) {
          ListPushGlobal(j);
          if mine.Some? && j < mine.value { mine' := Some(mine.value - 1); }
        }
      } else if * {
        var _ := ListPopGlobal();
      } else {
        var _ := ListPopTable(op.table);
      }
    }

    method OthersMove(mine: Option<nat>) returns (mine': Option<nat>)
      requires Traced() && (mine.Some? ==> mine.value < |half|)
      modifies this`lists, this`half, this`tableOrder, this`globalOrder, this`fromGlobal, this`fromTable, this`events
      ensures Traced() && old(events) <= events && old(tableOrder) <= tableOrder && old(fromGlobal) <= fromGlobal
      ensures forall t :: ListAt(old(fromTable), t) <= ListAt(fromTable, t)
      ensures mine'.Some? <==> mine.Some?
      ensures mine'.Some? ==> mine'.value < |half| && half[mine'.value] == old(half)[mine.value]
    {
      mine' := mine;
      var moves: nat :| moves >= 0;
      for k := 0 to moves
        invariant Traced() && old(events) <= events && old(tableOrder) <= tableOrder && old(fromGlobal) <= fromGlobal
        invariant forall t :: ListAt(old(fromTable), t) <= ListAt(fromTable, t)
        invariant mine'.Some? <==> mine.Some?
        invariant mine'.Some? ==> mine'.value < |half| && half[mine'.value] == old(half)[mine.value]
      {
        mine' := OtherMoves(mine');
      }
    }

    /** Pushes to the table's list, and later to the global list. */
    method Enqueue(operation: Option<Operation>) returns (r: RedisReply)
      requires Traced()
      modifies this`lists, this`half, this`tableOrder, this`globalOrder, this`fromGlobal, this`fromTable, this`events
      ensures Traced() && old(events) <= events
      ensures r.ErrClosed? <==> closed
      ensures r.ErrInvalidOperation? <==> !closed && (operation.None? || operation.value.table == "")
      ensures r.Done? ==> old(tableOrder) + [operation.value] <= tableOrder
      ensures r.Done? ==> globalOrder != [] && globalOrder[|globalOrder|-1] == operation.value
      ensures !r.Done? ==> Abs() == old(Abs())
    {
      hide RunOf, After;
      if closed { return ErrClosed; }
      if operation.None? || operation.value.table == "" { return ErrInvalidOperation; }
      ListPushTable(operation.value);
      var mine := OthersMove(Some(|half| - 1));
      ListPushGlobal(mine.value);
      return Done;
    }

    /** Pops one by one up to the batch size or an empty list. What it returns it popped itself,
        in order: `at` says where each sits in the sequence of all pops. */
    method Dequeue(batchSize: int) returns (ok: bool, operations: seq<Operation>, ghost at: seq<nat>)
      requires Traced()
      modifies this`lists, this`half, this`tableOrder, this`globalOrder, this`fromGlobal, this`fromTable, this`events
      ensures Traced() && old(events) <= events
      ensures ok <==> !closed
      ensures !ok ==> operations == [] && Abs() == old(Abs())
      ensures |operations| <= Batch(batchSize) && Picked(operations, fromGlobal, at, |old(fromGlobal)|)
      ensures ok && |operations| < Batch(batchSize) ==> ListAt(lists, GlobalKey()) == []
    {
      hide RunOf, After, Picked;
      operations, at := [], [];
      PickedNone(fromGlobal, |fromGlobal|);
      if closed { return false, operations, at; }
      for i := 0 to Batch(batchSize)
        invariant Traced() && old(events) <= events && old(fromGlobal) <= fromGlobal
        invariant |operations| == i && Picked(operations, fromGlobal, at, |old(fromGlobal)|)
      {
        ghost var was := fromGlobal;
        var _ := OthersMove(None);
        PickedLater(operations, was, fromGlobal, at, |old(fromGlobal)|);
        ghost var n := |fromGlobal|;
        var op := ListPopGlobal();
        if op.None? { return true, operations, at; }
        PickedNext(operations, fromGlobal[..n], at, |old(fromGlobal)|, op.value);
        operations, at := operations + [op.value], at + [n];
      }
      ok := true;
    }

    /** The same from one table's list. */
    method DequeueFromTable(table: string, batchSize: int)
      returns (ok: bool, operations: seq<Operation>, ghost at: seq<nat>)
      requires Traced()
      modifies this`lists, this`half, this`tableOrder, this`globalOrder, this`fromGlobal, this`fromTable, this`events
      ensures Traced() && old(events) <= events
      ensures ok <==> !closed
      ensures !ok ==> operations == [] && Abs() == old(Abs())
      ensures |operations| <= Batch(batchSize)
      ensures Picked(operations, ListAt(fromTable, table), at, |ListAt(old(fromTable), table)|)
      ensures ok && |operations| < Batch(batchSize) ==> ListAt(lists, TableKey(table)) == []
    {
      hide RunOf, After, Picked;
      operations, at := [], [];
      PickedNone(ListAt(fromTable, table), |ListAt(fromTable, table)|);
      if closed { return false, operations, at; }
      for i := 0 to Batch(batchSize)
        invariant Traced() && old(events) <= events
        invariant ListAt(old(fromTable), table) <= ListAt(fromTable, table)
        invariant |operations| == i
        invariant Picked(operations, ListAt(fromTable, table), at, |ListAt(old(fromTable), table)|)
      {
        ghost var was := ListAt(fromTable, table);
        var _ := OthersMove(None);
        PickedLater(operations, was, ListAt(fromTable, table), at, |ListAt(old(fromTable), table)|);
        ghost var n := |ListAt(fromTable, table)|;
        var op := ListPopTable(table);
        if op.None? { return true, operations, at; }
        PickedNext(operations, ListAt(fromTable, table)[..n], at, |ListAt(old(fromTable), table)|, op.value);
        operations, at := operations + [op.value], at + [n];
      }
      ok := true;
    }

    method Size() returns (n: nat)
      ensures n == if closed then 0 else |ListAt(lists, GlobalKey())|
    {
      return if closed then 0 else |ListAt(lists, GlobalKey())|;
    }
  }

  /** `ops` are the elements of `all` at the ascending positions `at`, none before `from`. */
  ghost predicate Picked(ops: seq<Operation>, all: seq<Operation>, at: seq<nat>, from: nat) {
    && |at| == |ops| && (forall k :: 0 < k < |at| ==> at[k-1] < at[k])
    && forall k :: 0 <= k < |at| ==> from <= at[k] < |all| && all[at[k]] == ops[k]
  }

  lemma PickedNone(all: seq<Operation>, from: nat)
    ensures Picked([], all, [], from)
  {
  }

  lemma PickedNext(ops: seq<Operation>, all: seq<Operation>, at: seq<nat>, from: nat, op: Operation)
    requires Picked(ops, all, at, from) && from <= |all|
    ensures Picked(ops + [op], all + [op], at + [|all|], from)
  {
  }

  lemma PickedLater(ops: seq<Operation>, all: seq<Operation>, more: seq<Operation>, at: seq<nat>, from: nat)
    requires Picked(ops, all, at, from) && all <= more
    ensures Picked(ops, more, at, from)
  {
  }
}
