/** Flushing a batch: writes are grouped by TTL, the groups go out in map order, each as one
    batch that may fail part-way and is then repeated write by write. When that is the same
    as applying the writes one by one. */
module FlushGroups {
  import opened GoText

  datatype Duration = Nanos(n: int)

  datatype BufferedWrite = BufferedWrite(key: string, value: string, ttl: Duration)

  datatype Cell = Cell(value: string, ttl: Duration)

  type Cells = map<string, Cell>

  function CellOf(w: BufferedWrite): Cell { Cell(w.value, w.ttl) }

  /** The reference: applying the writes one by one, in order. */
  function Sequential(cells: Cells, writes: seq<BufferedWrite>): Cells {
    if writes == [] then cells
    else Sequential(cells, writes[..|writes|-1])[writes[|writes|-1].key := CellOf(writes[|writes|-1])]
  }

  lemma {:induction false} SequentialConcat(cells: Cells, a: seq<BufferedWrite>, b: seq<BufferedWrite>)
    ensures Sequential(cells, a + b) == Sequential(Sequential(cells, a), b)
    decreases |b|
  {
    if b == [] {
      assert a + b == a;
    } else {
      assert (a + b)[..|a + b|-1] == a + b[..|b|-1];
      SequentialConcat(cells, a, b[..|b|-1]);
    }
  }

  /** The last write to a key, if any. */
  function Last(writes: seq<BufferedWrite>, key: string): (r: Option<BufferedWrite>)
    ensures r.Some? ==> r.value in writes && r.value.key == key
    ensures r.None? <==> forall i :: 0 <= i < |writes| ==> writes[i].key != key
  {
    if writes == [] then None
    else if writes[|writes|-1].key == key then Some(writes[|writes|-1])
    else Last(writes[..|writes|-1], key)
  }

  /** One key of a store after a sequence of writes. */
  ghost predicate Overwritten(before: Cells, after: Cells, key: string, w: Option<BufferedWrite>) {
    if w.Some? then key in after && after[key] == CellOf(w.value)
    else (key in after <==> key in before) && (key in before ==> after[key] == before[key])
  }

  lemma {:induction false} SequentialLookup(cells: Cells, writes: seq<BufferedWrite>, key: string)
    ensures Overwritten(cells, Sequential(cells, writes), key, Last(writes, key))
  {
    if writes != [] {
      SequentialLookup(cells, writes[..|writes|-1], key);
    }
  }

  /** The writes of one TTL, in order. */
  function Group(writes: seq<BufferedWrite>, ttl: Duration): (r: seq<BufferedWrite>)
    ensures forall w :: w in r <==> w in writes && w.ttl == ttl
  {
    if writes == [] then []
    else Group(writes[..|writes|-1], ttl) + if writes[|writes|-1].ttl == ttl then [writes[|writes|-1]] else []
  }

  /** Flushing group after group, in the given order of TTLs. */
  function Grouped(cells: Cells, writes: seq<BufferedWrite>, order: seq<Duration>): Cells {
    if order == [] then cells
    else Sequential(Grouped(cells, writes, order[..|order|-1]), Group(writes, order[|order|-1]))
  }

  lemma GroupedAppend(cells: Cells, writes: seq<BufferedWrite>, order: seq<Duration>, ttl: Duration)
    ensures Grouped(cells, writes, order + [ttl]) == Sequential(Grouped(cells, writes, order), Group(writes, ttl))
  {
    assert (order + [ttl])[..|order|] == order;
  }

  /** An iteration order of the TTL groups: every TTL of the batch, once. */
  ghost predicate IsOrder(order: seq<Duration>, writes: seq<BufferedWrite>) {
    && (forall i, j :: 0 <= i < j < |order| ==> order[i] != order[j])
    && (forall t :: t in order <==> t in Ttls(writes))
  }

  /** The TTLs of a batch. */
  function Ttls(writes: seq<BufferedWrite>): set<Duration> {
    set i | 0 <= i < |writes| :: writes[i].ttl
  }

  /** Every write to a key uses one TTL. */
  ghost predicate OneTtlPerKey(writes: seq<BufferedWrite>) {
    forall v, w :: v in writes && w in writes && v.key == w.key ==> v.ttl == w.ttl
  }

  lemma LastAppend(writes: seq<BufferedWrite>, w: BufferedWrite, key: string)
    ensures Last(writes + [w], key) == if w.key == key then Some(w) else Last(writes, key)
  {
    assert (writes + [w])[..|writes|] == writes;
  }

  lemma GroupAppend(writes: seq<BufferedWrite>, w: BufferedWrite, ttl: Duration)
    ensures Group(writes + [w], ttl) == Group(writes, ttl) + if w.ttl == ttl then [w] else []
  {
    assert (writes + [w])[..|writes|] == writes;
  }

  /** The last write to a key is also the last one to it in its own TTL group. */
  lemma {:induction false} LastOfGroup(writes: seq<BufferedWrite>, key: string)
    requires Last(writes, key).Some?
    ensures Last(Group(writes, Last(writes, key).value.ttl), key) == Last(writes, key)
  {
    hide Last, Group;
    var init, w := writes[..|writes|-1], writes[|writes|-1];
    assert writes == init + [w];
    LastAppend(init, w, key);
    var ttl := Last(writes, key).value.ttl;
    GroupAppend(init, w, ttl);
    LastAppend(Group(init, ttl), w, key);
    assert Group(init, ttl) + [] == Group(init, ttl);
    if w.key != key {
      LastOfGroup(init, key);
    }
  }

  /** A key is not in the groups of TTLs it was never written with. */
  lemma NotInGroup(writes: seq<BufferedWrite>, key: string, ttl: Duration)
    requires forall w :: w in writes && w.key == key ==> w.ttl != ttl
    ensures Last(Group(writes, ttl), key) == None
  {
    var g := Group(writes, ttl);
    forall i | 0 <= i < |g| ensures g[i].key != key {
      assert g[i] in g;
    }
  }

  /** The last group in the order that holds a write to the key decides its cell. */
  lemma {:induction false} GroupedLookup(cells: Cells, writes: seq<BufferedWrite>, order: seq<Duration>,
                                         key: string, ttl: Duration)
    requires forall i, j :: 0 <= i < j < |order| ==> order[i] != order[j]
    requires forall t :: t in order && t != ttl ==> Last(Group(writes, t), key) == None
    ensures var last := if ttl in order then Last(Group(writes, ttl), key) else None;
      Overwritten(cells, Grouped(cells, writes, order), key, last)
  {
    if order != [] {
      var init, t := order[..|order|-1], order[|order|-1];
      assert forall x :: x in order <==> x in init || x == t;
      GroupedLookup(cells, writes, init, key, ttl);
      SequentialLookup(Grouped(cells, writes, init), Group(writes, t), key);
    }
  }

  lemma OneTtlLookup(cells: Cells, writes: seq<BufferedWrite>, order: seq<Duration>, key: string)
    requires OneTtlPerKey(writes) && IsOrder(order, writes)
    ensures Overwritten(cells, Grouped(cells, writes, order), key, Last(writes, key))
  {
    var last := Last(writes, key);
    var ttl := if last.Some? then last.value.ttl else Nanos(0);
    forall t | t in order && (t != ttl || last.None?)
      ensures Last(Group(writes, t), key) == None
    {
      NotInGroup(writes, key, t);
    }
    if last.Some? {
      LastOfGroup(writes, key);
    }
    GroupedLookup(cells, writes, order, key, ttl);
  }

  /** Flush refinement, for every order of the groups. */
  lemma GroupedIsSequential(cells: Cells, writes: seq<BufferedWrite>, order: seq<Duration>)
    requires OneTtlPerKey(writes) && IsOrder(order, writes)
    ensures Grouped(cells, writes, order) == Sequential(cells, writes)
  {
    var a, b := Grouped(cells, writes, order), Sequential(cells, writes);
    forall key
      ensures key in a <==> key in b
      ensures key in a && key in b ==> a[key] == b[key]
    {
      OneTtlLookup(cells, writes, order, key);
      SequentialLookup(cells, writes, key);
    }
  }

  /** An order of a finite set that ends with a chosen element. */
  ghost function Listing(ttls: set<Duration>, end: Duration): (r: seq<Duration>)
    requires end in ttls
    ensures |r| > 0 && r[|r|-1] == end
    ensures forall i, j :: 0 <= i < j < |r| ==> r[i] != r[j]
    ensures forall t :: t in r <==> t in ttls
    decreases |ttls|
  {
    if x :| x in ttls && x != end then [x] + Listing(ttls - {x}, end) else [end]
  }

  /** Exactly when grouping is safe: every order of the groups leaves the store as the writes
      one by one would if and only if no key of the batch appears with two TTLs. */
  lemma FlushRefinementExact(cells: Cells, writes: seq<BufferedWrite>)
    ensures (forall order :: IsOrder(order, writes) ==> Grouped(cells, writes, order) == Sequential(cells, writes))
            <==> OneTtlPerKey(writes)
  {
    if OneTtlPerKey(writes) {
      forall order | IsOrder(order, writes)
        ensures Grouped(cells, writes, order) == Sequential(cells, writes)
      {
        GroupedIsSequential(cells, writes, order);
      }
    } else {
      var v, w :| v in writes && w in writes && v.key == w.key && v.ttl != w.ttl;
      var last := Last(writes, v.key).value;
      var other := if last.ttl == v.ttl then w else v;
      var order := BadOrder(writes, other);
      WrongLast(cells, writes, order, other);
      SequentialLookup(cells, writes, v.key);
    }
  }

  ghost function BadOrder(writes: seq<BufferedWrite>, w: BufferedWrite): (order: seq<Duration>)
    requires w in writes
    ensures IsOrder(order, writes) && |order| > 0 && order[|order|-1] == w.ttl
  {
    Listing(Ttls(writes), w.ttl)
  }

  /** If the group of `w` goes out last, the key of `w` ends up with the TTL of `w`. */
  lemma WrongLast(cells: Cells, writes: seq<BufferedWrite>, order: seq<Duration>, w: BufferedWrite)
    requires w in writes && |order| > 0 && order[|order|-1] == w.ttl
    ensures w.key in Grouped(cells, writes, order) && Grouped(cells, writes, order)[w.key].ttl == w.ttl
  {
    var g := Group(writes, w.ttl);
    assert w in g;
    SequentialLookup(Grouped(cells, writes, order[..|order|-1]), g, w.key);
    assert Last(g, w.key).Some? by {
      var i :| 0 <= i < |g| && g[i] == w;
    }
  }

  /* ---------- a batch that fails part-way ---------- */

  /** The items map of a group: the last value of each key. */
  function Items(group: seq<BufferedWrite>): (r: map<string, string>)
    ensures forall k :: k in r <==> Last(group, k).Some?
    ensures forall k :: k in r ==> r[k] == Last(group, k).value.value
  {
    if group == [] then map[]
    else Items(group[..|group|-1])[group[|group|-1].key := group[|group|-1].value]
  }

  /** The store after `BatchSet` has set only the keys in `done`. */
  function Overlay(cells: Cells, items: map<string, string>, ttl: Duration, done: set<string>): Cells
    requires done <= items.Keys
  {
    cells + map k | k in done :: Cell(items[k], ttl)
  }

  lemma OverlayStep(cells: Cells, items: map<string, string>, ttl: Duration, done: set<string>, key: string)
    requires done <= items.Keys && key in items
    ensures Overlay(cells, items, ttl, done + {key}) == Overlay(cells, items, ttl, done)[key := Cell(items[key], ttl)]
  {
  }

  /** A complete batch is the group one by one. */
  lemma FullBatch(cells: Cells, group: seq<BufferedWrite>, ttl: Duration)
    requires forall w :: w in group ==> w.ttl == ttl
    ensures Overlay(cells, Items(group), ttl, Items(group).Keys) == Sequential(cells, group)
  {
    var a, b := Overlay(cells, Items(group), ttl, Items(group).Keys), Sequential(cells, group);
    forall k
      ensures k in a <==> k in b
      ensures k in a && k in b ==> a[k] == b[k]
    {
      SequentialLookup(cells, group, k);
    }
  }

  /** A partial batch is undone by repeating the group one by one. */
  lemma PartialBatch(cells: Cells, group: seq<BufferedWrite>, ttl: Duration, done: set<string>)
    requires done <= Items(group).Keys
    ensures Sequential(Overlay(cells, Items(group), ttl, done), group) == Sequential(cells, group)
  {
    var a, b := Sequential(Overlay(cells, Items(group), ttl, done), group), Sequential(cells, group);
    forall k
      ensures k in a <==> k in b
      ensures k in a && k in b ==> a[k] == b[k]
    {
      SequentialLookup(Overlay(cells, Items(group), ttl, done), group, k);
      SequentialLookup(cells, group, k);
    }
  }
}
