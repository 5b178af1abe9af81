/** What a cache hit holds: every column its writers supplied, leaving out only columns that
    are at their default. And that a write can be read back: until its TTL is over, the
    look-up hits. */
module WriteBackReads {
  import opened GoText
  import opened Mapper
  import opened Validator
  import opened Sql
  import opened Translator
  import opened WriteOps
  import opened WriteBack
  import opened WriteBackLimits

  /* ---------- the columns writers supplied ---------- */

  function OpKeys(op: WriteOp): set<string> { if op.data.Some? then op.data.value.Keys else {} }

  function At(must: map<int, set<string>>, n: int): set<string> { if n in must then must[n] else {} }

  /** The fields supplied for each key, after one more write has reached the cache. */
  function Supply(must: map<int, set<string>>, n: int, op: WriteOp): map<int, set<string>> {
    match op.kind
    case OperationCreate => must[n := OpKeys(op)]
    case OperationUpdate => must[n := At(must, n) + OpKeys(op)]
    case OperationDelete => must - {n}
  }

  /** The fields supplied since each key was created, over the first `i` steps of a run. */
  function Supplied(states: seq<State>, steps: seq<Step>, i: nat): map<int, set<string>>
    requires i <= |steps| && i <= |states|
  {
    if i == 0 then map[]
    else
      var must, s, step := Supplied(states, steps, i - 1), states[i-1], steps[i-1];
      if step.Store? && step.n in s.flights then Supply(must, step.n, s.flights[step.n].op) else must
  }

  /* ---------- the invariant ---------- */

  /** A document leaves out only columns that are at their default. */
  ghost predicate Omits(c: Config, doc: Doc, row: Option<Row>) {
    forall f :: f in ColumnSet(c.s.columns) && f !in doc ==>
      row.Some? && f in row.value && row.value[f] == Fallback(c.s.columns, f)
  }

  ghost predicate DocKeeps(c: Config, doc: Doc, row: Option<Row>, must: set<string>) {
    must * ColumnSet(c.s.columns) <= doc.Keys && Omits(c, doc, row)
  }

  ghost predicate FlightKeeps(c: Config, f: Flight, row: Option<Row>, must: set<string>) {
    match f.op.kind
    case OperationCreate => row.None? && f.op.data.Some? && f.doc.Keys == f.op.data.value.Keys
    case OperationUpdate =>
      row.Some? && f.op.data.Some? && f.op.data.value.Keys <= f.doc.Keys && DocKeeps(c, f.doc, row, must)
    case OperationDelete => true
  }

  ghost predicate CellsKeep(c: Config, s: State, must: map<int, set<string>>) {
    forall n :: DataKey(c, n) in s.kv && s.kv[DataKey(c, n)].content.Cached? ==>
      DocKeeps(c, s.kv[DataKey(c, n)].content.doc, TableRow(s.table, n), At(must, n))
  }

  ghost predicate FlightsKeep(c: Config, s: State, must: map<int, set<string>>) {
    forall n :: n in s.flights && s.flights[n].stage.Prepared? ==>
      FlightKeeps(c, s.flights[n], TableRow(s.table, n), At(must, n))
  }

  ghost predicate Keeps(c: Config, s: State, must: map<int, set<string>>) {
    CellsKeep(c, s, must) && FlightsKeep(c, s, must)
  }

  /** A write is prepared. */
  lemma PreparedKeeps(c: Config, s: State, s': State, must: map<int, set<string>>, n: int)
    requires Keeps(c, s, must) && s'.kv == s.kv && s'.table == s.table && n in s'.flights
    requires s'.flights == s.flights[n := s'.flights[n]]
    requires FlightKeeps(c, s'.flights[n], TableRow(s.table, n), At(must, n))
    ensures Keeps(c, s', must)
  {
    hide DocKeeps, FlightKeeps, DataKey;
  }

  lemma CreateKeeps(c: Config, s: State, s': State, must: map<int, set<string>>, n: int, rec: Record)
    requires Inv(c, s) && Keeps(c, s, must) && Begins(c, s, s', BeginCreate(n, rec))
    ensures Keeps(c, s', must)
  {
    hide Inv, View, KvAccepts, AllFaithful, KeyOk, CacheKey, DocKeeps, DataKey;
    RowAt(c, s, n);
    AcceptedConverts(c, rec);
    PreparedKeeps(c, s, s', must, n);
  }

  lemma AcceptedConverts(c: Config, rec: Record)
    requires KvAccepts(c.lib, c.s, rec)
    ensures AllConvert(c.lib, c.s, rec) && KvDoc(c.lib, c.s, rec).Keys == rec.Keys
  {
    hide ConvertToDB;
  }

  /** Merging into a record that keeps the row gives a document that does. */
  lemma MergedKeeps(c: Config, doc: Doc, doc': Doc, row: Option<Row>, must: set<string>, updates: Record)
    requires DocKeeps(c, doc, row, must) && doc'.Keys == doc.Keys + updates.Keys
    ensures DocKeeps(c, doc', row, must) && updates.Keys <= doc'.Keys
  {
  }

  lemma UpdateHitKeeps(c: Config, s: State, s': State, must: map<int, set<string>>, n: int, key: Value, updates: Record)
    requires GoodConfig(c) && Inv(c, s) && Keeps(c, s, must) && Begins(c, s, s', BeginUpdateHit(n, key, updates))
    ensures Keeps(c, s', must)
  {
    hide GoodConfig, Inv, View, ValidRecord, AllConvert, AllFaithful, KeyOk, GoodUpdates, CacheKey, DocKeeps, DataKey,
      KvReadable, Mirrors, Live;
    HitReadable(c, s, n);
    var doc := s.kv[DataKey(c, n)].content.doc;
    AcceptedConverts(c, KvRecord(c.lib, c.s, doc) + updates);
    MergedKeeps(c, doc, s'.flights[n].doc, TableRow(s.table, n), At(must, n), updates);
    PreparedKeeps(c, s, s', must, n);
  }

  /** A document with every column keeps any row. */
  lemma AllColumnsKeep(c: Config, doc: Doc, row: Option<Row>, must: set<string>)
    requires ColumnSet(c.s.columns) <= doc.Keys
    ensures DocKeeps(c, doc, row, must)
  {
  }

  lemma UpdateMissKeeps(c: Config, s: State, s': State, must: map<int, set<string>>,
                        n: int, key: Value, updates: Record, fill: nat)
    requires Inv(c, s) && Tidy(c, s) && Keeps(c, s, must) && Begins(c, s, s', BeginUpdateMiss(n, key, updates, fill))
    ensures Keeps(c, s', must)
  {
    hide Inv, View, ValidRecord, AllConvert, AllFaithful, KeyOk, GoodUpdates, CacheKey, DocKeeps, DataKey, Settled,
      RowGood, NotNull, DocsTidy, ScanRow;
    var row := Lookup(s.db, n).value;
    SettledView(c, s, n);
    RowAt(c, s, n);
    ScanHolds(c, n, row);
    AcceptedConverts(c, ScanRow(row) + updates);
    AllColumnsKeep(c, s'.flights[n].doc, TableRow(s.table, n), At(must, n));
    PreparedKeeps(c, s, s', must, n);
  }

  lemma BeginsKeep(c: Config, s: State, s': State, must: map<int, set<string>>, step: Step)
    requires GoodConfig(c) && Inv(c, s) && Tidy(c, s) && Keeps(c, s, must) && Begins(c, s, s', step)
    ensures Keeps(c, s', must)
  {
    hide GoodConfig, Inv, Tidy, Keeps, View, KvAccepts, AllFaithful, KeyOk, GoodUpdates, Settled, DataKey, Hit;
    match step
    case BeginCreate(n, rec) => CreateKeeps(c, s, s', must, n, rec);
    case BeginUpdateHit(n, key, updates) => UpdateHitKeeps(c, s, s', must, n, key, updates);
    case BeginUpdateMiss(n, key, updates, fill) => UpdateMissKeeps(c, s, s', must, n, key, updates, fill);
    case BeginDelete(n, key) => DeleteKeeps(c, s, s', must, n, key);
  }

  lemma DeleteKeeps(c: Config, s: State, s': State, must: map<int, set<string>>, n: int, key: Value)
    requires Keeps(c, s, must) && Begins(c, s, s', BeginDelete(n, key))
    ensures Keeps(c, s', must)
  {
    hide DocKeeps, KeyOk, DataKey;
    PreparedKeeps(c, s, s', must, n);
  }

  /* ---------- a write reaches the cache ---------- */

  /** The document it stores keeps the row it leaves. */
  lemma StoredKeeps(c: Config, s: State, n: int, must: map<int, set<string>>)
    requires GoodConfig(c) && Inv(c, s) && n in s.flights && s.flights[n].stage.Prepared?
    requires FlightKeeps(c, s.flights[n], TableRow(s.table, n), At(must, n))
    requires s.flights[n].op.kind != OperationDelete
    ensures var f := s.flights[n];
      DocKeeps(c, f.doc, Apply(c, f.op, TableRow(s.table, n)), At(Supply(must, n, f.op), n))
  {
    hide GoodConfig, Inv, View, OpOk, Stands;
    var f := s.flights[n];
    FlightAt(c, s, n);
    OpOkApplicable(c, n, f.op);
  }

  lemma StoreKeeps(c: Config, s: State, s': State, must: map<int, set<string>>, n: int)
    requires GoodConfig(c) && Inv(c, s) && Keeps(c, s, must) && Proceeds(c, s, s', Store(n))
    ensures Keeps(c, s', Supply(must, n, s.flights[n].op))
  {
    hide GoodConfig, Inv, DocKeeps, FlightKeeps, DataKey, Apply, View, OpOk, Stands, Expiry;
    KeysApart(c);
    FlightAt(c, s, n);
    var f := s.flights[n];
    var must' := Supply(must, n, f.op);
    if f.op.kind != OperationDelete { StoredKeeps(c, s, n, must); }
    forall m | DataKey(c, m) in s'.kv && s'.kv[DataKey(c, m)].content.Cached?
      ensures DocKeeps(c, s'.kv[DataKey(c, m)].content.doc, TableRow(s'.table, m), At(must', m))
    {
      if m != n { assert DataKey(c, m) != DataKey(c, n); }
    }
  }

  lemma ProceedsKeep(c: Config, s: State, s': State, must: map<int, set<string>>, step: Step)
    requires GoodConfig(c) && Inv(c, s) && Keeps(c, s, must) && Proceeds(c, s, s', step) && !step.Store?
    ensures Keeps(c, s', must)
  {
    hide GoodConfig, Inv, DocKeeps, FlightKeeps, DataKey, EntryKey, StampKey, WalOf, Render;
    KeysApart(c);
  }

  /* ---------- fills ---------- */

  lemma FillKey(c: Config, n: int, row: Row)
    requires GoodConfig(c) && Whole(c, n, row) && KvAccepts(c.lib, c.s, ScanRow(row))
    ensures CacheKey(c.lib, c.s, ScanRow(row)[c.s.primaryKey]) == DataKey(c, n)
    ensures KvDoc(c.lib, c.s, ScanRow(row)).Keys == ColumnSet(c.s.columns)
  {
    hide GoodConfig, DataKey, CacheKey, ValidRecord, AllConvert, RowGood, NotNull, Mirrors, ScanRow;
    ScannedAccepted(c, n, row);
    MirrorAgrees(c, n, ScanRow(row), row);
    ScanHolds(c, n, row);
    AcceptedConverts(c, ScanRow(row));
  }

  lemma LandsKeep(c: Config, s: State, s': State, must: map<int, set<string>>, fill: nat)
    requires GoodConfig(c) && Tidy(c, s) && Keeps(c, s, must) && Lands(c, s, s', fill)
    ensures Keeps(c, s', must)
  {
    hide GoodConfig, DocKeeps, FlightKeeps, DataKey, CacheKey, ValidRecord, AllConvert, KvDoc, Whole, DocsTidy, Expiry,
      ScanRow;
    KeysApart(c);
    var f := s.fills[fill];
    FillKey(c, f.n, f.row);
    AllColumnsKeep(c, KvDoc(c.lib, c.s, ScanRow(f.row)), TableRow(s.table, f.n), At(must, f.n));
  }

  lemma ServesKeep(c: Config, s: State, s': State, must: map<int, set<string>>, step: Step)
    requires GoodConfig(c) && Tidy(c, s) && Keeps(c, s, must) && Serves(c, s, s', step)
    ensures Keeps(c, s', must)
  {
    hide GoodConfig, Tidy, DocKeeps, FlightKeeps, DataKey, Lands, Settled, Translates, After, Applicable;
    if step.LandFill? { LandsKeep(c, s, s', must, step.fill); }
  }

  /** In every run, cached documents and prepared writes keep what was supplied. */
  lemma {:induction false} KeepsHolds(c: Config, states: seq<State>, steps: seq<Step>, i: nat)
    requires GoodConfig(c) && Run(c, states, steps) && i < |states|
    ensures Keeps(c, states[i], Supplied(states, steps, i))
  {
    hide GoodConfig, Inv, Tidy, Keeps, Begins, Proceeds, Serves, Init, Supply;
    if i == 0 {
      InitKeeps(c, states[0]);
    } else {
      KeepsHolds(c, states, steps, i - 1);
      InvariantHolds(c, states, steps, i - 1);
      TidyHolds(c, states, steps, i - 1);
      var s, s', step, must := states[i-1], states[i], steps[i-1], Supplied(states, steps, i - 1);
      assert Next(c, s, s', step);
      if Begins(c, s, s', step) {
        BeginsAre(c, s, s', step);
        BeginsKeep(c, s, s', must, step);
      } else if Proceeds(c, s, s', step) {
        if step.Store? {
          StoreIs(c, s, s', step.n);
          StoreKeeps(c, s, s', must, step.n);
        } else {
          ProceedsKeep(c, s, s', must, step);
        }
      } else {
        ServesAre(c, s, s', step);
        ServesKeep(c, s, s', must, step);
      }
    }
  }

  lemma InitKeeps(c: Config, s: State)
    requires Init(c, s)
    ensures Keeps(c, s, map[])
  {
  }

  lemma BeginsAre(c: Config, s: State, s': State, step: Step)
    requires Begins(c, s, s', step)
    ensures !step.Store?
  {
  }

  lemma StoreIs(c: Config, s: State, s': State, n: int)
    requires Proceeds(c, s, s', Store(n))
    ensures n in s.flights
  {
  }

  lemma ServesAre(c: Config, s: State, s': State, step: Step)
    requires Serves(c, s, s', step)
    ensures !step.Store?
  {
  }

  /* ---------- what a hit reads ---------- */

  /** The value a cached document gives for a column: what it holds, or the column's default. */
  function ColumnRead(c: Config, doc: Doc, f: string): Option<Value>
    requires f in ColumnSet(c.s.columns)
  {
    if f in doc then ReadField(c.lib, c.s, f, doc[f]) else Some(Fallback(c.s.columns, f))
  }

  /** A cache hit, at any point of any run, holds every schema column that was supplied since
      the key was created, and with defaults for the others it is the plain table's row. */
  lemma HitIsTheRow(c: Config, states: seq<State>, steps: seq<Step>, i: nat, n: int)
    requires GoodConfig(c) && Run(c, states, steps) && i < |states| && Hit(c, states[i], n)
    ensures var s := states[i];
      && s.kv[DataKey(c, n)].content.Cached? && n in s.table
      && var doc := s.kv[DataKey(c, n)].content.doc;
      && At(Supplied(states, steps, i), n) * ColumnSet(c.s.columns) <= doc.Keys
      && forall f :: f in ColumnSet(c.s.columns) ==> f in s.table[n] && ColumnRead(c, doc, f) == Some(s.table[n][f])
  {
    hide GoodConfig, Next, Init, Inv, ReadField, DataKey, RowGood, View, FlightsKeep, Live;
    HitReadsTable(c, states, steps, i, n);
    KeepsHolds(c, states, steps, i);
    InvariantHolds(c, states, steps, i);
    var s := states[i];
    RowAt(c, s, n);
    RowColumns(c, n, s.table[n]);
    assert DocKeeps(c, s.kv[DataKey(c, n)].content.doc, TableRow(s.table, n), At(Supplied(states, steps, i), n));
  }

  lemma RowColumns(c: Config, n: int, row: Row)
    requires RowGood(c, n, row)
    ensures row.Keys == ColumnSet(c.s.columns)
  {
  }

  /* ---------- reading your writes ---------- */

  /** The key is cached, and will be for a TTL from `at` on. */
  ghost predicate Lasting(c: Config, s: State, n: int, at: int) {
    && DataKey(c, n) in s.kv
    && var e := s.kv[DataKey(c, n)].expiry; e.Some? ==> c.ttl > 0 && e.value >= at + c.ttl
  }

  /** Until then the look-up hits. */
  lemma LastingHits(c: Config, s: State, n: int, at: int)
    requires Lasting(c, s, n, at) && (c.ttl > 0 ==> s.now < at + c.ttl)
    ensures Hit(c, s, n)
  {
    hide DataKey;
  }

  /** Step `k` deletes key `n` from the cache. */
  ghost predicate Removes(states: seq<State>, steps: seq<Step>, k: nat, n: int) {
    && k < |steps| && k < |states| && steps[k] == Store(n)
    && n in states[k].flights && states[k].flights[n].op.kind == OperationDelete
  }

  lemma StoreLasts(c: Config, s: State, s': State, m: int, n: int, at: int)
    requires GoodConfig(c) && Inv(c, s) && Proceeds(c, s, s', Store(m)) && at <= s.now
    requires m == n ==> s.flights[n].op.kind != OperationDelete
    requires m == n || Lasting(c, s, n, at)
    ensures Lasting(c, s', n, at)
  {
    hide GoodConfig, Inv, DataKey, View, OpOk, Stands, Apply;
    KeysApart(c);
    FlightAt(c, s, m);
  }

  lemma StepLasts(c: Config, s: State, s': State, step: Step, n: int, at: int)
    requires GoodConfig(c) && Inv(c, s) && Tidy(c, s) && Next(c, s, s', step) && at <= s.now && Lasting(c, s, n, at)
    requires step == Store(n) && n in s.flights ==> s.flights[n].op.kind != OperationDelete
    ensures Lasting(c, s', n, at)
  {
    hide GoodConfig, Inv, Tidy, DataKey, KvAccepts, EntryKey, StampKey, WalOf, Render, View, Settled, KeyOk,
      GoodUpdates, AllFaithful, Translates, After, Lands, Hit, Apply, SetRow;
    if step.Store? && Proceeds(c, s, s', step) {
      StoreLasts(c, s, s', step.n, n, at);
    } else if step.LandFill? && Serves(c, s, s', step) {
      LandLasts(c, s, s', step.fill, n, at);
    } else {
      KeysApart(c);
    }
  }

  lemma LandLasts(c: Config, s: State, s': State, fill: nat, n: int, at: int)
    requires GoodConfig(c) && Tidy(c, s) && Lands(c, s, s', fill) && at <= s.now && Lasting(c, s, n, at)
    ensures Lasting(c, s', n, at)
  {
    hide GoodConfig, DataKey, CacheKey, ValidRecord, AllConvert, KvDoc, Whole, DocsTidy, ScanRow;
    KeysApart(c);
    FillKey(c, s.fills[fill].n, s.fills[fill].row);
  }

  lemma {:induction false} ClockAdvances(c: Config, states: seq<State>, steps: seq<Step>, i: nat, j: nat)
    requires Run(c, states, steps) && i <= j < |states|
    ensures states[i].now <= states[j].now
    decreases j
  {
    hide Begins, Proceeds, Serves, Init;
    if i < j {
      ClockAdvances(c, states, steps, i, j - 1);
      assert Next(c, states[j-1], states[j-1+1], steps[j-1]);
      ClockStep(c, states[j-1], states[j], steps[j-1]);
    }
  }

  lemma ClockStep(c: Config, s: State, s': State, step: Step)
    requires Next(c, s, s', step)
    ensures s.now <= s'.now
  {
    hide KvAccepts, View, Settled, KeyOk, GoodUpdates, AllFaithful, Translates, After, Hit, Apply, EntryKey, StampKey,
      WalOf, Render, CacheKey, KvDoc, ScanRow, SetRow, DataKey;
  }

  lemma {:induction false} StoredLasts(c: Config, states: seq<State>, steps: seq<Step>, j: nat, i: nat, n: int)
    requires GoodConfig(c) && Run(c, states, steps) && j < i < |states| && steps[j] == Store(n)
    requires forall k :: j <= k < i ==> !Removes(states, steps, k, n)
    ensures Lasting(c, states[i], n, states[j].now)
    decreases i
  {
    hide GoodConfig, Inv, Tidy, Begins, Proceeds, Serves, Init, Lasting;
    var s, s', step := states[i-1], states[i], steps[i-1];
    assert Next(c, s, s', step);
    InvariantHolds(c, states, steps, i - 1);
    assert !Removes(states, steps, i - 1, n);
    if i == j + 1 {
      StoreProceeds(c, s, s', n);
      StoreLasts(c, s, s', n, n, s.now);
    } else {
      StoredLasts(c, states, steps, j, i - 1, n);
      TidyHolds(c, states, steps, i - 1);
      ClockAdvances(c, states, steps, j, i - 1);
      StepLasts(c, s, s', step, n, states[j].now);
    }
  }

  lemma StoreProceeds(c: Config, s: State, s': State, n: int)
    requires Next(c, s, s', Store(n))
    ensures Proceeds(c, s, s', Store(n)) && n in s.flights
  {
    hide KvAccepts, View, Apply, SetRow;
  }

  /** A create or update that reached the cache at some point of a run is found there at every
      later point, until its key is deleted or its TTL is over. */
  lemma ReadYourWrites(c: Config, states: seq<State>, steps: seq<Step>, j: nat, i: nat, n: int)
    requires GoodConfig(c) && Run(c, states, steps) && j < i < |states| && steps[j] == Store(n)
    requires forall k :: j <= k < i ==> !Removes(states, steps, k, n)
    requires c.ttl > 0 ==> states[i].now < states[j].now + c.ttl
    ensures Hit(c, states[i], n)
  {
    hide GoodConfig, Run, Lasting, Hit;
    StoredLasts(c, states, steps, j, i, n);
    LastingHits(c, states[i], n, states[j].now);
  }

  /* ---------- supplied fields along a run ---------- */

  lemma {:induction false} SuppliedPrefix(states: seq<State>, steps: seq<Step>,
                                          states': seq<State>, steps': seq<Step>, i: nat)
    requires states <= states' && steps <= steps' && i <= |steps| && i <= |states|
    ensures Supplied(states', steps', i) == Supplied(states, steps, i)
  {
    hide Supply;
    if i > 0 { SuppliedPrefix(states, steps, states', steps', i - 1); }
  }

  /** Only a write on the key changes what was supplied for it. */
  lemma {:induction false} SuppliedElsewhere(states: seq<State>, steps: seq<Step>, i: nat, j: nat, n: int)
    requires i <= j <= |steps| && j <= |states| && forall k :: i <= k < j ==> steps[k] != Store(n)
    ensures At(Supplied(states, steps, j), n) == At(Supplied(states, steps, i), n)
    decreases j
  {
    if i < j {
      SuppliedElsewhere(states, steps, i, j - 1, n);
      assert steps[j-1] != Store(n);
    }
  }

  /** What is supplied for a key after one more write on it. */
  function Supplies(op: WriteOp, must: set<string>): set<string> {
    match op.kind
    case OperationCreate => OpKeys(op)
    case OperationUpdate => must + OpKeys(op)
    case OperationDelete => {}
  }

  /** All that was supplied for a key in a run. */
  function Must(states: seq<State>, steps: seq<Step>, n: int): set<string> {
    if |steps| <= |states| then At(Supplied(states, steps, |steps|), n) else {}
  }

  /** Steps added without a write on `n` reaching the cache. */
  ghost predicate Quiet(before: seq<Step>, after: seq<Step>, n: int) {
    before <= after && forall k :: |before| <= k < |after| ==> after[k] != Store(n)
  }

  lemma QuietOn(a: seq<Step>, b: seq<Step>, d: seq<Step>, n: int)
    requires Quiet(a, b, n) && Quiet(b, d, n)
    ensures Quiet(a, d, n)
  {
  }

  lemma QuietMust(states: seq<State>, steps: seq<Step>, states': seq<State>, steps': seq<Step>, n: int)
    requires states <= states' && Quiet(steps, steps', n) && |steps| <= |states| && |steps'| <= |states'|
    ensures Must(states', steps', n) == Must(states, steps, n)
  {
    SuppliedPrefix(states, steps, states', steps', |steps|);
    SuppliedElsewhere(states', steps', |steps|, |steps'|, n);
  }

  /** One write on `n` reached the cache, at step `j`. */
  ghost predicate OneWrite(before: seq<Step>, states: seq<State>, steps: seq<Step>, j: nat, n: int, op: WriteOp) {
    && |before| <= j < |steps| < |states| && before <= steps && steps[j] == Store(n)
    && (forall k :: |before| <= k < |steps| && k != j ==> steps[k] != Store(n))
    && n in states[j].flights && states[j].flights[n].op == op
  }

  lemma OneWriteMust(states: seq<State>, steps: seq<Step>, states': seq<State>, steps': seq<Step>,
                     j: nat, n: int, op: WriteOp)
    requires states <= states' && |steps| <= |states| && OneWrite(steps, states', steps', j, n, op)
    ensures Must(states', steps', n) == Supplies(op, Must(states, steps, n))
  {
    SuppliedPrefix(states, steps, states', steps', |steps|);
    SuppliedElsewhere(states', steps', |steps|, j, n);
    SuppliedElsewhere(states', steps', j + 1, |steps'|, n);
  }

  /** Unless it is a deletion, it can be read back. */
  lemma OneWriteLasts(c: Config, before: seq<Step>, states: seq<State>, steps: seq<Step>, j: nat, n: int, op: WriteOp)
    requires GoodConfig(c) && Run(c, states, steps) && OneWrite(before, states, steps, j, n, op)
    requires op.kind != OperationDelete
    ensures Lasting(c, states[|states|-1], n, states[j].now) && states[j].now <= states[|states|-1].now
  {
    hide GoodConfig, Next, Init, Lasting;
    StoredLasts(c, states, steps, j, |states| - 1, n);
    ClockAdvances(c, states, steps, j, |states| - 1);
  }

  /* ---------- and only until the TTL is over ---------- */

  /** Step `j` stores a record under key `n`: a write, or a fill. */
  ghost predicate Wrote(states: seq<State>, steps: seq<Step>, j: nat, n: int) {
    && j < |steps| && j < |states|
    && (steps[j] == Store(n)
        || (steps[j].LandFill? && steps[j].fill in states[j].fills && states[j].fills[steps[j].fill].n == n))
  }

  /** The cell expires a TTL after such a step. */
  ghost predicate Dated(c: Config, states: seq<State>, steps: seq<Step>, i: nat, n: int, cell: Cell) {
    exists j: nat :: j < i && Wrote(states, steps, j, n)
      && cell.expiry == (if c.ttl > 0 then Some(states[j].now + c.ttl) else None)
  }

  ghost predicate AllDated(c: Config, states: seq<State>, steps: seq<Step>, i: nat, s: State) {
    forall n :: DataKey(c, n) in s.kv ==> Dated(c, states, steps, i, n, s.kv[DataKey(c, n)])
  }

  lemma DatedLater(c: Config, states: seq<State>, steps: seq<Step>, i: nat, n: int, cell: Cell)
    requires Dated(c, states, steps, i, n, cell)
    ensures Dated(c, states, steps, i + 1, n, cell)
  {
  }

  /** A step either leaves a cell alone, removes it, or writes and dates it. */
  ghost predicate CellMoves(c: Config, s: State, s': State, step: Step, n: int) {
    DataKey(c, n) in s'.kv ==>
      || (DataKey(c, n) in s.kv && s'.kv[DataKey(c, n)] == s.kv[DataKey(c, n)])
      || (&& (step == Store(n) || (step.LandFill? && step.fill in s.fills && s.fills[step.fill].n == n))
          && s'.kv[DataKey(c, n)].expiry == (if c.ttl > 0 then Some(s.now + c.ttl) else None))
  }

  lemma StoreMoves(c: Config, s: State, s': State, m: int, n: int)
    requires GoodConfig(c) && Inv(c, s) && Proceeds(c, s, s', Store(m))
    ensures CellMoves(c, s, s', Store(m), n)
  {
    hide GoodConfig, Inv, DataKey, View, OpOk, Stands, Apply, SetRow;
    KeysApart(c);
    FlightAt(c, s, m);
  }

  lemma LandMoves(c: Config, s: State, s': State, fill: nat, n: int)
    requires GoodConfig(c) && Tidy(c, s) && Lands(c, s, s', fill)
    ensures CellMoves(c, s, s', LandFill(fill), n)
  {
    hide GoodConfig, DataKey, CacheKey, ValidRecord, AllConvert, KvDoc, Whole, DocsTidy, ScanRow;
    KeysApart(c);
    FillKey(c, s.fills[fill].n, s.fills[fill].row);
  }

  lemma StepMoves(c: Config, s: State, s': State, step: Step, n: int)
    requires GoodConfig(c) && Inv(c, s) && Tidy(c, s) && Next(c, s, s', step)
    ensures CellMoves(c, s, s', step, n)
  {
    hide GoodConfig, Inv, Tidy, DataKey, KvAccepts, EntryKey, StampKey, WalOf, Render, View, Settled, KeyOk,
      GoodUpdates, AllFaithful, Translates, After, Lands, Hit, Apply, SetRow;
    if step.Store? && Proceeds(c, s, s', step) {
      StoreMoves(c, s, s', step.n, n);
    } else if step.LandFill? && Serves(c, s, s', step) {
      LandMoves(c, s, s', step.fill, n);
    } else {
      KeysApart(c);
    }
  }

  lemma {:induction false} CellsAreDated(c: Config, states: seq<State>, steps: seq<Step>, i: nat)
    requires GoodConfig(c) && Run(c, states, steps) && i < |states|
    ensures AllDated(c, states, steps, i, states[i])
  {
    hide GoodConfig, Inv, Tidy, Begins, Proceeds, Serves, DataKey, Dated, CellMoves;
    if i > 0 {
      CellsAreDated(c, states, steps, i - 1);
      InvariantHolds(c, states, steps, i - 1);
      TidyHolds(c, states, steps, i - 1);
      var s, s', step := states[i-1], states[i], steps[i-1];
      assert Next(c, s, s', step);
      forall n | DataKey(c, n) in s'.kv ensures Dated(c, states, steps, i, n, s'.kv[DataKey(c, n)]) {
        StepMoves(c, s, s', step, n);
        CellDated(c, states, steps, i - 1, n);
      }
    }
  }

  lemma CellDated(c: Config, states: seq<State>, steps: seq<Step>, i: nat, n: int)
    requires i < |steps| && |states| == |steps| + 1 && CellMoves(c, states[i], states[i+1], steps[i], n)
    requires DataKey(c, n) in states[i].kv ==> Dated(c, states, steps, i, n, states[i].kv[DataKey(c, n)])
    ensures DataKey(c, n) in states[i+1].kv ==> Dated(c, states, steps, i + 1, n, states[i+1].kv[DataKey(c, n)])
  {
    hide DataKey;
    var s, s' := states[i], states[i+1];
    if DataKey(c, n) in s'.kv {
      if DataKey(c, n) in s.kv && s'.kv[DataKey(c, n)] == s.kv[DataKey(c, n)] {
        DatedLater(c, states, steps, i, n, s.kv[DataKey(c, n)]);
      } else {
        assert Wrote(states, steps, i, n);
      }
    }
  }

  /** A hit, at any point of any run, was stored by a write or a fill less than a TTL before. */
  lemma HitIsRecent(c: Config, states: seq<State>, steps: seq<Step>, i: nat, n: int) returns (j: nat)
    requires GoodConfig(c) && Run(c, states, steps) && i < |states| && Hit(c, states[i], n)
    ensures j < i && Wrote(states, steps, j, n) && (c.ttl > 0 ==> states[i].now < states[j].now + c.ttl)
  {
    hide GoodConfig, Run, DataKey, Wrote;
    CellsAreDated(c, states, steps, i);
    var cell := states[i].kv[DataKey(c, n)];
    assert Dated(c, states, steps, i, n, cell);
    j :| j < i && Wrote(states, steps, j, n)
      && cell.expiry == (if c.ttl > 0 then Some(states[j].now + c.ttl) else None);
  }
}
