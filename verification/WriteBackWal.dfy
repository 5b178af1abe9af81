/** The WAL's timestamp index: every operation that was enqueued has its index key. */
module WriteBackWal {
  import opened Mapper
  import opened Validator
  import opened Translator
  import opened WriteOps
  import opened WriteBack
  import opened WriteBackLimits
  import opened WriteBackReads
  import StoreKeys

  /** Some timestamp key of the identifier is stored, and names it. */
  ghost predicate Indexed(c: Config, kv: map<string, Cell>, id: string) {
    exists stamp :: StampKey(c, stamp, id) in kv && kv[StampKey(c, stamp, id)].content == Index(id)
  }

  ghost predicate AllIndexed(c: Config, s: State) {
    && (forall l :: l in s.log ==> Indexed(c, s.kv, l.id))
    && (forall n :: n in s.flights && s.flights[n].stage.Logged? ==> Indexed(c, s.kv, s.flights[n].stage.id))
  }

  /** Timestamp keys are told apart from all others, and by their identifiers. */
  lemma StampsApart(c: Config)
    requires GoodConfig(c)
    ensures forall i, a, j, b :: StampKey(c, i, a) == StampKey(c, j, b) ==> a == b
  {
    hide StoreKeys.Text;
    var t := c.s.tableName;
    forall i, a, j, b | StampKey(c, i, a) == StampKey(c, j, b) ensures a == b {
      StoreKeys.KeysNeverCollide(StoreKeys.WalStamp(t, i, a), StoreKeys.WalStamp(t, j, b));
    }
  }

  /** Writing or removing a key that is no timestamp key, or a timestamp key of its own
      identifier, keeps what is indexed. */
  lemma StaysIndexed(c: Config, kv: map<string, Cell>, kv': map<string, Cell>, id: string)
    requires Indexed(c, kv, id)
    requires forall stamp :: StampKey(c, stamp, id) in kv && kv[StampKey(c, stamp, id)].content == Index(id) ==>
      StampKey(c, stamp, id) in kv' && kv'[StampKey(c, stamp, id)].content == Index(id)
    ensures Indexed(c, kv', id)
  {
    hide StampKey;
  }

  /** No step unwrites a timestamp key. */
  ghost predicate StampsStay(c: Config, kv: map<string, Cell>, kv': map<string, Cell>) {
    forall stamp, id :: StampKey(c, stamp, id) in kv && kv[StampKey(c, stamp, id)].content == Index(id) ==>
      StampKey(c, stamp, id) in kv' && kv'[StampKey(c, stamp, id)].content == Index(id)
  }

  lemma StampsStaying(c: Config, s: State, s': State, step: Step)
    requires GoodConfig(c) && Inv(c, s) && Tidy(c, s) && Next(c, s, s', step)
    ensures StampsStay(c, s.kv, s'.kv)
  {
    hide GoodConfig, Inv, Tidy, DataKey, KvAccepts, EntryKey, StampKey, WalOf, Render, View, Settled, KeyOk,
      GoodUpdates, AllFaithful, Translates, After, Lands, Hit, Apply, SetRow, Expiry;
    KeysApart(c);
    StampsApart(c);
    if step.Store? && Proceeds(c, s, s', step) {
      FlightKey(c, s, step.n);
    } else if step.LandFill? && Serves(c, s, s', step) {
      LandStays(c, s, s', step.fill);
    }
  }

  lemma FlightKey(c: Config, s: State, n: int)
    requires Inv(c, s) && n in s.flights
    ensures s.flights[n].kvKey == DataKey(c, n)
  {
    hide Inv, View, OpOk, Stands, Apply, DataKey;
    FlightAt(c, s, n);
  }

  lemma LandStays(c: Config, s: State, s': State, fill: nat)
    requires GoodConfig(c) && Tidy(c, s) && Lands(c, s, s', fill)
    ensures StampsStay(c, s.kv, s'.kv)
  {
    hide GoodConfig, DataKey, CacheKey, ValidRecord, AllConvert, KvDoc, Whole, DocsTidy, ScanRow, StampKey, EntryKey,
      Expiry;
    KeysApart(c);
    FillKey(c, s.fills[fill].n, s.fills[fill].row);
  }

  lemma IndexesStay(c: Config, s: State, s': State, step: Step)
    requires StampsStay(c, s.kv, s'.kv) && AllIndexed(c, s) && Next(c, s, s', step)
    ensures AllIndexed(c, s')
  {
    hide Indexed, StampKey, DataKey, KvAccepts, EntryKey, WalOf, Render, View, Settled, KeyOk, GoodUpdates, AllFaithful,
      Translates, After, Hit, Apply, SetRow, Expiry, ScanRow, CacheKey, KvDoc;
    forall id | Indexed(c, s.kv, id) ensures Indexed(c, s'.kv, id) {
      StaysIndexed(c, s.kv, s'.kv, id);
    }
    if step.WriteIndex? && Proceeds(c, s, s', step) {
      IndexWritten(c, s, s', step.n, step.stamp);
    }
  }

  lemma IndexWritten(c: Config, s: State, s': State, n: int, stamp: int)
    requires Proceeds(c, s, s', WriteIndex(n, stamp))
    ensures Indexed(c, s'.kv, s.flights[n].stage.id)
  {
    hide StampKey;
    var id := s.flights[n].stage.id;
    assert StampKey(c, stamp, id) in s'.kv && s'.kv[StampKey(c, stamp, id)].content == Index(id);
  }

  /** At every point of every run, each operation ever enqueued has its WAL index entry. */
  lemma {:induction false} WalIndexed(c: Config, states: seq<State>, steps: seq<Step>, i: nat)
    requires GoodConfig(c) && Run(c, states, steps) && i < |states|
    ensures AllIndexed(c, states[i])
  {
    hide GoodConfig, Inv, Tidy, Begins, Proceeds, Serves, Indexed, StampsStay;
    if i > 0 {
      WalIndexed(c, states, steps, i - 1);
      InvariantHolds(c, states, steps, i - 1);
      TidyHolds(c, states, steps, i - 1);
      assert Next(c, states[i-1], states[i-1+1], steps[i-1]);
      StampsStaying(c, states[i-1], states[i], steps[i-1]);
      IndexesStay(c, states[i-1], states[i], steps[i-1]);
    }
  }
}
