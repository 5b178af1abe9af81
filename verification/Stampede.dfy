/** The stampede preventer and the reads it coordinates, as a step system: leaders mark an
    entry, fetch, publish and complete; followers check, capture the entry and wait;
    delayed timers clean up. Every lock region of the source is one step, and steps of all
    readers and timers interleave freely. Leaders do not panic. */
module Stampede {
  import opened GoText
  import opened Validator

  const SECOND := 1_000_000_000
  const IN_FLIGHT_TIMEOUT := 30 * SECOND
  const CLEANUP_DELAY := 100_000_000

  /** What a read of the store gave. */
  datatype Outcome = Found(rec: Record) | Failed(error: string)

  /** A `pendingRead` object. `closes` counts how often its channel was closed; `readAt` is
      when the published outcome was read from the store. */
  datatype Entry = Entry(
    key: string, created: int, result: Option<Record>, err: Option<string>, closes: nat, waiters: int, readAt: int)

  /** Where one call of `CacheHandler.Read` is. A leader carries the entry it marked. */
  datatype Reader =
    | Asked(key: string)
    | Joining(key: string, checked: int)
    | Waiting(key: string, checked: int, e: nat)
    | Leading(key: string)
    | Marked(key: string, e: nat)
    | Fetched(key: string, e: nat, out: Outcome, at: int)
    | Publishing(key: string, e: nat, out: Outcome, at: int, target: nat)
    | Published(key: string, e: nat)
    | Followed(key: string, checked: int, e: nat, out: Outcome)
    | Finished

  datatype Timer = Timer(key: string, due: int)

  /** Entries are never deallocated, only dropped from `pending`. */
  datatype State = State(
    now: int, pending: map<string, nat>, entries: seq<Entry>, readers: map<nat, Reader>, timers: multiset<Timer>)

  datatype Step =
    | Tick(dt: nat)
    | Arrive(r: nat, key: string)
    | Check(r: nat)                   // IsInFlight
    | Mark(r: nat)                    // MarkInFlight
    | Fetch(r: nat, out: Outcome)     // kvStore.Get and FromKV
    | Find(r: nat)                    // SetResult / SetError: look the entry up
    | Publish(r: nat)                 // ... and write it
    | Complete(r: nat)                // MarkComplete
    | Fire(t: Timer)                  // its delayed cleanup
    | Capture(r: nat)                 // WaitForResult: look the entry up
    | Receive(r: nat)                 // ... its channel is closed
    | Cancel(r: nat)                  // ... the context is done first

  function NewEntry(key: string, now: int): Entry { Entry(key, now, None, None, 0, 0, now) }

  /** The locked region of `SetResult` and `SetError`. */
  function Write(e: Entry, out: Outcome, at: int): Entry {
    if e.result.None? && e.err.None? then
      match out
      case Found(rec) => e.(result := Some(rec), closes := e.closes + 1, readAt := at)
      case Failed(error) => e.(err := Some(error), closes := e.closes + 1, readAt := at)
    else e
  }

  /** What a follower returns from a closed entry. */
  function OutcomeOf(e: Entry): Outcome {
    if e.err.Some? then Failed(e.err.value)
    else Found(if e.result.Some? then e.result.value else map[])
  }

  predicate MarkStep(s: State, s': State, r: nat) {
    && r in s.readers && s.readers[r].Leading?
    && var key := s.readers[r].key;
    && var entries := if key in s.pending then s.entries else s.entries + [NewEntry(key, s.now)];
    && var pending := if key in s.pending then s.pending else s.pending[key := |s.entries|];
    && pending[key] < |entries|
    && var e := pending[key];
    && s' == s.(pending := pending,
                entries := entries[e := entries[e].(waiters := entries[e].waiters + 1)],
                readers := s.readers[r := Marked(key, e)])
  }

  predicate CompleteStep(s: State, s': State, r: nat) {
    && r in s.readers && s.readers[r].Published?
    && var key := s.readers[r].key;
    && if key !in s.pending || s.pending[key] >= |s.entries| then s' == s.(readers := s.readers[r := Finished])
       else
         var e := s.pending[key];
         var left := s.entries[e].waiters - 1;
         s' == s.(entries := s.entries[e := s.entries[e].(waiters := left)],
                  readers := s.readers[r := Finished],
                  timers := if left <= 0 then s.timers + multiset{Timer(key, s.now + CLEANUP_DELAY)} else s.timers)
  }

  predicate FireStep(s: State, s': State, t: Timer) {
    && t in s.timers && t.due <= s.now
    && s' == s.(timers := s.timers - multiset{t},
                pending := if t.key in s.pending && s.pending[t.key] < |s.entries|
                              && s.entries[s.pending[t.key]].waiters <= 0
                           then s.pending - {t.key} else s.pending)
  }

  /** Steps that change one reader only. */
  predicate LocalStep(s: State, s': State, r: nat, next: Reader) {
    s' == s.(readers := s.readers[r := next])
  }

  predicate Next(s: State, s': State, step: Step) {
    match step
    case Tick(dt) => s' == s.(now := s.now + dt)
    case Arrive(r, key) => r !in s.readers && LocalStep(s, s', r, Asked(key))
    case Check(r) =>
      && r in s.readers && s.readers[r].Asked?
      && var key := s.readers[r].key;
      && var inFlight := key in s.pending && s.pending[key] < |s.entries|
                         && s.now <= s.entries[s.pending[key]].created + IN_FLIGHT_TIMEOUT;
         LocalStep(s, s', r, if inFlight then Joining(key, s.now) else Leading(key))
    case Mark(r) => MarkStep(s, s', r)
    case Fetch(r, out) =>
      && r in s.readers && s.readers[r].Marked?
      && LocalStep(s, s', r, Fetched(s.readers[r].key, s.readers[r].e, out, s.now))
    case Find(r) =>
      && r in s.readers && s.readers[r].Fetched?
      && var l := s.readers[r];
         LocalStep(s, s', r, if l.key in s.pending then Publishing(l.key, l.e, l.out, l.at, s.pending[l.key])
                             else Published(l.key, l.e))
    case Publish(r) =>
      && r in s.readers && s.readers[r].Publishing? && s.readers[r].target < |s.entries|
      && var l := s.readers[r];
         s' == s.(entries := s.entries[l.target := Write(s.entries[l.target], l.out, l.at)],
                  readers := s.readers[r := Published(l.key, l.e)])
    case Complete(r) => CompleteStep(s, s', r)
    case Fire(t) => FireStep(s, s', t)
    case Capture(r) =>
      && r in s.readers && s.readers[r].Joining?
      && var f := s.readers[r];
         LocalStep(s, s', r, if f.key in s.pending then Waiting(f.key, f.checked, s.pending[f.key]) else Finished)
    case Receive(r) =>
      && r in s.readers && s.readers[r].Waiting? && s.readers[r].e < |s.entries| && s.entries[s.readers[r].e].closes > 0
      && var f := s.readers[r];
         LocalStep(s, s', r, Followed(f.key, f.checked, f.e, OutcomeOf(s.entries[f.e])))
    case Cancel(r) => r in s.readers && s.readers[r].Waiting? && LocalStep(s, s', r, Finished)
  }

  predicate Init(s: State) {
    s.pending == map[] && s.entries == [] && s.readers == map[] && s.timers == multiset{}
  }

  /* ---------- the invariant ---------- */

  /** Between `MarkInFlight` and `MarkComplete`, on entry `e`. */
  predicate Leads(reader: Reader, e: nat) {
    (reader.Marked? || reader.Fetched? || reader.Publishing? || reader.Published?) && reader.e == e
  }

  predicate Unpublished(reader: Reader) { reader.Marked? || reader.Fetched? || reader.Publishing? }

  function Leaders(readers: map<nat, Reader>, e: nat): set<nat> {
    set r | r in readers && Leads(readers[r], e)
  }

  /** The entry under each key is that key's. */
  predicate PendingOk(s: State) {
    forall k :: k in s.pending ==> s.pending[k] < |s.entries| && s.entries[s.pending[k]].key == k
  }

  /** Reference counting. */
  predicate CountsOk(s: State) {
    forall e :: 0 <= e < |s.entries| ==> s.entries[e].waiters == |Leaders(s.readers, e)|
  }

  /** What each reader may rely on, by phase. */
  predicate ReaderOk(s: State, reader: Reader)
    requires PendingOk(s)
  {
    match reader
    case Joining(key, checked) =>
      checked <= s.now && (key in s.pending ==> checked <= s.entries[s.pending[key]].created + IN_FLIGHT_TIMEOUT)
    case Waiting(key, checked, e) =>
      e < |s.entries| && s.entries[e].key == key && checked <= s.entries[e].created + IN_FLIGHT_TIMEOUT
    case Marked(key, e) => AtHome(s, key, e)
    case Fetched(key, e, _, at) => AtHome(s, key, e) && s.entries[e].created <= at
    case Publishing(key, e, _, at, target) => AtHome(s, key, e) && s.entries[e].created <= at && target == e
    case Published(key, e) => AtHome(s, key, e) && s.entries[e].closes == 1
    case Followed(key, checked, e, out) =>
      && e < |s.entries| && s.entries[e].key == key && s.entries[e].closes == 1
      && out == OutcomeOf(s.entries[e]) && checked <= s.entries[e].created + IN_FLIGHT_TIMEOUT
    case _ => true
  }

  /** A leader's entry is the one under its key. */
  predicate AtHome(s: State, key: string, e: nat) {
    key in s.pending && s.pending[key] == e && e < |s.entries|
  }

  predicate ReadersOk(s: State)
    requires PendingOk(s)
  {
    forall r :: r in s.readers ==> ReaderOk(s, s.readers[r])
  }

  /** Closed at most once, exactly when one of result and error is set; created in the past
      and published from a later read. */
  predicate EntryOk(e: Entry, now: int) {
    && e.closes <= 1 && (e.closes == 1 <==> e.result.Some? || e.err.Some?)
    && !(e.result.Some? && e.err.Some?)
    && e.created <= now && e.created <= e.readAt
  }

  predicate EntriesOk(s: State) {
    forall e :: 0 <= e < |s.entries| ==> EntryOk(s.entries[e], s.now)
  }

  /** An open entry has a leader that will still publish. */
  ghost predicate Attended(s: State) {
    forall e :: 0 <= e < |s.entries| && s.entries[e].closes == 0 ==>
      exists r :: r in s.readers && Leads(s.readers[r], e) && Unpublished(s.readers[r])
  }

  ghost predicate Inv(s: State) {
    PendingOk(s) && CountsOk(s) && ReadersOk(s) && EntriesOk(s) && Attended(s)
  }

  /* ---------- every step keeps the invariant ---------- */

  /** What no step undoes: entries keep their key and creation time, and a closed entry its
      outcome. */
  predicate Grows(s: State, s': State) {
    && s.now <= s'.now && |s.entries| <= |s'.entries|
    && forall e :: 0 <= e < |s.entries| ==> EntryGrows(s.entries[e], s'.entries[e])
  }

  predicate EntryGrows(a: Entry, b: Entry) {
    && b.key == a.key && b.created == a.created && a.closes <= b.closes
    && (a.closes == 1 ==> b.closes == 1 && OutcomeOf(b) == OutcomeOf(a))
  }

  /** The key now has no entry, the same entry, or a new one created now. */
  predicate PendingMoves(s: State, s': State, key: string)
    requires PendingOk(s) && PendingOk(s')
  {
    key in s'.pending ==>
      || (key in s.pending && s'.pending[key] == s.pending[key])
      || (key !in s.pending && s'.entries[s'.pending[key]].created == s.now)
  }

  /** A reader other than a leader stays in order whatever happens to `pending`; a leader
      needs its own entry to stay. */
  lemma ReaderKept(s: State, s': State, reader: Reader)
    requires PendingOk(s) && PendingOk(s') && Grows(s, s') && ReaderOk(s, reader)
    requires reader.Joining? ==> PendingMoves(s, s', reader.key)
    requires (exists e: nat :: Leads(reader, e)) ==>
      reader.key in s'.pending && s'.pending[reader.key] == s.pending[reader.key]
    ensures ReaderOk(s', reader)
  {
    if reader.Marked? || reader.Fetched? || reader.Publishing? || reader.Published? {
      assert Leads(reader, reader.e);
    }
  }

  lemma SameLeaders(readers: map<nat, Reader>, r: nat, next: Reader)
    requires forall e: nat :: Leads(next, e) <==> r in readers && Leads(readers[r], e)
    ensures forall e: nat :: Leaders(readers[r := next], e) == Leaders(readers, e)
  {
  }

  /** Entries still open keep a leader that will publish. */
  lemma AttendedKept(s: State, s': State)
    requires Attended(s)
    requires forall e :: 0 <= e < |s'.entries| && s'.entries[e].closes == 0 ==>
      || (e < |s.entries| && s.entries[e].closes == 0)
      || (exists r :: r in s'.readers && Leads(s'.readers[r], e) && Unpublished(s'.readers[r]))
    requires forall e: nat, q: nat :: e < |s'.entries| && s'.entries[e].closes == 0 && q in s.readers ==>
      (Leads(s.readers[q], e) && Unpublished(s.readers[q]) ==>
       q in s'.readers && Leads(s'.readers[q], e) && Unpublished(s'.readers[q]))
    ensures Attended(s')
  {
    forall e | 0 <= e < |s'.entries| && s'.entries[e].closes == 0
      ensures exists q :: q in s'.readers && Leads(s'.readers[q], e) && Unpublished(s'.readers[q])
    {
      if e < |s.entries| && s.entries[e].closes == 0 {
        var q :| q in s.readers && Leads(s.readers[q], e) && Unpublished(s.readers[q]);
        assert q in s'.readers && Leads(s'.readers[q], e) && Unpublished(s'.readers[q]);
      }
    }
  }

  /** Steps local to one reader: arrival, check, fetch, look-up, capture, receive, cancel. */
  lemma LocalKeeps(s: State, s': State, r: nat, next: Reader)
    requires Inv(s) && LocalStep(s, s', r, next) && ReaderOk(s, next)
    requires forall e: nat :: Leads(next, e) <==> r in s.readers && Leads(s.readers[r], e)
    requires r in s.readers && Unpublished(s.readers[r]) ==> Unpublished(next)
    ensures Inv(s')
  {
    SameLeaders(s.readers, r, next);
    forall q | q in s'.readers ensures ReaderOk(s', s'.readers[q]) {
      var reader := s'.readers[q];
      assert ReaderOk(s, reader);
      ReaderKept(s, s', reader);
    }
    AttendedKept(s, s');
  }

  lemma TickKeeps(s: State, s': State, dt: nat)
    requires Inv(s) && s' == s.(now := s.now + dt)
    ensures Inv(s')
  {
    forall q | q in s'.readers ensures ReaderOk(s', s'.readers[q]) {
      ReaderKept(s, s', s.readers[q]);
    }
  }

  /** Marking adds this reader, and no other, to the leaders of the entry. */
  lemma MarkLeaders(readers: map<nat, Reader>, r: nat, key: string, e: nat)
    requires r in readers && readers[r].Leading?
    ensures Leaders(readers[r := Marked(key, e)], e) == Leaders(readers, e) + {r}
    ensures |Leaders(readers[r := Marked(key, e)], e)| == |Leaders(readers, e)| + 1
    ensures forall d: nat :: d != e ==> Leaders(readers[r := Marked(key, e)], d) == Leaders(readers, d)
  {
    assert r !in Leaders(readers, e);
    assert Leaders(readers[r := Marked(key, e)], e) == Leaders(readers, e) + {r};
  }

  /** Nobody leads an entry that does not exist yet. */
  lemma NoLeaders(s: State, e: nat)
    requires PendingOk(s) && ReadersOk(s) && e >= |s.entries|
    ensures Leaders(s.readers, e) == {}
  {
    forall r | r in s.readers ensures !Leads(s.readers[r], e) {
      assert ReaderOk(s, s.readers[r]);
    }
  }

  lemma MarkGrows(s: State, s': State, r: nat)
    requires Inv(s) && MarkStep(s, s', r)
    ensures PendingOk(s') && Grows(s, s') && EntriesOk(s')
  {
    hide CountsOk, ReadersOk, Attended;
  }

  lemma MarkCounts(s: State, s': State, r: nat)
    requires Inv(s) && MarkStep(s, s', r)
    ensures PendingOk(s') && Grows(s, s') && CountsOk(s') && EntriesOk(s')
  {
    hide EntriesOk, Grows, Attended, Leads;
    MarkGrows(s, s', r);
    var key := s.readers[r].key;
    var e := s'.pending[key];
    MarkLeaders(s.readers, r, key, e);
    if key !in s.pending {
      NoLeaders(s, e);
    }
  }

  lemma MarkKeeps(s: State, s': State, r: nat)
    requires Inv(s) && MarkStep(s, s', r)
    ensures Inv(s')
  {
    MarkCounts(s, s', r);
    var key := s.readers[r].key;
    forall q | q in s'.readers ensures ReaderOk(s', s'.readers[q]) {
      if q != r {
        assert ReaderOk(s, s.readers[q]);
        ReaderKept(s, s', s.readers[q]);
      }
    }
    assert Leads(s'.readers[r], s'.pending[key]) && Unpublished(s'.readers[r]);
    AttendedKept(s, s');
  }

  lemma PublishWrites(s: State, s': State, r: nat)
    requires Inv(s) && Next(s, s', Publish(r))
    ensures PendingOk(s') && Grows(s, s') && CountsOk(s') && EntriesOk(s')
    ensures ReaderOk(s', s'.readers[r]) && s'.entries[s.readers[r].e].closes == 1
  {
    var l := s.readers[r];
    assert ReaderOk(s, l) && EntryOk(s.entries[l.target], s.now);
    SameLeaders(s.readers, r, Published(l.key, l.e));
  }

  lemma PublishKeeps(s: State, s': State, r: nat)
    requires Inv(s) && Next(s, s', Publish(r))
    ensures Inv(s')
  {
    hide Write, EntryOk, EntryGrows;
    PublishWrites(s, s', r);
    forall q | q in s'.readers ensures ReaderOk(s', s'.readers[q]) {
      if q != r {
        ReaderKept(s, s', s.readers[q]);
      }
    }
    PublishAttended(s, s', r);
  }

  lemma PublishAttended(s: State, s': State, r: nat)
    requires Inv(s) && Next(s, s', Publish(r)) && s'.entries[s.readers[r].e].closes == 1
    ensures Attended(s')
  {
    assert ReaderOk(s, s.readers[r]);
    AttendedKept(s, s');
  }

  /** Completing removes this reader, and no other, from the leaders of its entry. */
  lemma CompleteLeaders(readers: map<nat, Reader>, r: nat)
    requires r in readers && readers[r].Published?
    ensures |Leaders(readers[r := Finished], readers[r].e)| == |Leaders(readers, readers[r].e)| - 1
    ensures forall d: nat :: d != readers[r].e ==> Leaders(readers[r := Finished], d) == Leaders(readers, d)
  {
    assert Leaders(readers[r := Finished], readers[r].e) == Leaders(readers, readers[r].e) - {r};
  }

  lemma CompleteCounts(s: State, s': State, r: nat)
    requires Inv(s) && CompleteStep(s, s', r)
    ensures PendingOk(s') && Grows(s, s') && CountsOk(s') && EntriesOk(s')
  {
    hide Leads, Attended, EntryOk;
    CompleteStays(s, r);
    CompleteLeaders(s.readers, r);
    EntriesCounted(s, s');
  }

  /** A leader about to complete finds its entry. */
  lemma CompleteStays(s: State, r: nat)
    requires Inv(s) && r in s.readers && s.readers[r].Published?
    ensures var l := s.readers[r]; l.key in s.pending && s.pending[l.key] == l.e && l.e < |s.entries|
  {
    assert ReaderOk(s, s.readers[r]);
  }

  /** Counts do not matter to an entry's other promises. */
  lemma EntriesCounted(s: State, s': State)
    requires EntriesOk(s) && s'.now == s.now && |s'.entries| == |s.entries|
    requires forall e :: 0 <= e < |s.entries| ==> s'.entries[e] == s.entries[e].(waiters := s'.entries[e].waiters)
    ensures EntriesOk(s') && Grows(s, s')
  {
    forall e | 0 <= e < |s.entries|
      ensures EntryOk(s'.entries[e], s'.now) && EntryGrows(s.entries[e], s'.entries[e])
    {
      assert EntryOk(s.entries[e], s.now);
    }
  }

  lemma CompleteKeeps(s: State, s': State, r: nat)
    requires Inv(s) && CompleteStep(s, s', r)
    ensures Inv(s')
  {
    hide EntryOk, EntryGrows, CountsOk;
    CompleteCounts(s, s', r);
    forall q | q in s'.readers ensures ReaderOk(s', s'.readers[q]) {
      if q != r {
        ReaderKept(s, s', s.readers[q]);
      }
    }
    AttendedKept(s, s');
  }

  /** An entry that a cleanup timer removes has no leader. */
  lemma FireSparesLeaders(s: State, s': State, t: Timer)
    requires Inv(s) && FireStep(s, s', t) && t.key !in s'.pending && t.key in s.pending
    ensures Leaders(s.readers, s.pending[t.key]) == {}
  {
    var e := s.pending[t.key];
    assert s.entries[e].waiters == |Leaders(s.readers, e)|;
  }

  lemma FireKeeps(s: State, s': State, t: Timer)
    requires Inv(s) && FireStep(s, s', t)
    ensures Inv(s')
  {
    forall q | q in s'.readers ensures ReaderOk(s', s'.readers[q]) {
      var reader := s.readers[q];
      assert ReaderOk(s, reader);
      if t.key !in s'.pending && t.key in s.pending {
        FireSparesLeaders(s, s', t);
        assert q !in Leaders(s.readers, s.pending[t.key]);
      }
      ReaderKept(s, s', reader);
    }
  }

  lemma ReceiveKeeps(s: State, s': State, r: nat)
    requires Inv(s) && Next(s, s', Receive(r))
    ensures Inv(s')
  {
    assert ReaderOk(s, s.readers[r]);
    assert EntryOk(s.entries[s.readers[r].e], s.now);
    LocalKeeps(s, s', r, s'.readers[r]);
  }

  lemma FetchKeeps(s: State, s': State, r: nat, out: Outcome)
    requires Inv(s) && Next(s, s', Fetch(r, out))
    ensures Inv(s')
  {
    assert ReaderOk(s, s.readers[r]);
    assert EntryOk(s.entries[s.readers[r].e], s.now);
    LocalKeeps(s, s', r, s'.readers[r]);
  }

  /** A leader that looks its entry up finds it. */
  lemma FindKeeps(s: State, s': State, r: nat)
    requires Inv(s) && Next(s, s', Find(r))
    ensures Inv(s') && s'.readers[r].Publishing? && s'.readers[r].target == s.readers[r].e
  {
    assert ReaderOk(s, s.readers[r]);
    LocalKeeps(s, s', r, s'.readers[r]);
  }

  lemma CaptureKeeps(s: State, s': State, r: nat)
    requires Inv(s) && Next(s, s', Capture(r))
    ensures Inv(s')
  {
    assert ReaderOk(s, s.readers[r]);
    LocalKeeps(s, s', r, s'.readers[r]);
  }

  lemma StepKeeps(s: State, s': State, step: Step)
    requires Inv(s) && Next(s, s', step)
    ensures Inv(s')
  {
    match step
    case Tick(dt) => TickKeeps(s, s', dt);
    case Mark(r) => MarkKeeps(s, s', r);
    case Publish(r) => PublishKeeps(s, s', r);
    case Complete(r) => CompleteKeeps(s, s', r);
    case Fire(t) => FireKeeps(s, s', t);
    case Arrive(r, key) => LocalKeeps(s, s', r, s'.readers[r]);
    case Receive(r) => ReceiveKeeps(s, s', r);
    case Check(r) => LocalKeeps(s, s', r, s'.readers[r]);
    case Fetch(r, out) => FetchKeeps(s, s', r, out);
    case Find(r) => FindKeeps(s, s', r);
    case Capture(r) => CaptureKeeps(s, s', r);
    case Cancel(r) => LocalKeeps(s, s', r, s'.readers[r]);
  }

  /* ---------- whole runs ---------- */

  predicate Run(states: seq<State>, steps: seq<Step>) {
    && |states| == |steps| + 1 && Init(states[0])
    && forall i :: 0 <= i < |steps| ==> Next(states[i], states[i+1], steps[i])
  }

  lemma {:induction false} InvariantHolds(states: seq<State>, steps: seq<Step>, i: nat)
    requires Run(states, steps) && i < |states|
    ensures Inv(states[i])
  {
    if i > 0 {
      InvariantHolds(states, steps, i - 1);
      StepKeeps(states[i-1], states[i], steps[i-1]);
    }
  }

  /** The readers between `MarkInFlight` and `MarkComplete` for a key. */
  function Active(s: State, key: string): set<nat> {
    set r | r in s.readers && InLead(s.readers[r]) && s.readers[r].key == key
  }

  predicate InLead(reader: Reader) {
    reader.Marked? || reader.Fetched? || reader.Publishing? || reader.Published?
  }

  /** Reference counting: in every interleaving, a key's `waiters` is the number of readers
      between `MarkInFlight` and `MarkComplete`, and a key without an entry has none. */
  lemma ReferenceCounting(states: seq<State>, steps: seq<Step>, i: nat, key: string)
    requires Run(states, steps) && i < |states|
    ensures var s := states[i];
            if key in s.pending then
              s.pending[key] < |s.entries| && s.entries[s.pending[key]].waiters == |Active(s, key)|
            else Active(s, key) == {}
  {
    InvariantHolds(states, steps, i);
    var s := states[i];
    assert forall r :: r in s.readers ==> ReaderOk(s, s.readers[r]);
    if key in s.pending {
      assert Active(s, key) == Leaders(s.readers, s.pending[key]);
    }
  }

  /** No cleanup timer, however old, removes an entry that has an active leader. */
  lemma CleanupSparesActiveEntries(states: seq<State>, steps: seq<Step>, i: nat, key: string)
    requires Run(states, steps) && i < |steps|
    requires key in states[i].pending && Active(states[i], key) != {}
    ensures key in states[i+1].pending && states[i+1].pending[key] == states[i].pending[key]
  {
    ReferenceCounting(states, steps, i, key);
    assert Next(states[i], states[i+1], steps[i]);
    assert |Active(states[i], key)| > 0;
  }

  /** So what a leader publishes or completes always lands on the entry it marked. */
  lemma LeadersStayHome(states: seq<State>, steps: seq<Step>, i: nat, r: nat)
    requires Run(states, steps) && i < |states| && r in states[i].readers
    requires exists e: nat :: Leads(states[i].readers[r], e)
    ensures var s, l := states[i], states[i].readers[r];
            && l.key in s.pending && s.pending[l.key] == l.e
            && (l.Publishing? ==> l.target == l.e)
  {
    InvariantHolds(states, steps, i);
    assert ReaderOk(states[i], states[i].readers[r]);
  }

  /** No double close: a channel is closed at most once, exactly when one of result and error
      is set, never both. */
  lemma ClosedExactlyOnce(states: seq<State>, steps: seq<Step>, i: nat, e: nat)
    requires Run(states, steps) && i < |states| && e < |states[i].entries|
    ensures var p := states[i].entries[e];
            && p.closes <= 1
            && (p.closes == 1 <==> p.result.Some? || p.err.Some?)
            && !(p.result.Some? && p.err.Some?)
  {
    InvariantHolds(states, steps, i);
    assert EntryOk(states[i].entries[e], states[i].now);
  }

  /** No stranded follower: the entry a follower holds, even once removed from the map, is
      closed or has a leader that has not yet published. */
  lemma NoStrandedFollower(states: seq<State>, steps: seq<Step>, i: nat, r: nat)
    requires Run(states, steps) && i < |states| && r in states[i].readers && states[i].readers[r].Waiting?
    ensures var s, e := states[i], states[i].readers[r].e;
            && e < |s.entries|
            && (s.entries[e].closes == 1
                || exists q :: q in s.readers && Leads(s.readers[q], e) && Unpublished(s.readers[q]))
  {
    InvariantHolds(states, steps, i);
    var s := states[i];
    assert ReaderOk(s, s.readers[r]);
    assert EntryOk(s.entries[s.readers[r].e], s.now);
  }

  /** Follower agreement: all followers of one entry return the same outcome. */
  lemma FollowersAgree(states: seq<State>, steps: seq<Step>, i: nat, a: nat, b: nat)
    requires Run(states, steps) && i < |states| && a in states[i].readers && b in states[i].readers
    requires states[i].readers[a].Followed? && states[i].readers[b].Followed?
    requires states[i].readers[a].e == states[i].readers[b].e
    ensures states[i].readers[a].out == states[i].readers[b].out
  {
    InvariantHolds(states, steps, i);
    assert ReaderOk(states[i], states[i].readers[a]) && ReaderOk(states[i], states[i].readers[b]);
  }

  /** Bounded staleness: what a follower returns was read from the store no earlier than 30
      seconds before its own `IsInFlight` check, even if the entry it found was replaced
      before it captured one. */
  lemma BoundedStaleness(states: seq<State>, steps: seq<Step>, i: nat, r: nat)
    requires Run(states, steps) && i < |states| && r in states[i].readers && states[i].readers[r].Followed?
    ensures var f := states[i].readers[r];
            && f.e < |states[i].entries| && states[i].entries[f.e].key == f.key
            && f.out == OutcomeOf(states[i].entries[f.e])
            && f.checked - IN_FLIGHT_TIMEOUT <= states[i].entries[f.e].readAt
  {
    InvariantHolds(states, steps, i);
    assert ReaderOk(states[i], states[i].readers[r]);
    assert EntryOk(states[i].entries[states[i].readers[r].e], states[i].now);
  }

  /* ---------- where outcomes come from ---------- */

  /** Step `j` is a leader of entry `e` fetching `out` from the store at time `at`. */
  ghost predicate FetchedAt(states: seq<State>, steps: seq<Step>, j: nat, q: nat,
                            key: string, e: nat, out: Outcome, at: int) {
    && j < |steps| && j < |states| && steps[j] == Fetch(q, out)
    && q in states[j].readers && states[j].readers[q] == Marked(key, e) && states[j].now == at
  }

  /** Some step before the `i`-th is. */
  ghost predicate WasFetched(states: seq<State>, steps: seq<Step>, i: nat,
                             key: string, e: nat, out: Outcome, at: int) {
    exists j: nat, q: nat :: j < i && FetchedAt(states, steps, j, q, key, e, out, at)
  }

  ghost predicate EntrySourced(states: seq<State>, steps: seq<Step>, i: nat, e: nat, p: Entry) {
    p.closes == 1 ==> WasFetched(states, steps, i, p.key, e, OutcomeOf(p), p.readAt)
  }

  ghost predicate ReaderSourced(states: seq<State>, steps: seq<Step>, i: nat, reader: Reader) {
    match reader
    case Fetched(key, e, out, at) => WasFetched(states, steps, i, key, e, out, at)
    case Publishing(key, e, out, at, _) => WasFetched(states, steps, i, key, e, out, at)
    case _ => true
  }

  ghost predicate EntriesSourced(states: seq<State>, steps: seq<Step>, i: nat, s: State) {
    forall e :: 0 <= e < |s.entries| ==> EntrySourced(states, steps, i, e, s.entries[e])
  }

  ghost predicate ReadersSourced(states: seq<State>, steps: seq<Step>, i: nat, s: State) {
    forall r :: r in s.readers ==> ReaderSourced(states, steps, i, s.readers[r])
  }

  ghost predicate Sourced(states: seq<State>, steps: seq<Step>, i: nat)
    requires i < |states|
  {
    EntriesSourced(states, steps, i, states[i]) && ReadersSourced(states, steps, i, states[i])
  }

  lemma FetchedEarlier(states: seq<State>, steps: seq<Step>, i: nat, key: string, e: nat, out: Outcome, at: int)
    requires WasFetched(states, steps, i, key, e, out, at)
    ensures WasFetched(states, steps, i + 1, key, e, out, at)
  {
  }

  lemma ReaderStaysSourced(states: seq<State>, steps: seq<Step>, i: nat, reader: Reader)
    requires ReaderSourced(states, steps, i, reader)
    ensures ReaderSourced(states, steps, i + 1, reader)
  {
    hide WasFetched;
    match reader
    case Fetched(key, e, out, at) => FetchedEarlier(states, steps, i, key, e, out, at);
    case Publishing(key, e, out, at, _) => FetchedEarlier(states, steps, i, key, e, out, at);
    case _ =>
  }

  /** Counting readers in and out does not touch an entry's outcome. */
  lemma EntryStaysSourced(states: seq<State>, steps: seq<Step>, i: nat, e: nat, p: Entry, p': Entry)
    requires EntrySourced(states, steps, i, e, p)
    requires p' == p.(waiters := p'.waiters) || p'.closes == 0
    ensures EntrySourced(states, steps, i + 1, e, p')
  {
    hide WasFetched;
    if p'.closes == 1 { FetchedEarlier(states, steps, i, p.key, e, OutcomeOf(p), p.readAt); }
  }

  /** A step changes the acting reader only. */
  lemma OtherReadersSourced(states: seq<State>, steps: seq<Step>, i: nat, s': State, r: nat)
    requires i < |states| && Sourced(states, steps, i) && r in s'.readers
    requires s'.readers == states[i].readers[r := s'.readers[r]] && ReaderSourced(states, steps, i + 1, s'.readers[r])
    ensures ReadersSourced(states, steps, i + 1, s')
  {
    hide ReaderSourced, EntrySourced;
    forall q | q in s'.readers ensures ReaderSourced(states, steps, i + 1, s'.readers[q]) {
      if q != r { ReaderStaysSourced(states, steps, i, states[i].readers[q]); }
    }
  }

  lemma PublishSourced(states: seq<State>, steps: seq<Step>, i: nat, r: nat)
    requires i < |steps| && |states| == |steps| + 1 && Inv(states[i]) && Sourced(states, steps, i)
    requires steps[i] == Publish(r) && Next(states[i], states[i+1], steps[i])
    ensures EntriesSourced(states, steps, i + 1, states[i+1])
  {
    hide WasFetched, CountsOk, Attended;
    var s, s' := states[i], states[i+1];
    var l := s.readers[r];
    assert ReaderOk(s, l) && EntryOk(s.entries[l.e], s.now);
    assert ReaderSourced(states, steps, i, l);
    FetchedEarlier(states, steps, i, l.key, l.e, l.out, l.at);
    forall e | 0 <= e < |s'.entries| ensures EntrySourced(states, steps, i + 1, e, s'.entries[e]) {
      if e != l.e || s'.entries[e] == s.entries[e] {
        EntryStaysSourced(states, steps, i, e, s.entries[e], s'.entries[e]);
      }
    }
  }

  lemma EntriesStaySourced(states: seq<State>, steps: seq<Step>, i: nat)
    requires i < |steps| && |states| == |steps| + 1 && Inv(states[i]) && Sourced(states, steps, i)
    requires Next(states[i], states[i+1], steps[i])
    ensures EntriesSourced(states, steps, i + 1, states[i+1])
  {
    hide EntrySourced, ReaderSourced, CountsOk, ReadersOk, EntriesOk, Attended, Write;
    if steps[i].Publish? {
      PublishSourced(states, steps, i, steps[i].r);
    } else {
      var s, s' := states[i], states[i+1];
      forall e | 0 <= e < |s'.entries| ensures EntrySourced(states, steps, i + 1, e, s'.entries[e]) {
        if e < |s.entries| {
          EntryStaysSourced(states, steps, i, e, s.entries[e], s'.entries[e]);
        } else {
          OpenSourced(states, steps, i + 1, e, s'.entries[e]);
        }
      }
    }
  }

  lemma OpenSourced(states: seq<State>, steps: seq<Step>, i: nat, e: nat, p: Entry)
    requires p.closes == 0
    ensures EntrySourced(states, steps, i, e, p)
  {
  }

  lemma FetchSourced(states: seq<State>, steps: seq<Step>, i: nat, q: nat, out: Outcome)
    requires i < |steps| && |states| == |steps| + 1 && steps[i] == Fetch(q, out)
    requires Next(states[i], states[i+1], steps[i])
    ensures ReaderSourced(states, steps, i + 1, states[i+1].readers[q])
  {
    var m := states[i].readers[q];
    assert FetchedAt(states, steps, i, q, m.key, m.e, out, states[i].now);
  }

  lemma ReadersStaySourced(states: seq<State>, steps: seq<Step>, i: nat)
    requires i < |steps| && |states| == |steps| + 1 && Sourced(states, steps, i)
    requires Next(states[i], states[i+1], steps[i])
    ensures ReadersSourced(states, steps, i + 1, states[i+1])
  {
    hide EntriesSourced, ReaderSourced, ReadersSourced, OutcomeOf, Write;
    var s, s' := states[i], states[i+1];
    match steps[i]
    case Tick(_) => SameReadersSourced(states, steps, i, s');
    case Fire(_) => SameReadersSourced(states, steps, i, s');
    case Fetch(q, out) =>
      FetchSourced(states, steps, i, q, out);
      OtherReadersSourced(states, steps, i, s', q);
    case Find(q) =>
      FindSourced(states, steps, i, q);
      OtherReadersSourced(states, steps, i, s', q);
    case Arrive(q, _) => PlainReaderSourced(states, steps, i, s', q);
    case Check(q) => PlainReaderSourced(states, steps, i, s', q);
    case Mark(q) => PlainReaderSourced(states, steps, i, s', q);
    case Publish(q) => PlainReaderSourced(states, steps, i, s', q);
    case Complete(q) => PlainReaderSourced(states, steps, i, s', q);
    case Capture(q) => PlainReaderSourced(states, steps, i, s', q);
    case Receive(q) => PlainReaderSourced(states, steps, i, s', q);
    case Cancel(q) => PlainReaderSourced(states, steps, i, s', q);
  }

  lemma FindSourced(states: seq<State>, steps: seq<Step>, i: nat, q: nat)
    requires i < |steps| && |states| == |steps| + 1 && Sourced(states, steps, i)
    requires steps[i] == Find(q) && Next(states[i], states[i+1], steps[i])
    ensures ReaderSourced(states, steps, i + 1, states[i+1].readers[q])
  {
    hide WasFetched, EntriesSourced;
    ReaderStaysSourced(states, steps, i, states[i].readers[q]);
  }

  lemma PlainReaderSourced(states: seq<State>, steps: seq<Step>, i: nat, s': State, r: nat)
    requires i < |states| && Sourced(states, steps, i) && r in s'.readers
    requires s'.readers == states[i].readers[r := s'.readers[r]]
    requires !s'.readers[r].Fetched? && !s'.readers[r].Publishing?
    ensures ReadersSourced(states, steps, i + 1, s')
  {
    OtherReadersSourced(states, steps, i, s', r);
  }

  lemma SameReadersSourced(states: seq<State>, steps: seq<Step>, i: nat, s': State)
    requires i < |states| && Sourced(states, steps, i) && s'.readers == states[i].readers
    ensures ReadersSourced(states, steps, i + 1, s')
  {
    hide ReaderSourced, EntrySourced;
    forall q | q in s'.readers ensures ReaderSourced(states, steps, i + 1, s'.readers[q]) {
      ReaderStaysSourced(states, steps, i, states[i].readers[q]);
    }
  }

  lemma {:induction false} RunSourced(states: seq<State>, steps: seq<Step>, i: nat)
    requires Run(states, steps) && i < |states|
    ensures Sourced(states, steps, i)
  {
    hide Inv, Next, EntrySourced, ReaderSourced;
    if i > 0 {
      RunSourced(states, steps, i - 1);
      InvariantHolds(states, steps, i - 1);
      assert Next(states[i-1], states[i-1+1], steps[i-1]);
      EntriesStaySourced(states, steps, i - 1);
      ReadersStaySourced(states, steps, i - 1);
    }
  }

  /** What a follower returns is what a leader of the entry it holds fetched from the store,
      earlier in the run and at the entry's read time. */
  lemma FollowersGetTheFetch(states: seq<State>, steps: seq<Step>, i: nat, r: nat)
    requires Run(states, steps) && i < |states| && r in states[i].readers && states[i].readers[r].Followed?
    ensures var f := states[i].readers[r];
      f.e < |states[i].entries| && WasFetched(states, steps, i, f.key, f.e, f.out, states[i].entries[f.e].readAt)
  {
    hide Run, WasFetched, Next, CountsOk, EntriesOk, Attended, OutcomeOf;
    InvariantHolds(states, steps, i);
    RunSourced(states, steps, i);
    var s, f := states[i], states[i].readers[r];
    assert ReaderOk(s, f);
    assert EntrySourced(states, steps, i, f.e, s.entries[f.e]);
  }

  /* ---------- nothing leaks ---------- */

  /** A timer that will clean the key up within the delay. */
  ghost predicate Due(s: State, key: string) {
    exists t :: t in s.timers && t.key == key && t.due <= s.now + CLEANUP_DELAY
  }

  /** Every entry that nobody leads has one. */
  ghost predicate Tended(s: State) {
    forall k :: k in s.pending && s.pending[k] < |s.entries| && s.entries[s.pending[k]].waiters <= 0 ==> Due(s, k)
  }

  lemma StillDue(s: State, s': State, key: string)
    requires Due(s, key) && s.now <= s'.now
    requires forall t :: t in s.timers && t.key == key ==> t in s'.timers
    ensures Due(s', key)
  {
    var t :| t in s.timers && t.key == key && t.due <= s.now + CLEANUP_DELAY;
    assert t in s'.timers;
  }

  lemma StepTended(s: State, s': State, step: Step)
    requires Inv(s) && Tended(s) && Next(s, s', step)
    ensures Tended(s')
  {
    hide CountsOk, ReadersOk, EntriesOk, Attended, Due, OutcomeOf;
    forall k | k in s'.pending && s'.pending[k] < |s'.entries| && s'.entries[s'.pending[k]].waiters <= 0
      ensures Due(s', k)
    {
      if step.Complete? && s.readers[step.r].key == k {
        CompleteDue(s, s', step.r);
      } else {
        StillDue(s, s', k);
      }
    }
  }

  lemma CompleteDue(s: State, s': State, r: nat)
    requires CompleteStep(s, s', r)
    requires var k := s.readers[r].key;
      k in s'.pending && s'.pending[k] < |s'.entries| && s'.entries[s'.pending[k]].waiters <= 0
    ensures Due(s', s.readers[r].key)
  {
    var t := Timer(s.readers[r].key, s.now + CLEANUP_DELAY);
    assert t in s'.timers;
  }

  /** No entry leaks: at every point of every run, a key that nobody leads has a cleanup timer
      due within the delay, or no entry. */
  lemma {:induction false} EntriesAreCleanedUp(states: seq<State>, steps: seq<Step>, i: nat)
    requires Run(states, steps) && i < |states|
    ensures Tended(states[i])
  {
    hide Inv, Next, Tended;
    if i > 0 {
      EntriesAreCleanedUp(states, steps, i - 1);
      InvariantHolds(states, steps, i - 1);
      assert Next(states[i-1], states[i-1+1], steps[i-1]);
      StepTended(states[i-1], states[i], steps[i-1]);
    } else {
      NothingPending(states[0]);
    }
  }

  lemma NothingPending(s: State)
    requires Init(s)
    ensures Tended(s)
  {
  }
}
