/** The stampede preventer's methods and `CacheHandler.Read` as programs. Each lock region is a
    method that takes one step of `Stampede`; between the regions of one reader, all other
    readers, timers and the clock move as they like. */
module StampedePreventer {
  import opened GoText
  import opened Stampede

  class Preventer {
    var now: int
    var pending: map<string, nat>
    var entries: seq<Entry>
    var timers: multiset<Timer>
    var readers: map<nat, Reader>
    ghost var states: seq<State>
    ghost var steps: seq<Step>

    ghost function Abs(): State
      reads this
    {
      State(now, pending, entries, readers, timers)
    }

    ghost predicate Valid()
      reads this
    {
      Run(states, steps) && states[|states|-1] == Abs() && Inv(Abs())
    }

    predicate At(r: nat, reader: Reader)
      reads this
    {
      r in readers && readers[r] == reader
    }

    constructor (now0: int)
      ensures Valid() && pending == map[] && readers == map[]
    {
      now, pending, entries, timers, readers := now0, map[], [], multiset{}, map[];
      states, steps := [State(now0, map[], [], map[], multiset{})], [];
      new;
      assert Init(Abs());
      InvariantHolds(states, steps, 0);
    }

    /** Record a step the fields have just taken. */
    ghost method Note(step: Step)
      requires Run(states, steps) && Inv(states[|states|-1]) && Next(states[|states|-1], Abs(), step)
      modifies this`states, this`steps
      ensures Valid() && states == old(states) + [Abs()] && steps == old(steps) + [step]
    {
      hide Inv, Next, Init;
      StepKeeps(states[|states|-1], Abs(), step);
      states, steps := states + [Abs()], steps + [step];
    }

    method Elapse(dt: nat)
      requires Valid()
      modifies this`now, this`states, this`steps
      ensures Valid() && now == old(now) + dt && old(states) <= states && old(steps) <= steps
    {
      hide Inv, Run;
      now := now + dt;
      Note(Tick(dt));
    }

    method Arrives(r: nat, key: string)
      requires Valid() && r !in readers
      modifies this`readers, this`states, this`steps
      ensures Valid() && readers == old(readers)[r := Asked(key)] && old(states) <= states && old(steps) <= steps
    {
      hide Inv, Run;
      readers := readers[r := Asked(key)];
      Note(Arrive(r, key));
    }

    method IsInFlight(r: nat, key: string) returns (inFlight: bool)
      requires Valid() && At(r, Asked(key))
      modifies this`readers, this`states, this`steps
      ensures Valid() && old(states) <= states && old(steps) <= steps
      ensures inFlight <==> key in pending && now <= entries[pending[key]].created + IN_FLIGHT_TIMEOUT
      ensures readers == old(readers)[r := if inFlight then Joining(key, now) else Leading(key)]
    {
      hide CountsOk, ReadersOk, EntriesOk, Attended, Run;
      inFlight := key in pending && now <= entries[pending[key]].created + IN_FLIGHT_TIMEOUT;
      readers := readers[r := if inFlight then Joining(key, now) else Leading(key)];
      Note(Check(r));
    }

    /** Reuses the key's entry, or makes one, and counts itself in. */
    method MarkInFlight(r: nat, key: string)
      requires Valid() && At(r, Leading(key))
      modifies this`pending, this`entries, this`readers, this`states, this`steps
      ensures Valid() && old(states) <= states && old(steps) <= steps
      ensures key in pending && readers == old(readers)[r := Marked(key, pending[key])]
      ensures old(key in pending) ==> pending == old(pending) && |entries| == |old(entries)|
    {
      hide CountsOk, ReadersOk, EntriesOk, Attended, Run;
      if key !in pending {
        entries, pending := entries + [NewEntry(key, now)], pending[key := |entries|];
      }
      var e := pending[key];
      entries := entries[e := entries[e].(waiters := entries[e].waiters + 1)];
      readers := readers[r := Marked(key, e)];
      Note(Mark(r));
    }

    /** The store answers. */
    method FetchFromStore(r: nat, key: string, e: nat, out: Outcome)
      requires Valid() && At(r, Marked(key, e))
      modifies this`readers, this`states, this`steps
      ensures Valid() && readers == old(readers)[r := Fetched(key, e, out, now)]
      ensures old(states) <= states && old(steps) <= steps
      ensures WasFetched(states, steps, |steps|, key, e, out, now)
    {
      hide Inv;
      readers := readers[r := Fetched(key, e, out, now)];
      Note(Fetch(r, out));
      assert FetchedAt(states, steps, |steps| - 1, r, key, e, out, now);
    }

    /** The first region of `SetResult` and `SetError`: it always finds the entry the leader
        marked. */
    method FindEntry(r: nat, key: string, e: nat, out: Outcome, at: int)
      requires Valid() && At(r, Fetched(key, e, out, at))
      modifies this`readers, this`states, this`steps
      ensures Valid() && readers == old(readers)[r := Publishing(key, e, out, at, e)]
      ensures old(states) <= states && old(steps) <= steps
    {
      hide CountsOk, EntriesOk, Attended, Run;
      assert ReaderOk(Abs(), readers[r]);
      readers := readers[r := Publishing(key, e, out, at, pending[key])];
      Note(Find(r));
    }

    /** The second region: write and close, unless somebody already has. */
    method PublishEntry(r: nat, key: string, e: nat, out: Outcome, at: int)
      requires Valid() && At(r, Publishing(key, e, out, at, e))
      modifies this`entries, this`readers, this`states, this`steps
      ensures Valid() && readers == old(readers)[r := Published(key, e)] && old(states) <= states && old(steps) <= steps
      ensures e < |entries| && |old(entries)| == |entries| && entries[e].closes == 1
      ensures old(entries)[e].closes == 0 ==> OutcomeOf(entries[e]) == out && entries[e].readAt == at
      ensures old(entries)[e].closes == 1 ==> entries[e] == old(entries)[e]
    {
      hide CountsOk, Attended, Run;
      assert ReaderOk(Abs(), readers[r]) && EntryOk(entries[e], now);
      if entries[e].result.None? && entries[e].err.None? {
        match out
        case Found(rec) =>
          entries := entries[e := entries[e].(result := Some(rec), closes := entries[e].closes + 1, readAt := at)];
        case Failed(error) =>
          entries := entries[e := entries[e].(err := Some(error), closes := entries[e].closes + 1, readAt := at)];
      }
      readers := readers[r := Published(key, e)];
      Note(Publish(r));
      assert ReaderOk(Abs(), readers[r]);
    }

    /** Counts itself out of the entry it marked; the last one starts a cleanup timer. */
    method MarkComplete(r: nat, key: string, e: nat)
      requires Valid() && At(r, Published(key, e))
      modifies this`entries, this`readers, this`timers, this`states, this`steps
      ensures Valid() && readers == old(readers)[r := Finished] && old(states) <= states && old(steps) <= steps
      ensures |entries| == |old(entries)| && e < |entries| && entries[e].waiters == old(entries)[e].waiters - 1
      ensures entries[e].key == key && entries[e].closes == 1
    {
      hide CountsOk, EntriesOk, Attended, Run;
      assert ReaderOk(Abs(), readers[r]);
      var p := pending[key];
      entries := entries[p := entries[p].(waiters := entries[p].waiters - 1)];
      readers := readers[r := Finished];
      if entries[p].waiters <= 0 {
        timers := timers + multiset{Timer(key, now + CLEANUP_DELAY)};
      }
      Note(Complete(r));
    }

    /** A cleanup timer goes off. */
    method Cleanup(t: Timer)
      requires Valid() && t in timers && t.due <= now
      modifies this`pending, this`timers, this`states, this`steps
      ensures Valid() && old(states) <= states && old(steps) <= steps
      ensures forall key :: key in old(pending) && key !in pending ==> key == t.key && Active(Abs(), key) == {}
    {
      hide CountsOk, ReadersOk, EntriesOk, Attended;
      timers := timers - multiset{t};
      if t.key in pending && entries[pending[t.key]].waiters <= 0 {
        pending := pending - {t.key};
      }
      Note(Fire(t));
      forall key | key in old(pending) && key !in pending ensures Active(Abs(), key) == {} {
        ReferenceCounting(states, steps, |states| - 1, key);
      }
    }

    /** The look-up of `WaitForResult`. */
    method CaptureEntry(r: nat, key: string, checked: int) returns (p: Option<nat>)
      requires Valid() && At(r, Joining(key, checked))
      modifies this`readers, this`states, this`steps
      ensures Valid() && old(states) <= states && old(steps) <= steps
      ensures p == if key in pending then Some(pending[key]) else None
      ensures readers == old(readers)[r := if p.Some? then Waiting(key, checked, p.value) else Finished]
    {
      hide CountsOk, ReadersOk, EntriesOk, Attended, Run;
      p := if key in pending then Some(pending[key]) else None;
      readers := readers[r := if p.Some? then Waiting(key, checked, p.value) else Finished];
      Note(Capture(r));
    }

    /** Its `select`: a closed channel, or a cancelled context. */
    method TryReceive(r: nat, key: string, checked: int, e: nat, cancelled: bool) returns (out: Option<Outcome>)
      requires Valid() && At(r, Waiting(key, checked, e))
      modifies this`readers, this`states, this`steps
      ensures Valid() && old(states) <= states && old(steps) <= steps
      ensures out.Some? ==> readers == old(readers)[r := Followed(key, checked, e, out.value)]
      ensures out.Some? ==> e < |entries| && entries[e].key == key && out.value == OutcomeOf(entries[e])
      ensures out.Some? ==> checked - IN_FLIGHT_TIMEOUT <= entries[e].readAt
      ensures out.Some? ==> WasFetched(states, steps, |steps|, key, e, out.value, entries[e].readAt)
      ensures out.None? ==> e < |entries| && entries[e].closes == 0
      ensures out.None? ==> readers == if cancelled then old(readers)[r := Finished] else old(readers)
    {
      hide CountsOk, EntriesOk, Attended;
      assert ReaderOk(Abs(), readers[r]);
      if entries[e].closes > 0 {
        out := Some(OutcomeOf(entries[e]));
        readers := readers[r := Followed(key, checked, e, out.value)];
        Note(Receive(r));
        BoundedStaleness(states, steps, |states| - 1, r);
        FollowersGetTheFetch(states, steps, |states| - 1, r);
      } else {
        out := None;
        if cancelled {
          readers := readers[r := Finished];
          Note(Cancel(r));
        }
      }
    }

    /** The next region of one reader, wherever it is. */
    method Advance(q: nat)
      requires Valid() && q in readers
      modifies this`pending, this`entries, this`readers, this`timers, this`states, this`steps
      ensures Valid() && old(states) <= states && old(steps) <= steps
      ensures q in readers && readers == old(readers)[q := readers[q]]
    {
      hide Inv, Run;
      match readers[q]
      case Asked(key) => var _ := IsInFlight(q, key);
      case Leading(key) => MarkInFlight(q, key);
      case Marked(key, e) =>
        var out: Outcome := *;
        FetchFromStore(q, key, e, out);
      case Fetched(key, e, out, at) => FindEntry(q, key, e, out, at);
      case Publishing(key, e, out, at, target) =>
        PublishingAtHome(Abs(), q);
        PublishEntry(q, key, e, out, at);
      case Published(key, e) => MarkComplete(q, key, e);
      case Joining(key, checked) => var _ := CaptureEntry(q, key, checked);
      case Waiting(key, checked, e) =>
        var cancelled: bool := *;
        var _ := TryReceive(q, key, checked, e, cancelled);
      case _ =>
    }

    /** One event that is not reader `r`'s. */
    method OtherMoves(r: nat)
      requires Valid() && r in readers
      modifies this
      ensures Valid() && old(states) <= states && old(steps) <= steps && now >= old(now)
      ensures r in readers && readers[r] == old(readers[r])
    {
      hide Inv, Run;
      var q: nat :| q >= 0;
      var key: string := *;
      if q in readers {
        if q != r { Advance(q); }
      } else if * {
        Arrives(q, key);
      } else if * {
        Elapse(q);
      } else if timers != multiset{} {
        var t :| t in timers;
        if t.due <= now { Cleanup(t); }
      }
    }

    method OthersMove(r: nat)
      requires Valid() && r in readers
      modifies this
      ensures Valid() && old(states) <= states && old(steps) <= steps && now >= old(now)
      ensures r in readers && readers[r] == old(readers[r])
    {
      hide Inv, Run;
      var moves: nat :| moves >= 0;
      for i := 0 to moves
        invariant Valid() && old(states) <= states && old(steps) <= steps && now >= old(now)
        invariant r in readers && readers[r] == old(readers[r])
      {
        OtherMoves(r);
      }
    }

    /** `WaitForResult`, its context being cancelled after some number of looks. It gives what a
        leader of the entry it found fetched; nothing only if there was no entry, or the
        context is cancelled while the entry is still open. */
    method WaitForResult(r: nat, key: string, checked: int, patience: nat)
      returns (result: Option<Outcome>, ghost held: Option<nat>, ghost readAt: int)
      requires Valid() && At(r, Joining(key, checked))
      modifies this
      ensures Valid() && old(states) <= states && old(steps) <= steps
      ensures held == if key in old(pending) then Some(old(pending)[key]) else None
      ensures held.None? ==> result.None?
      ensures held.Some? && result.None? ==> held.value < |entries| && entries[held.value].closes == 0
      ensures result.Some? ==> checked - IN_FLIGHT_TIMEOUT <= readAt
      ensures result.Some? ==> held.Some? && WasFetched(states, steps, |steps|, key, held.value, result.value, readAt)
    {
      hide Inv, Run, WasFetched;
      readAt := 0;
      var p := CaptureEntry(r, key, checked);
      held := p;
      if p.None? { return None, held, readAt; }
      for i := 0 to patience
        invariant Valid() && old(states) <= states && old(steps) <= steps && At(r, Waiting(key, checked, p.value))
      {
        OthersMove(r);
        result := TryReceive(r, key, checked, p.value, false);
        if result.Some? {
          readAt := entries[p.value].readAt;
          return;
        }
      }
      result := TryReceive(r, key, checked, p.value, true);
      if result.Some? { readAt := entries[p.value].readAt; }
    }

    /** A leader of some entry of the key fetched this outcome from the store at that time. */
    ghost predicate Came(key: string, out: Outcome, readAt: int)
      reads this
    {
      exists e: nat :: WasFetched(states, steps, |steps|, key, e, out, readAt)
    }

    /** Publishing what was fetched, and `MarkComplete`: the entry is closed and the reader
        done. */
    method Tell(r: nat, key: string, e: nat, out: Outcome, at: int)
      requires Valid() && At(r, Fetched(key, e, out, at))
      modifies this
      ensures Valid() && old(states) <= states && old(steps) <= steps && At(r, Finished)
      ensures e < |entries| && entries[e].key == key && entries[e].closes == 1
    {
      hide Inv, Run;
      OthersMove(r);
      FindEntry(r, key, e, out, at);
      OthersMove(r);
      PublishEntry(r, key, e, out, at);
      OthersMove(r);
      MarkComplete(r, key, e);
    }

    /** A leader reads the store, tells the followers of its entry and finishes. */
    method Lead(r: nat, key: string, out: Outcome) returns (e: nat, ghost readAt: int)
      requires Valid() && At(r, Leading(key))
      modifies this
      ensures Valid() && old(states) <= states && old(steps) <= steps && At(r, Finished) && readAt >= old(now)
      ensures e < |entries| && entries[e].key == key && entries[e].closes == 1
      ensures WasFetched(states, steps, |steps|, key, e, out, readAt)
    {
      hide Inv, Run, WasFetched;
      MarkInFlight(r, key);
      e := pending[key];
      OthersMove(r);
      FetchFromStore(r, key, e, out);
      readAt := now;
      ghost var states0, steps0 := states, steps;
      Tell(r, key, e, out, now);
      StillFetched(states0, steps0, states, steps, key, e, out, readAt);
    }

    /** `CacheHandler.Read`, with `out` what the store would answer a leader. A reader that found
        no read in flight leads and returns what it fetched; any other returns what a leader
        of the key fetched, or nothing. Nothing returned is older than 30 seconds. */
    method Read(r: nat, key: string, out: Outcome, patience: nat)
      returns (result: Option<Outcome>, ghost led: bool, ghost readAt: int)
      requires Valid() && r !in readers
      modifies this
      ensures Valid() && old(states) <= states && old(steps) <= steps
      ensures exists k :: |old(states)| <= k < |states| && Decided(states[k], r, key, led)
      ensures led ==> result == Some(out)
      ensures result.Some? ==> old(now) - IN_FLIGHT_TIMEOUT <= readAt && Came(key, result.value, readAt)
    {
      hide Inv, Run, WasFetched, Decided;
      var inFlight, checked := Decide(r, key);
      led := !inFlight;
      ghost var k := |states| - 1;
      OthersMove(r);
      if inFlight {
        ghost var held;
        result, held, readAt := WaitForResult(r, key, checked, patience);
      } else {
        var e;
        e, readAt := Lead(r, key, out);
        assert WasFetched(states, steps, |steps|, key, e, out, readAt);
        result := Some(out);
      }
      assert Decided(states[k], r, key, led);
    }

    /** A reader comes and checks. */
    method Decide(r: nat, key: string) returns (inFlight: bool, checked: int)
      requires Valid() && r !in readers
      modifies this
      ensures Valid() && old(states) <= states && old(steps) <= steps && |old(states)| < |states|
      ensures Decided(states[|states|-1], r, key, !inFlight)
      ensures At(r, if inFlight then Joining(key, checked) else Leading(key)) && checked >= old(now) && now == checked
    {
      hide Inv, Run;
      Arrives(r, key);
      OthersMove(r);
      inFlight := IsInFlight(r, key);
      checked := now;
    }
  }

  /** In this state the reader has just decided to lead, or to follow. */
  ghost predicate Decided(s: State, r: nat, key: string, led: bool) {
    r in s.readers && s.readers[r] == if led then Leading(key) else Joining(key, s.now)
  }

  lemma StillFetched(states: seq<State>, steps: seq<Step>, states': seq<State>, steps': seq<Step>,
                     key: string, e: nat, out: Outcome, at: int)
    requires WasFetched(states, steps, |steps|, key, e, out, at) && states <= states' && steps <= steps'
    ensures WasFetched(states', steps', |steps'|, key, e, out, at)
  {
    var j: nat, q: nat :| j < |steps| && FetchedAt(states, steps, j, q, key, e, out, at);
    assert FetchedAt(states', steps', j, q, key, e, out, at);
  }

  lemma PublishingAtHome(s: State, q: nat)
    requires Inv(s) && q in s.readers && s.readers[q].Publishing?
    ensures s.readers[q].target == s.readers[q].e
  {
    assert ReaderOk(s, s.readers[q]);
  }
}
