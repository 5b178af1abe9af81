/** The client's calls as programs over the drainer set. Every way they can go, with the
    workers moving in between, is a run of the step system in `Lifecycle`; and `Stop` and
    `DisableKV` come back whenever the worker they wait for gets to run. */
module ClientWrapper {
  import opened GoText
  import opened Lifecycle

  /** How many moves a stopped worker is from its exit, at most. */
  function Rank(p: Phase): nat {
    match p
    case Spawned => 3
    case Busy => 2
    case AtSelect => 1
    case Exited => 0
  }

  class Wrapper {
    var core: Core
    var managed: map<string, nat>
    var started: bool
    ghost var call: Call
    ghost var run: seq<Client>
    ghost var steps: seq<Step>

    ghost function Abs(): Client
      reads this
    {
      Client(core, managed, started, call)
    }

    ghost predicate Valid()
      reads this
    {
      Run(run, steps) && run[|run|-1] == Abs() && Inv(Abs())
    }

    constructor ()
      ensures Valid() && call.NoCall? && !started && managed == map[]
    {
      core, managed, started, call := Core([], [], [], None), map[], false, NoCall;
      run, steps := [Client(Core([], [], [], None), map[], false, NoCall)], [];
      new;
      InitOk(Abs());
    }

    /** Record a step the fields have just taken. */
    ghost method Note(step: Step)
      requires Run(run, steps) && Inv(run[|run|-1]) && Enabled(run[|run|-1], step)
      requires Lifecycle.After(run[|run|-1], step) == Abs()
      modifies this`run, this`steps
      ensures Valid() && run == old(run) + [Abs()] && steps == old(steps) + [step]
    {
      hide Inv, Enabled, Lifecycle.After, Init;
      StepInv(run[|run|-1], step);
      run, steps := run + [Abs()], steps + [step];
    }

    /** Any number of worker moves. */
    method WorkersMove()
      requires Valid()
      modifies this`core, this`run, this`steps
      ensures Valid() && old(run) <= run
      ensures core.drainers == old(core.drainers) && core.waiting == old(core.waiting)
      ensures Calmer(old(core), core)
    {
      hide Inv, Run, Enabled;
      var moves: nat :| moves >= 0;
      for i := 0 to moves
        invariant Valid() && old(run) <= run
        invariant core.drainers == old(core.drainers) && core.waiting == old(core.waiting)
        invariant Calmer(old(core), core)
      {
        var w: nat :| w >= 0;
        var m: Move := *;
        if CanMove(core, w, m) {
          Moves(Abs(), w, m);
          MoveCalmer(old(core), core, w, m);
          core := AfterMove(core, w, m);
          Note(WorkerMoves(w, m));
        }
      }
    }

    predicate AwaitedBy(w: nat)
      reads this
    {
      core.waiting.Some? && w < |core.workers| && core.workers[w].drainer == core.waiting.value
    }

    /** One move of the worker that is waited for; it gets closer to its exit. */
    method AwaitedMoves(w: nat)
      requires Valid() && AwaitedBy(w) && Live(core.workers[w])
      modifies this`core, this`run, this`steps
      ensures Valid() && old(run) <= run && AwaitedBy(w)
      ensures core.drainers == old(core.drainers) && core.waiting == old(core.waiting)
      ensures Rank(core.workers[w].phase) < Rank(old(core.workers[w].phase))
      ensures Live(core.workers[w]) || CanEndStop(core)
    {
      hide Inv, Run, Enabled, CanMove, AfterMove, Lifecycle.After;
      var m := if core.workers[w].phase.Spawned? then Begin else if core.workers[w].phase.Busy? then Finish else Quit;
      StoppedMoves(Abs(), w, m);
      Moves(Abs(), w, m);
      core := AfterMove(core, w, m);
      Note(WorkerMoves(w, m));
    }

    /** The receive from the done channel. The worker waited for exits within three moves of
        its own. */
    method Await()
      requires Valid() && core.waiting.Some?
      modifies this`core, this`run, this`steps
      ensures Valid() && old(run) <= run && CanEndStop(core)
      ensures core.drainers == old(core.drainers) && core.waiting == old(core.waiting)
    {
      hide Inv, Run, CanEndStop, Calmer, Rank;
      if CanEndStop(core) { return; }
      WaitedFor(Abs());
      var w: nat :| w < |core.workers| && core.workers[w].drainer == core.waiting.value && Live(core.workers[w]);
      while !CanEndStop(core)
        invariant Valid() && old(run) <= run && AwaitedBy(w)
        invariant core.drainers == old(core.drainers) && core.waiting == old(core.waiting)
        invariant Live(core.workers[w]) || CanEndStop(core)
        decreases !CanEndStop(core), Rank(core.workers[w].phase)
      {
        ghost var before := Abs();
        WorkersMove();
        SameWorkerLives(before, Abs(), w);
        if !CanEndStop(core) { AwaitedMoves(w); }
      }
    }

    method EnableKV(table: string)
      requires Valid() && call.NoCall?
      modifies this
      ensures Valid() && call.NoCall? && started == old(started) && old(run) <= run
      ensures managed.Keys == old(managed.Keys) + {table}
      ensures forall t :: t in old(managed) && t != table ==> managed[t] == old(managed[t])
      ensures forall t :: t in managed ==> (Running(Abs(), t) <==> started)
    {
      hide Run, CoreInv, StartDrainer, NewDrainer;
      var d := |core.drainers|;
      core := Lifecycle.NewDrainer(core, table);
      managed := managed[table := d];
      if started { core := StartDrainer(core, d); }
      Note(Step.EnableKV(table));
    }

    method DisableKV(table: string)
      requires Valid() && call.NoCall?
      modifies this
      ensures Valid() && call.NoCall? && started == old(started) && old(run) <= run
      ensures managed == old(managed) - {table}
    {
      hide Run, CoreInv, BeginStop;
      if table !in managed {
        Note(Step.DisableKV(table));
        return;
      }
      if !IsRunning(core, managed[table]) {
        managed := managed - {table};
        Note(Step.DisableKV(table));
        return;
      }
      core := BeginStop(core, managed[table]);
      call := Disabling(table);
      Note(Step.DisableKV(table));
      Await();
      core := EndStop(core);
      managed, call := managed - {table}, NoCall;
      Note(DisableReturns);
    }

    /** `Drainer.Start` on a table's drainer. */
    method StartOne(t: string)
      requires Valid() && call.Starting? && t in call.todo
      modifies this`core, this`call, this`run, this`steps
      ensures Valid() && old(run) <= run && call == Starting(old(call.todo) - {t})
    {
      hide Run, CoreInv, StartDrainer;
      core := StartDrainer(core, managed[t]);
      call := Starting(call.todo - {t});
      Note(Step.StartOne(t));
    }

    /** `Drainer.Stop` on a table's drainer. */
    method StopOne(t: string)
      requires Valid() && call.Stopping? && t in call.todo && core.waiting.None?
      modifies this`core, this`call, this`run, this`steps
      ensures Valid() && old(run) <= run && call == Stopping(old(call.todo) - {t}) && core.waiting.None?
    {
      hide Run, CoreInv, BeginStop;
      core := BeginStop(core, managed[t]);
      call := Stopping(call.todo - {t});
      Note(Step.StopOne(t));
      if core.waiting.Some? {
        Await();
        core := EndStop(core);
        Note(StopWaited);
      }
    }

    /** `StartAll`, in any order. */
    method StartAll()
      requires Valid() && call == Starting(managed.Keys)
      modifies this`core, this`call, this`run, this`steps
      ensures Valid() && old(run) <= run && call == Starting({})
    {
      hide Run, Inv, Calmer;
      var todo := managed.Keys;
      while todo != {}
        invariant Valid() && call == Starting(todo) && old(run) <= run
        decreases todo
      {
        var t :| t in todo;
        StartOne(t);
        todo := todo - {t};
        WorkersMove();
      }
    }

    method Start()
      requires Valid() && call.NoCall?
      modifies this
      ensures Valid() && call.NoCall? && started && managed == old(managed) && old(run) <= run
      ensures forall t :: t in managed ==> Running(Abs(), t)
    {
      hide Run, CoreInv;
      if started {
        Note(Step.Start);
        return;
      }
      call := Starting(managed.Keys);
      Note(Step.Start);
      StartAll();
      started, call := true, NoCall;
      Note(StartReturns);
    }

    /** `StopAll`, in any order, each drainer after its worker has exited. */
    method StopAll()
      requires Valid() && call == Stopping(managed.Keys) && core.waiting.None?
      modifies this`core, this`call, this`run, this`steps
      ensures Valid() && old(run) <= run && call == Stopping({}) && core.waiting.None?
    {
      hide Run, Inv, Calmer;
      var todo := managed.Keys;
      while todo != {}
        invariant Valid() && call == Stopping(todo) && core.waiting.None? && old(run) <= run
        decreases todo
      {
        var t :| t in todo;
        StopOne(t);
        todo := todo - {t};
        WorkersMove();
      }
    }

    method Stop()
      requires Valid() && call.NoCall?
      modifies this
      ensures Valid() && call.NoCall? && !started && managed == old(managed) && old(run) <= run
      ensures forall t, w :: t in managed && 0 <= w < |core.workers| && core.workers[w].drainer == managed[t] ==>
        core.workers[w].phase.Exited? && core.workers[w].tail <= 1
    {
      hide Run, CoreInv;
      if started {
        call := Stopping(managed.Keys);
        Note(Step.Stop);
        StopAll();
        started, call := false, NoCall;
        Note(StopReturns);
      } else {
        Note(Step.Stop);
      }
      IdleMeansExited(Abs());
    }
  }

  /** Workers move towards their exit, at least those of stopped drainers, and never come back. */
  ghost predicate Calmer(k: Core, k': Core) {
    && |k'.workers| == |k.workers|
    && (forall w :: 0 <= w < |k.workers| ==>
          && k'.workers[w].drainer == k.workers[w].drainer
          && (Live(k'.workers[w]) ==> Live(k.workers[w]))
          && (k.workers[w].drainer < |k.drainers| && Stopped(k, w) ==>
                Rank(k'.workers[w].phase) <= Rank(k.workers[w].phase)))
    && |k.closes| <= |k'.closes| && forall ch :: 0 <= ch < |k.closes| ==> k.closes[ch] <= k'.closes[ch]
  }

  lemma MoveCalmer(k0: Core, k: Core, w: nat, m: Move)
    requires Calmer(k0, k) && CanMove(k, w, m) && k.drainers == k0.drainers
    ensures Calmer(k0, AfterMove(k, w, m))
  {
  }

  lemma Moves(s: Client, w: nat, m: Move)
    requires CanMove(s.core, w, m)
    ensures Enabled(s, WorkerMoves(w, m))
    ensures Lifecycle.After(s, WorkerMoves(w, m)) == s.(core := AfterMove(s.core, w, m))
    ensures AfterMove(s.core, w, m).drainers == s.core.drainers && AfterMove(s.core, w, m).waiting == s.core.waiting
  {
  }

  lemma StepInv(s: Client, step: Step)
    requires Inv(s) && Enabled(s, step)
    ensures Inv(Lifecycle.After(s, step))
  {
    hide CoreInv, ManagedOk, CallOk, Lifecycle.After;
    StepCore(s, step);
    StepCall(s, step);
  }

  lemma WaitedFor(s: Client)
    requires Inv(s) && s.core.waiting.Some? && !CanEndStop(s.core)
    ensures exists w: nat ::
      w < |s.core.workers| && s.core.workers[w].drainer == s.core.waiting.value && Live(s.core.workers[w])
  {
    assert DrainerOk(s.core, s.core.waiting.value);
  }

  lemma SameWorkerLives(s: Client, s': Client, w: nat)
    requires Inv(s) && Inv(s') && Calmer(s.core, s'.core) && s'.core.waiting == s.core.waiting && s.core.waiting.Some?
    requires w < |s.core.workers| && s.core.workers[w].drainer == s.core.waiting.value && Live(s.core.workers[w])
    requires s'.core.drainers == s.core.drainers
    ensures w < |s'.core.workers| && s'.core.workers[w].drainer == s.core.workers[w].drainer
    ensures Live(s'.core.workers[w]) || CanEndStop(s'.core)
    ensures Rank(s'.core.workers[w].phase) <= Rank(s.core.workers[w].phase)
  {
    assert DrainerOk(s.core, s.core.waiting.value);
    if !CanEndStop(s'.core) {
      WaitedFor(s');
    }
  }

  lemma StoppedMoves(s: Client, w: nat, m: Move)
    requires Inv(s) && s.core.waiting.Some? && w < |s.core.workers| && s.core.workers[w].drainer == s.core.waiting.value
    requires Live(s.core.workers[w])
    requires var phase := s.core.workers[w].phase;
      m == if phase.Spawned? then Begin else if phase.Busy? then Finish else Quit
    ensures CanMove(s.core, w, m)
    ensures var x := AfterMove(s.core, w, m).workers;
      |x| == |s.core.workers| && x[w].drainer == s.core.workers[w].drainer
      && Rank(x[w].phase) < Rank(s.core.workers[w].phase) && (Live(x[w]) || m.Quit?)
    ensures m.Quit? ==> CanEndStop(AfterMove(s.core, w, m))
  {
    assert WorkerOk(s.core, s.core.workers[w]);
  }

  lemma IdleMeansExited(s: Client)
    requires Inv(s) && s.call.NoCall? && !s.started
    ensures forall t, w :: t in s.managed && 0 <= w < |s.core.workers| && s.core.workers[w].drainer == s.managed[t] ==>
      s.core.workers[w].phase.Exited? && s.core.workers[w].tail <= 1
  {
    hide ChannelsOk, DrainerOk, OneWorkerEach;
    forall t, w | t in s.managed && 0 <= w < |s.core.workers| && s.core.workers[w].drainer == s.managed[t]
      ensures s.core.workers[w].phase.Exited? && s.core.workers[w].tail <= 1
    {
      assert WorkerOk(s.core, s.core.workers[w]) && !Running(s, t);
    }
  }
}
