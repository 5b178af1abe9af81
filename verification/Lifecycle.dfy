/** Starting and stopping drainers: the client's drainer set, the stop and done channels and
    the worker goroutines, interleaved step by step. Client calls are serialised by the
    client's mutex; workers move at any time. */
module Lifecycle {
  import opened GoText

  /* ---------- drainers, channels and workers ---------- */

  /** A `Drainer` object; channels are numbered as they are made. */
  datatype Drainer = Drainer(table: string, running: bool, stopCh: nat, doneCh: nat)

  /** Spawned but not scheduled yet, at the loop's `select`, in an iteration past it, gone. */
  datatype Phase = Spawned | AtSelect | Busy | Exited

  /** `done` is the channel the deferred close captured; `tail` counts the batches the worker
      finished after its stop channel was closed. */
  datatype Worker = Worker(drainer: nat, phase: Phase, done: nat, tail: nat)

  /** `closes[ch]` counts how often channel `ch` was closed; a second close would panic.
      `waiting` is the drainer whose `Stop` waits for its done channel. */
  datatype Core = Core(drainers: seq<Drainer>, workers: seq<Worker>, closes: seq<nat>, waiting: Option<nat>)

  function Closes(k: Core, ch: nat): nat { if ch < |k.closes| then k.closes[ch] else 0 }

  function Close(closes: seq<nat>, ch: nat): seq<nat> {
    if ch < |closes| then closes[ch := closes[ch] + 1] else closes
  }

  predicate IsRunning(k: Core, d: nat) { d < |k.drainers| && k.drainers[d].running }

  function NewDrainer(k: Core, table: string): Core {
    k.(drainers := k.drainers + [Drainer(table, false, |k.closes|, |k.closes| + 1)], closes := k.closes + [0, 0])
  }

  /** `Drainer.Start`: new channels and a worker, unless it is running. */
  function StartDrainer(k: Core, d: nat): Core {
    if d >= |k.drainers| || k.drainers[d].running then k else
    k.(drainers := k.drainers[d := Drainer(k.drainers[d].table, true, |k.closes|, |k.closes| + 1)],
       workers := k.workers + [Worker(d, Spawned, 0, 0)],
       closes := k.closes + [0, 0])
  }

  /** The first half of `Drainer.Stop`, up to the wait. */
  function BeginStop(k: Core, d: nat): Core {
    if !IsRunning(k, d) then k else
    k.(drainers := k.drainers[d := k.drainers[d].(running := false)],
       closes := Close(k.closes, k.drainers[d].stopCh),
       waiting := Some(d))
  }

  function EndStop(k: Core): Core { k.(waiting := None) }

  predicate CanEndStop(k: Core) {
    k.waiting.Some? && k.waiting.value < |k.drainers| && Closes(k, k.drainers[k.waiting.value].doneCh) > 0
  }

  /** What a worker may do next. Its context may be cancelled at any point. */
  datatype Move = Begin | Proceed | Finish | Quit

  predicate Stopped(k: Core, w: nat)
    requires w < |k.workers| && k.workers[w].drainer < |k.drainers|
  {
    Closes(k, k.drainers[k.workers[w].drainer].stopCh) > 0
  }

  predicate CanMove(k: Core, w: nat, m: Move) {
    && w < |k.workers| && k.workers[w].drainer < |k.drainers|
    && match m
       case Begin => k.workers[w].phase.Spawned?
       case Proceed => k.workers[w].phase.AtSelect? && !Stopped(k, w)
       case Finish => k.workers[w].phase.Busy?
       case Quit => k.workers[w].phase.AtSelect? || k.workers[w].phase.Busy?
  }

  function AfterMove(k: Core, w: nat, m: Move): Core
    requires CanMove(k, w, m)
  {
    var x := k.workers[w];
    match m
    case Begin => k.(workers := k.workers[w := x.(phase := AtSelect, done := k.drainers[x.drainer].doneCh)])
    case Proceed => k.(workers := k.workers[w := x.(phase := Busy)])
    case Finish =>
      k.(workers := k.workers[w := x.(phase := AtSelect, tail := if Stopped(k, w) then x.tail + 1 else x.tail)])
    case Quit => k.(workers := k.workers[w := x.(phase := Exited)], closes := Close(k.closes, x.done))
  }

  /* ---------- the core invariant ---------- */

  predicate Live(x: Worker) { !x.phase.Exited? }

  /** No channel is closed twice, and no two drainers share one. */
  ghost predicate ChannelsOk(k: Core) {
    && (forall ch :: 0 <= ch < |k.closes| ==> k.closes[ch] <= 1)
    && (forall d :: 0 <= d < |k.drainers| ==>
          k.drainers[d].stopCh < |k.closes| && k.drainers[d].doneCh < |k.closes|
          && k.drainers[d].stopCh != k.drainers[d].doneCh)
    && forall d, e :: 0 <= d < |k.drainers| && 0 <= e < |k.drainers| && d != e ==>
         Disjoint(k.drainers[d], k.drainers[e])
  }

  predicate Disjoint(a: Drainer, b: Drainer) {
    a.stopCh != b.stopCh && a.stopCh != b.doneCh && a.doneCh != b.stopCh && a.doneCh != b.doneCh
  }

  predicate Engaged(k: Core, d: nat) {
    d < |k.drainers| && (k.drainers[d].running || k.waiting == Some(d))
  }

  ghost predicate Manned(k: Core, d: nat) {
    exists w :: 0 <= w < |k.workers| && k.workers[w].drainer == d && Live(k.workers[w])
  }

  /** A running drainer has not been told to stop; one being waited for has; and each has a
      worker that will close its done channel, or had one that did. */
  ghost predicate DrainerOk(k: Core, d: nat)
    requires d < |k.drainers|
  {
    && (k.drainers[d].running ==> Closes(k, k.drainers[d].stopCh) == 0 && k.waiting != Some(d))
    && (k.waiting == Some(d) ==> Closes(k, k.drainers[d].stopCh) > 0)
    && (Engaged(k, d) ==> Closes(k, k.drainers[d].doneCh) > 0 || Manned(k, d))
  }

  predicate WorkerOk(k: Core, x: Worker) {
    && x.drainer < |k.drainers| && x.tail <= 1
    && (Live(x) ==>
          && Engaged(k, x.drainer)
          && Closes(k, k.drainers[x.drainer].doneCh) == 0
          && (!x.phase.Spawned? ==> x.done == k.drainers[x.drainer].doneCh)
          && (x.phase.Busy? || Closes(k, k.drainers[x.drainer].stopCh) == 0 ==> x.tail == 0))
  }

  ghost predicate OneWorkerEach(k: Core) {
    forall v, w :: 0 <= v < w < |k.workers| && Live(k.workers[v]) && Live(k.workers[w]) ==>
      k.workers[v].drainer != k.workers[w].drainer
  }

  ghost predicate CoreInv(k: Core) {
    && ChannelsOk(k) && OneWorkerEach(k)
    && (k.waiting.Some? ==> k.waiting.value < |k.drainers|)
    && (forall d :: 0 <= d < |k.drainers| ==> DrainerOk(k, d))
    && (forall w :: 0 <= w < |k.workers| ==> WorkerOk(k, k.workers[w]))
  }

  lemma NewDrainerOk(k: Core, table: string)
    requires CoreInv(k)
    ensures CoreInv(NewDrainer(k, table))
  {
    var k' := NewDrainer(k, table);
    forall d | 0 <= d < |k'.drainers| ensures DrainerOk(k', d) {
      if d < |k.drainers| { assert DrainerOk(k, d); StillManned(k, k', d); }
    }
    assert forall w :: 0 <= w < |k.workers| ==> WorkerOk(k, k.workers[w]);
  }

  lemma StillManned(k: Core, k': Core, d: nat)
    requires |k.workers| <= |k'.workers|
    requires forall w :: 0 <= w < |k.workers| && k.workers[w].drainer == d && Live(k.workers[w]) ==>
      k'.workers[w].drainer == d && Live(k'.workers[w])
    ensures Manned(k, d) ==> Manned(k', d)
  {
  }

  lemma StartDrainerOk(k: Core, d: nat)
    requires CoreInv(k) && d < |k.drainers| && k.waiting != Some(d)
    ensures CoreInv(StartDrainer(k, d))
  {
    var k' := StartDrainer(k, d);
    if !k.drainers[d].running {
      forall e | 0 <= e < |k'.drainers| ensures DrainerOk(k', e) {
        assert DrainerOk(k, e);
        StillManned(k, k', e);
        assert k'.workers[|k.workers|].drainer == d;
      }
      forall w | 0 <= w < |k'.workers| ensures WorkerOk(k', k'.workers[w]) {
        if w < |k.workers| { assert WorkerOk(k, k.workers[w]); }
      }
    }
  }

  lemma BeginStopOk(k: Core, d: nat)
    requires CoreInv(k) && d < |k.drainers| && k.waiting.None?
    ensures CoreInv(BeginStop(k, d))
  {
    var k' := BeginStop(k, d);
    assert DrainerOk(k, d);
    forall e | 0 <= e < |k'.drainers| ensures DrainerOk(k', e) {
      assert DrainerOk(k, e);
      StillManned(k, k', e);
    }
    forall w | 0 <= w < |k'.workers| ensures WorkerOk(k', k'.workers[w]) {
      assert WorkerOk(k, k.workers[w]);
    }
  }

  /** When a wait ends, the worker is gone and finished at most one batch after the stop. */
  lemma EndStopOk(k: Core)
    requires CoreInv(k) && CanEndStop(k)
    ensures CoreInv(EndStop(k))
    ensures forall w :: 0 <= w < |k.workers| && k.workers[w].drainer == k.waiting.value ==>
      k.workers[w].phase.Exited? && k.workers[w].tail <= 1
  {
    var k' := EndStop(k);
    forall e | 0 <= e < |k'.drainers| ensures DrainerOk(k', e) {
      assert DrainerOk(k, e);
      StillManned(k, k', e);
    }
    forall w | 0 <= w < |k'.workers| ensures WorkerOk(k', k'.workers[w]) {
      assert WorkerOk(k, k.workers[w]);
    }
  }

  lemma QuitOk(k: Core, w: nat)
    requires CoreInv(k) && CanMove(k, w, Quit)
    ensures CoreInv(AfterMove(k, w, Quit))
  {
    var k' := AfterMove(k, w, Quit);
    assert WorkerOk(k, k.workers[w]);
    forall e | 0 <= e < |k'.drainers| ensures DrainerOk(k', e) {
      assert DrainerOk(k, e);
      if e != k.workers[w].drainer { StillManned(k, k', e); }
    }
    forall v | 0 <= v < |k'.workers| ensures WorkerOk(k', k'.workers[v]) {
      assert WorkerOk(k, k.workers[v]);
    }
  }

  lemma MoveOk(k: Core, w: nat, m: Move)
    requires CoreInv(k) && CanMove(k, w, m)
    ensures CoreInv(AfterMove(k, w, m))
  {
    if m.Quit? {
      QuitOk(k, w);
    } else {
      var k' := AfterMove(k, w, m);
      assert WorkerOk(k, k.workers[w]);
      forall e | 0 <= e < |k'.drainers| ensures DrainerOk(k', e) {
        assert DrainerOk(k, e);
        StillManned(k, k', e);
      }
      forall v | 0 <= v < |k'.workers| ensures WorkerOk(k', k'.workers[v]) {
        assert WorkerOk(k, k.workers[v]);
      }
    }
  }

  /* ---------- the client ---------- */

  /** Which client call holds the mutex, and how far it has got. */
  datatype Call = NoCall | Starting(todo: set<string>) | Stopping(todo: set<string>) | Disabling(table: string)

  /** `managed` is the drainer manager's map. */
  datatype Client = Client(core: Core, managed: map<string, nat>, started: bool, call: Call)

  datatype Step =
    | EnableKV(table: string)
    | DisableKV(table: string)
    | DisableReturns
    | Start
    | StartOne(table: string)
    | StartReturns
    | Stop
    | StopOne(table: string)
    | StopWaited
    | StopReturns
    | WorkerMoves(w: nat, m: Move)

  predicate Enabled(s: Client, step: Step) {
    match step
    case EnableKV(_) => s.call.NoCall?
    case DisableKV(_) => s.call.NoCall?
    case DisableReturns => s.call.Disabling? && CanEndStop(s.core)
    case Start => s.call.NoCall?
    case StartOne(t) => s.call.Starting? && t in s.call.todo
    case StartReturns => s.call == Starting({})
    case Stop => s.call.NoCall?
    case StopOne(t) => s.call.Stopping? && s.core.waiting.None? && t in s.call.todo
    case StopWaited => s.call.Stopping? && CanEndStop(s.core)
    case StopReturns => s.call == Stopping({}) && s.core.waiting.None?
    case WorkerMoves(w, m) => CanMove(s.core, w, m)
  }

  predicate ManagedOk(s: Client) {
    forall t :: t in s.managed ==> s.managed[t] < |s.core.drainers| && s.core.drainers[s.managed[t]].table == t
  }

  function After(s: Client, step: Step): Client
    requires Enabled(s, step)
  {
    match step
    case EnableKV(t) =>
      var d := |s.core.drainers|;
      var k := NewDrainer(s.core, t);
      s.(core := if s.started then StartDrainer(k, d) else k, managed := s.managed[t := d])
    case DisableKV(t) =>
      if t !in s.managed then s
      else if !IsRunning(s.core, s.managed[t]) then s.(managed := s.managed - {t})
      else s.(core := BeginStop(s.core, s.managed[t]), call := Disabling(t))
    case DisableReturns => s.(core := EndStop(s.core), managed := s.managed - {s.call.table}, call := NoCall)
    case Start => if s.started then s else s.(call := Starting(s.managed.Keys))
    case StartOne(t) =>
      s.(core := if t in s.managed then StartDrainer(s.core, s.managed[t]) else s.core,
         call := Starting(s.call.todo - {t}))
    case StartReturns => s.(started := true, call := NoCall)
    case Stop => if s.started then s.(call := Stopping(s.managed.Keys)) else s
    case StopOne(t) =>
      s.(core := if t in s.managed then BeginStop(s.core, s.managed[t]) else s.core,
         call := Stopping(s.call.todo - {t}))
    case StopWaited => s.(core := EndStop(s.core))
    case StopReturns => s.(started := false, call := NoCall)
    case WorkerMoves(w, m) => s.(core := AfterMove(s.core, w, m))
  }

  predicate Running(s: Client, t: string) { t in s.managed && IsRunning(s.core, s.managed[t]) }

  /** What each call has done so far; with no call at work, running is started. */
  ghost predicate CallOk(s: Client) {
    match s.call
    case NoCall => s.core.waiting.None? && forall t :: t in s.managed ==> (Running(s, t) <==> s.started)
    case Disabling(u) =>
      && u in s.managed && s.core.waiting == Some(s.managed[u]) && !Running(s, u)
      && forall t :: t in s.managed && t != u ==> (Running(s, t) <==> s.started)
    case Starting(todo) =>
      && s.core.waiting.None? && !s.started && todo <= s.managed.Keys
      && forall t :: t in s.managed ==> (Running(s, t) <==> t !in todo)
    case Stopping(todo) =>
      && s.started && todo <= s.managed.Keys
      && forall t :: t in s.managed ==> (Running(s, t) <==> t in todo)
  }

  ghost predicate Inv(s: Client) { CoreInv(s.core) && ManagedOk(s) && CallOk(s) }

  ghost predicate Init(s: Client) {
    s == Client(Core([], [], [], None), map[], false, NoCall)
  }

  lemma StepCore(s: Client, step: Step)
    requires Inv(s) && Enabled(s, step)
    ensures CoreInv(After(s, step).core)
  {
    hide CoreInv;
    match step
    case EnableKV(t) =>
      NewDrainerOk(s.core, t);
      if s.started { StartDrainerOk(NewDrainer(s.core, t), |s.core.drainers|); }
    case DisableKV(t) => if t in s.managed && Running(s, t) { BeginStopOk(s.core, s.managed[t]); }
    case DisableReturns => EndStopOk(s.core);
    case StartOne(t) => StartDrainerOk(s.core, s.managed[t]);
    case StopOne(t) => BeginStopOk(s.core, s.managed[t]);
    case StopWaited => EndStopOk(s.core);
    case WorkerMoves(w, m) => MoveOk(s.core, w, m);
    case _ =>
  }

  lemma EnableCall(s: Client, t: string)
    requires Inv(s) && Enabled(s, EnableKV(t))
    ensures ManagedOk(After(s, EnableKV(t))) && CallOk(After(s, EnableKV(t)))
  {
    hide CoreInv;
  }

  lemma OneCall(s: Client, step: Step)
    requires Inv(s) && Enabled(s, step) && (step.StartOne? || step.StopOne?)
    ensures ManagedOk(After(s, step)) && CallOk(After(s, step))
  {
    hide CoreInv, Close;
  }

  lemma StepCall(s: Client, step: Step)
    requires Inv(s) && Enabled(s, step)
    ensures ManagedOk(After(s, step)) && CallOk(After(s, step))
  {
    hide CoreInv, Close, CanMove, CanEndStop, StartDrainer, NewDrainer;
    match step
    case EnableKV(t) => EnableCall(s, t);
    case StartOne(t) => OneCall(s, step);
    case StopOne(t) => OneCall(s, step);
    case _ =>
  }

  ghost predicate Run(run: seq<Client>, steps: seq<Step>) {
    && |run| == |steps| + 1 && Init(run[0])
    && forall i :: 0 <= i < |steps| ==> Enabled(run[i], steps[i]) && run[i + 1] == After(run[i], steps[i])
  }

  /** Drainer lifecycle: the invariant holds in every reachable state. */
  lemma {:induction false} InvariantHolds(run: seq<Client>, steps: seq<Step>, i: nat)
    requires Run(run, steps) && i < |run|
    ensures Inv(run[i])
    decreases i
  {
    hide CoreInv, Enabled, After, CallOk;
    if i == 0 {
      InitOk(run[0]);
    } else {
      InvariantHolds(run, steps, i - 1);
      StepCore(run[i - 1], steps[i - 1]);
      StepCall(run[i - 1], steps[i - 1]);
    }
  }

  lemma InitOk(s: Client)
    requires Init(s)
    ensures Inv(s)
  {
  }

  /** With no call at work each managed drainer runs exactly when the client is started; every
      channel was closed at most once. */
  lemma RunningIsStarted(run: seq<Client>, steps: seq<Step>, i: nat)
    requires Run(run, steps) && i < |run|
    ensures run[i].call.NoCall? ==> forall t :: t in run[i].managed ==> (Running(run[i], t) <==> run[i].started)
    ensures forall ch :: 0 <= ch < |run[i].core.closes| ==> run[i].core.closes[ch] <= 1
  {
    hide Run, OneWorkerEach, DrainerOk, WorkerOk;
    InvariantHolds(run, steps, i);
  }

  /** A `Stop` that waits is served: its done channel is closed, or a live worker will close
      it. When the wait ends, every worker the drainer ever had is gone, and none finished
      more than one batch after its stop signal. */
  lemma StopWaitsForTheWorker(run: seq<Client>, steps: seq<Step>, i: nat)
    requires Run(run, steps) && i < |run| && run[i].core.waiting.Some?
    ensures var k := run[i].core; var d := k.waiting.value;
      && (CanEndStop(k) || Manned(k, d))
      && (CanEndStop(k) ==> forall w :: 0 <= w < |k.workers| && k.workers[w].drainer == d ==>
            k.workers[w].phase.Exited? && k.workers[w].tail <= 1)
  {
    hide Run, OneWorkerEach, ChannelsOk;
    InvariantHolds(run, steps, i);
    var k := run[i].core;
    assert DrainerOk(k, k.waiting.value);
    if CanEndStop(k) { EndStopOk(k); }
  }

  /* ---------- one worker per table ---------- */

  /** The table is enabled only when it is not managed. */
  predicate Fresh(s: Client, step: Step) { step.EnableKV? ==> step.table !in s.managed }

  ghost predicate EnabledOnce(run: seq<Client>, steps: seq<Step>) {
    |run| == |steps| + 1 && forall i :: 0 <= i < |steps| ==> Fresh(run[i], steps[i])
  }

  /** Every engaged drainer is the one its table's entry names. */
  ghost predicate AllManaged(s: Client) {
    forall d :: 0 <= d < |s.core.drainers| && Engaged(s.core, d) ==>
      s.core.drainers[d].table in s.managed && s.managed[s.core.drainers[d].table] == d
  }

  lemma StepManaged(s: Client, step: Step)
    requires Inv(s) && Enabled(s, step) && AllManaged(s) && Fresh(s, step)
    ensures AllManaged(After(s, step))
  {
    hide CoreInv, Close, CanMove;
  }

  lemma {:induction false} StaysManaged(run: seq<Client>, steps: seq<Step>, i: nat)
    requires Run(run, steps) && EnabledOnce(run, steps) && i < |run|
    ensures AllManaged(run[i])
    decreases i
  {
    hide Inv, Enabled, After;
    if i > 0 {
      StaysManaged(run, steps, i - 1);
      InvariantHolds(run, steps, i - 1);
      StepManaged(run[i - 1], steps[i - 1]);
    }
  }

  predicate LiveOn(k: Core, w: nat, t: string) {
    && w < |k.workers| && Live(k.workers[w])
    && k.workers[w].drainer < |k.drainers| && k.drainers[k.workers[w].drainer].table == t
  }

  /** No table has two live workers if it is never enabled twice without a `DisableKV`. */
  lemma NoTwoWorkers(run: seq<Client>, steps: seq<Step>, i: nat, v: nat, w: nat, t: string)
    requires Run(run, steps) && EnabledOnce(run, steps) && i < |run|
    requires LiveOn(run[i].core, v, t) && LiveOn(run[i].core, w, t)
    ensures v == w
  {
    hide Run, EnabledOnce, DrainerOk, ChannelsOk, CallOk;
    InvariantHolds(run, steps, i);
    StaysManaged(run, steps, i);
    var k := run[i].core;
    assert WorkerOk(k, k.workers[v]) && WorkerOk(k, k.workers[w]);
  }

  /** And once `Stop` has returned, no worker is left at all. */
  lemma StopLeavesNoWorker(run: seq<Client>, steps: seq<Step>, i: nat, w: nat)
    requires Run(run, steps) && EnabledOnce(run, steps) && i < |run|
    requires run[i].call.NoCall? && !run[i].started && w < |run[i].core.workers|
    ensures run[i].core.workers[w].phase.Exited?
  {
    hide Run, EnabledOnce, DrainerOk, ChannelsOk, OneWorkerEach;
    InvariantHolds(run, steps, i);
    StaysManaged(run, steps, i);
    var k := run[i].core;
    assert WorkerOk(k, k.workers[w]);
  }

  /** Exactly when enabling a table gives it a second live worker: the client is started and
      the table's present worker is alive. */
  lemma DoubleEnableExact(s: Client, t: string, w: nat)
    requires Inv(s) && s.call.NoCall? && LiveOn(s.core, w, t)
    ensures var k := After(s, EnableKV(t)).core;
      LiveOn(k, w, t) && ((exists v :: v != w && LiveOn(k, v, t) && !LiveOn(s.core, v, t)) <==> s.started)
  {
    hide ChannelsOk, DrainerOk, OneWorkerEach, CallOk;
    var k := After(s, EnableKV(t)).core;
    if s.started {
      assert LiveOn(k, |s.core.workers|, t);
    } else {
      forall v: nat | LiveOn(k, v, t) ensures LiveOn(s.core, v, t) {
        assert WorkerOk(s.core, s.core.workers[v]);
      }
    }
  }

  /** The drainer so replaced is out of reach: whatever calls follow, it keeps running and its
      stop channel stays open. */
  ghost predicate Orphan(s: Client, d: nat) {
    && IsRunning(s.core, d)
    && forall t :: t in s.managed ==> s.managed[t] != d
  }

  lemma DoubleEnableOrphans(s: Client, t: string)
    requires Inv(s) && s.call.NoCall? && s.started && t in s.managed
    ensures Orphan(After(s, EnableKV(t)), s.managed[t])
  {
    hide CoreInv;
    assert Running(s, t);
  }

  lemma {:induction false} OrphanOutlivesStop(run: seq<Client>, steps: seq<Step>, i: nat, j: nat, d: nat)
    requires Run(run, steps) && i <= j < |run| && Orphan(run[i], d)
    ensures Orphan(run[j], d) && Closes(run[j].core, run[j].core.drainers[d].stopCh) == 0
    decreases j
  {
    hide Enabled, After, ManagedOk, CallOk, Closes;
    InvariantHolds(run, steps, j);
    if i < j {
      OrphanOutlivesStop(run, steps, i, j - 1, d);
      InvariantHolds(run, steps, j - 1);
      OrphanStep(run[j - 1], steps[j - 1], d);
    }
    assert DrainerOk(run[j].core, d);
  }

  lemma OrphanStep(s: Client, step: Step, d: nat)
    requires Inv(s) && Enabled(s, step) && Orphan(s, d)
    ensures Orphan(After(s, step), d)
  {
    hide CoreInv, Close, CanMove;
  }
}
