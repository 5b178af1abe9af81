/** The drainer's worker: it takes batches from the queue, waits for the rate limiter before
    each operation and executes it. Producers and the clock interleave with it, dequeues and
    executions fail, contexts are cancelled, and workers are stopped and restarted. */
module Drain {
  import opened GoText
  import opened Mapper
  import opened Sql
  import opened WriteOps
  import opened RateLimit
  import opened Queues
  import WriteBack
  import Translator

  /** Why an execution failed: no statement for the operation, a statement the database refuses,
      or an error of the database's own. */
  datatype Cause = Untranslatable | Rejected(stmt: Stmt, args: seq<Value>) | Fault

  /** What became of an operation: executed with a statement, failed, dropped at the limiter,
      or popped by a `Dequeue` that then reported an error. */
  datatype Outcome = Executed(stmt: Stmt, args: seq<Value>) | Failed(cause: Cause) | Dropped | Lost

  datatype Attempt = Attempt(op: WriteOp, outcome: Outcome)

  /** An up worker waits for its reservation to come due, or for nothing. */
  datatype Worker = Down | Up(limiter: Limiter, due: Option<real>)

  /** `acts` and `woke` list, per worker run, when each granted operation was due and when it
      went ahead. */
  datatype State = State(
    clock: real, enqueued: seq<WriteOp>, queue: seq<WriteOp>, hand: seq<WriteOp>, log: seq<Attempt>,
    db: Db, worker: Worker, acts: seq<seq<real>>, woke: seq<seq<real>>)

  datatype Setup = Setup(c: Config, rate: real, batch: nat)

  predicate GoodSetup(u: Setup) { u.rate > 0.0 && u.batch > 0 }

  datatype Step =
    | Tick(dt: real)
    | Enqueue(op: WriteOp)
    | StartWorker
    | ExitWorker
    | Take(n: nat, err: bool)
    | Reserve
    | Refuse
    | Cancel
    | Process(outcome: Outcome)

  /** What may become of an operation that the limiter granted. */
  ghost predicate Accepted(u: Setup, db: Db, op: WriteOp, outcome: Outcome) {
    match outcome
    case Executed(stmt, args) =>
      Translatable(u.c, op) && Translates(u.c, op, stmt, args) && Exec(u.c.s, db, stmt, args).Some?
    case Failed(Untranslatable) => !Translatable(u.c, op)
    case Failed(Rejected(stmt, args)) =>
      Translatable(u.c, op) && Translates(u.c, op, stmt, args) && Exec(u.c.s, db, stmt, args).None?
    case Failed(Fault) => Translatable(u.c, op)
    case _ => false
  }

  ghost predicate Enabled(u: Setup, s: State, step: Step) {
    match step
    case Tick(dt) => dt >= 0.0
    case Enqueue(_) => true
    case StartWorker => s.worker.Down?
    case ExitWorker => s.worker.Up? && s.hand == []
    case Take(n, err) =>
      && s.worker.Up? && s.hand == [] && n <= |s.queue|
      && if err then n < u.batch else n == Min(u.batch, |s.queue|)
    case Reserve => s.worker.Up? && s.hand != [] && s.worker.due.None?
    case Refuse => s.worker.Up? && s.hand != [] && s.worker.due.None?
    case Cancel => s.worker.Up? && s.hand != []
    case Process(outcome) =>
      && s.worker.Up? && s.hand != [] && s.worker.due.Some? && s.worker.due.value <= s.clock
      && Accepted(u, s.db, s.hand[0], outcome)
  }

  function All(ops: seq<WriteOp>, outcome: Outcome): (r: seq<Attempt>) {
    if ops == [] then [] else [Attempt(ops[0], outcome)] + All(ops[1..], outcome)
  }

  /** A run's list with one more element in its last run. */
  function InLast(runs: seq<seq<real>>, x: real): seq<seq<real>> {
    if runs == [] then [[x]] else runs[..|runs|-1] + [runs[|runs|-1] + [x]]
  }

  function After(u: Setup, s: State, step: Step): State
    requires GoodSetup(u)
  {
    match step
    case Tick(dt) => s.(clock := s.clock + dt)
    case Enqueue(op) => s.(enqueued := s.enqueued + [op], queue := s.queue + [op])
    case StartWorker =>
      s.(worker := Up(NewLimiter(s.clock), None), acts := s.acts + [[]], woke := s.woke + [[]])
    case ExitWorker => s.(worker := Down)
    case Take(n, err) =>
      var k := Min(n, |s.queue|);
      if err then s.(queue := s.queue[k..], log := s.log + All(s.queue[..k], Lost))
      else s.(queue := s.queue[k..], hand := s.hand + s.queue[..k])
    case Reserve =>
      if s.worker.Up? then
        var l := s.worker.limiter;
        s.(worker := Up(Reserved(u.rate, l, s.clock), Some(TimeToAct(u.rate, l, s.clock))))
      else s
    case Refuse =>
      if s.hand == [] then s else s.(log := s.log + [Attempt(s.hand[0], Dropped)], hand := s.hand[1..])
    case Cancel => s.(log := s.log + All(s.hand, Dropped), hand := [], worker := Down)
    case Process(outcome) =>
      if s.hand == [] || s.worker.Down? || s.worker.due.None? then s else
      s.(log := s.log + [Attempt(s.hand[0], outcome)], hand := s.hand[1..],
         db := Effect(u.c, s.db, outcome),
         worker := s.worker.(due := None),
         acts := InLast(s.acts, s.worker.due.value), woke := InLast(s.woke, s.clock))
  }

  function Effect(c: Config, db: Db, outcome: Outcome): Db {
    if outcome.Executed? then WriteOps.After(c.s, db, outcome.stmt, outcome.args) else db
  }

  /** A queue nobody has drained yet. */
  ghost predicate Init(s: State) {
    s.enqueued == s.queue && s.hand == [] && s.log == [] && s.worker.Down? && s.acts == s.woke == []
  }

  function Final(u: Setup, s: State, steps: seq<Step>): State
    requires GoodSetup(u)
  {
    if steps == [] then s else After(u, Final(u, s, steps[..|steps|-1]), steps[|steps|-1])
  }

  ghost predicate Legal(u: Setup, s: State, steps: seq<Step>)
    requires GoodSetup(u)
  {
    steps != [] ==>
      var rest := steps[..|steps|-1];
      Legal(u, s, rest) && Enabled(u, Final(u, s, rest), steps[|steps|-1])
  }

  /* ---------- conservation ---------- */

  function Ops(log: seq<Attempt>): (r: seq<WriteOp>)
    ensures |r| == |log| && forall i :: 0 <= i < |log| ==> r[i] == log[i].op
  {
    seq(|log|, i requires 0 <= i < |log| => log[i].op)
  }

  /** Executing the accepted statements of a log, in its order. */
  function Fold(c: Config, db: Db, log: seq<Attempt>): Db {
    if log == [] then db else Effect(c, Fold(c, db, log[..|log|-1]), log[|log|-1].outcome)
  }

  /** Each enqueued operation is, by its position, in exactly one of the log, the hand and the
      queue, and the database is the fold of the log. */
  ghost predicate Conserved(u: Setup, db0: Db, s: State) {
    && s.enqueued == Ops(s.log) + s.hand + s.queue
    && (s.worker.Down? ==> s.hand == [])
    && s.db == Fold(u.c, db0, s.log)
    && forall a :: a in s.log ==> Explained(u, a)
  }

  /** Executed statements come from their operations, and a dequeue of one loses nothing. */
  ghost predicate Explained(u: Setup, a: Attempt) {
    match a.outcome
    case Executed(stmt, args) => Translatable(u.c, a.op) && Translates(u.c, a.op, stmt, args)
    case Lost => u.batch != 1
    case _ => true
  }

  lemma {:induction false} AllOps(ops: seq<WriteOp>, outcome: Outcome)
    ensures Ops(All(ops, outcome)) == ops
    ensures forall a :: a in All(ops, outcome) ==> a.outcome == outcome
  {
    if ops != [] { AllOps(ops[1..], outcome); }
  }

  lemma {:induction false} FoldSkips(c: Config, db: Db, log: seq<Attempt>, more: seq<Attempt>)
    requires forall a :: a in more ==> !a.outcome.Executed?
    ensures Fold(c, db, log + more) == Fold(c, db, log)
    decreases |more|
  {
    if more == [] {
      assert log + more == log;
    } else {
      var n := |more| - 1;
      assert more[n] in more;
      assert (log + more)[..|log + more| - 1] == log + more[..n];
      FoldSkips(c, db, log, more[..n]);
    }
  }

  lemma OpsAppend(log: seq<Attempt>, more: seq<Attempt>)
    ensures Ops(log + more) == Ops(log) + Ops(more)
  {
  }

  lemma FoldOne(c: Config, db: Db, log: seq<Attempt>, a: Attempt)
    ensures Fold(c, db, log + [a]) == Effect(c, Fold(c, db, log), a.outcome)
  {
    assert (log + [a])[..|log|] == log;
  }

  lemma TakeConserves(u: Setup, db0: Db, s: State, n: nat)
    requires GoodSetup(u) && Conserved(u, db0, s) && Enabled(u, s, Take(n, false))
    ensures Conserved(u, db0, After(u, s, Take(n, false)))
  {
    hide Explained, Fold;
    assert s.queue == s.queue[..n] + s.queue[n..];
  }

  /** Logging operations that were never executed. */
  lemma Discards(u: Setup, db0: Db, log: seq<Attempt>, ops: seq<WriteOp>, outcome: Outcome)
    requires outcome.Dropped? || (outcome.Lost? && (u.batch == 1 ==> ops == []))
    requires forall a :: a in log ==> Explained(u, a)
    ensures var log' := log + All(ops, outcome);
      Ops(log') == Ops(log) + ops && Fold(u.c, db0, log') == Fold(u.c, db0, log)
      && forall a :: a in log' ==> Explained(u, a)
  {
    hide Translates, Translatable, Fold;
    AllOps(ops, outcome);
    OpsAppend(log, All(ops, outcome));
    FoldSkips(u.c, db0, log, All(ops, outcome));
  }

  lemma LoseConserves(u: Setup, db0: Db, s: State, n: nat)
    requires GoodSetup(u) && Conserved(u, db0, s) && Enabled(u, s, Take(n, true))
    ensures Conserved(u, db0, After(u, s, Take(n, true)))
  {
    hide Explained, Fold, All, Ops, Accepted;
    Discards(u, db0, s.log, s.queue[..n], Lost);
    Moved(Ops(s.log), s.queue, n);
  }

  lemma Moved(done: seq<WriteOp>, queue: seq<WriteOp>, n: nat)
    requires n <= |queue|
    ensures done + [] + queue == (done + queue[..n]) + [] + queue[n..]
  {
  }

  lemma CancelConserves(u: Setup, db0: Db, s: State)
    requires GoodSetup(u) && Conserved(u, db0, s) && Enabled(u, s, Cancel)
    ensures Conserved(u, db0, After(u, s, Cancel))
  {
    hide Explained, Fold, All, Ops;
    Discards(u, db0, s.log, s.hand, Dropped);
  }

  lemma HandledConserves(u: Setup, db0: Db, s: State, step: Step)
    requires GoodSetup(u) && Conserved(u, db0, s) && Enabled(u, s, step) && (step.Refuse? || step.Process?)
    ensures Conserved(u, db0, After(u, s, step))
  {
    hide Translates, Translatable, Exec, Fold, Effect;
    var a := Attempt(s.hand[0], if step.Refuse? then Dropped else step.outcome);
    OpsAppend(s.log, [a]);
    FoldOne(u.c, db0, s.log, a);
    EffectOfDropped(u.c, s.db);
  }

  lemma EffectOfDropped(c: Config, db: Db)
    ensures Effect(c, db, Dropped) == db
  {
  }

  lemma StepConserves(u: Setup, db0: Db, s: State, step: Step)
    requires GoodSetup(u) && Conserved(u, db0, s) && Enabled(u, s, step)
    ensures Conserved(u, db0, After(u, s, step))
  {
    hide Translates, Translatable, Exec, Fold;
    match step
    case Take(n, err) => if err { LoseConserves(u, db0, s, n); } else { TakeConserves(u, db0, s, n); }
    case Cancel => CancelConserves(u, db0, s);
    case Refuse => HandledConserves(u, db0, s, step);
    case Process(_) => HandledConserves(u, db0, s, step);
    case _ =>
  }

  /** Drain conservation with failures: it holds after every run. */
  lemma {:induction false} DrainConserves(u: Setup, s: State, steps: seq<Step>)
    requires GoodSetup(u) && Init(s) && Legal(u, s, steps)
    ensures Conserved(u, s.db, Final(u, s, steps))
    decreases |steps|
  {
    if steps != [] {
      var rest := steps[..|steps|-1];
      DrainConserves(u, s, rest);
      StepConserves(u, s.db, Final(u, s, rest), steps[|steps|-1]);
    }
  }

  /* ---------- what the database then holds ---------- */

  function Successes(log: seq<Attempt>): seq<WriteOp> {
    if log == [] then []
    else Successes(log[..|log|-1]) + if log[|log|-1].outcome.Executed? then [log[|log|-1].op] else []
  }

  /** An operation on an integer key that the protocol may enqueue. */
  predicate Sound(c: Config, op: WriteOp) { op.key.Int? && OpOk(c, op.key.n, op) }

  /** The database is, row by row, the replay of exactly the successful operations, in
      enqueue order. */
  ghost predicate IsReplay(c: Config, db0: Db, ops: seq<WriteOp>, db: Db) {
    RowsNotNull(c.s, db) && forall n :: Lookup(db, n) == WriteBack.Replay(c, ops, n, Lookup(db0, n))
  }

  lemma ReplayOne(u: Setup, db0: Db, ops: seq<WriteOp>, db: Db, a: Attempt)
    requires GoodConfig(u.c) && IsReplay(u.c, db0, ops, db)
    requires Sound(u.c, a.op) && Explained(u, a) && a.outcome.Executed?
    ensures IsReplay(u.c, db0, ops + [a.op], Effect(u.c, db, a.outcome))
  {
    hide Translates, Exec, OpOk, GoodConfig, WriteBack.Replay, RowApply;
    var db' := Effect(u.c, db, a.outcome);
    SoundApplicable(u.c, a.op);
    ExecuteMeaning(u.c, a.op.key.n, a.op, a.outcome.stmt, a.outcome.args, db);
    forall n ensures Lookup(db', n) == WriteBack.Replay(u.c, ops + [a.op], n, Lookup(db0, n)) {
      WriteBack.ReplayAppend(u.c, ops, a.op, n, Lookup(db0, n));
    }
  }

  lemma SoundApplicable(c: Config, op: WriteOp)
    requires Sound(c, op)
    ensures WriteBack.Applicable(c, op)
  {
  }

  lemma {:induction false} FoldIsReplay(u: Setup, db0: Db, log: seq<Attempt>)
    requires GoodConfig(u.c) && RowsNotNull(u.c.s, db0)
    requires forall a :: a in log ==> Sound(u.c, a.op) && Explained(u, a)
    ensures IsReplay(u.c, db0, Successes(log), Fold(u.c, db0, log))
  {
    hide Translates, Translatable, Exec, OpOk, GoodConfig, WriteOps.After;
    if log != [] {
      var a := log[|log|-1];
      assert a in log;
      FoldIsReplay(u, db0, log[..|log|-1]);
      if a.outcome.Executed? {
        ReplayOne(u, db0, Successes(log[..|log|-1]), Fold(u.c, db0, log[..|log|-1]), a);
      } else {
        assert Successes(log) == Successes(log[..|log|-1]);
      }
    }
  }

  /** In every run the database is the replay of the successes; nothing else touches it. */
  lemma DatabaseIsReplayOfSuccesses(u: Setup, s: State, steps: seq<Step>)
    requires GoodSetup(u) && GoodConfig(u.c) && Init(s) && Legal(u, s, steps) && RowsNotNull(u.c.s, s.db)
    requires forall op :: op in Final(u, s, steps).enqueued ==> Sound(u.c, op)
    ensures IsReplay(u.c, s.db, Successes(Final(u, s, steps).log), Final(u, s, steps).db)
  {
    hide Explained, Exec, OpOk, GoodConfig, IsReplay, After, Enabled;
    DrainConserves(u, s, steps);
    var f := Final(u, s, steps);
    forall a | a in f.log ensures Sound(u.c, a.op) {
      var i :| 0 <= i < |f.log| && f.log[i] == a;
      assert f.enqueued[i] == a.op;
    }
    FoldIsReplay(u, s.db, f.log);
  }

  /* ---------- why operations fail ---------- */

  predicate Attempted(a: Attempt) { a.outcome.Executed? || a.outcome.Failed? }

  /** Every attempt met the database that the attempts before it left. */
  ghost predicate Judged(u: Setup, db0: Db, log: seq<Attempt>) {
    forall i :: 0 <= i < |log| && Attempted(log[i]) ==>
      Accepted(u, Fold(u.c, db0, log[..i]), log[i].op, log[i].outcome)
  }

  lemma JudgedOne(u: Setup, db0: Db, log: seq<Attempt>, a: Attempt)
    requires Judged(u, db0, log) && (Attempted(a) ==> Accepted(u, Fold(u.c, db0, log), a.op, a.outcome))
    ensures Judged(u, db0, log + [a])
  {
    hide Accepted, Fold;
    var log' := log + [a];
    forall i | 0 <= i < |log'| && Attempted(log'[i])
      ensures Accepted(u, Fold(u.c, db0, log'[..i]), log'[i].op, log'[i].outcome)
    {
      assert log'[..i] == log[..i];
      if i == |log| { assert log[..i] == log; }
    }
  }

  lemma {:induction false} JudgedMore(u: Setup, db0: Db, log: seq<Attempt>, more: seq<Attempt>)
    requires Judged(u, db0, log) && forall j :: 0 <= j < |more| ==> !Attempted(more[j])
    ensures Judged(u, db0, log + more)
    decreases |more|
  {
    hide Judged, Accepted, Fold, Attempted;
    if more == [] {
      assert log + more == log;
    } else {
      JudgedOne(u, db0, log, more[0]);
      JudgedMore(u, db0, log + [more[0]], more[1..]);
      assert log + more == (log + [more[0]]) + more[1..];
    }
  }

  lemma StepJudged(u: Setup, db0: Db, s: State, step: Step)
    requires GoodSetup(u) && Conserved(u, db0, s) && Judged(u, db0, s.log) && Enabled(u, s, step)
    ensures Judged(u, db0, After(u, s, step).log)
  {
    hide Accepted, Fold, Judged, Ops, Explained, All;
    match step
    case Take(n, err) =>
      AllOps(s.queue[..Min(n, |s.queue|)], Lost);
      JudgedMore(u, db0, s.log, All(s.queue[..Min(n, |s.queue|)], Lost));
    case Cancel =>
      AllOps(s.hand, Dropped);
      JudgedMore(u, db0, s.log, All(s.hand, Dropped));
    case Refuse => JudgedOne(u, db0, s.log, Attempt(s.hand[0], Dropped));
    case Process(outcome) => JudgedOne(u, db0, s.log, Attempt(s.hand[0], outcome));
    case _ =>
  }

  lemma {:induction false} RunJudged(u: Setup, s: State, steps: seq<Step>)
    requires GoodSetup(u) && Init(s) && Legal(u, s, steps)
    ensures Judged(u, s.db, Final(u, s, steps).log)
    decreases |steps|
  {
    hide Conserved, Enabled, After;
    if steps != [] {
      var rest := steps[..|steps|-1];
      RunJudged(u, s, rest);
      DrainConserves(u, s, rest);
      StepJudged(u, s.db, Final(u, s, rest), steps[|steps|-1]);
    }
  }

  /** A create of a key whose row the successes of a log left in place. */
  ghost predicate Blocked(c: Config, db0: Db, log: seq<Attempt>, op: WriteOp) {
    && op.kind == OperationCreate && op.key.Int?
    && WriteBack.Replay(c, Successes(log), op.key.n, Lookup(db0, op.key.n)).Some?
  }

  /** In every run, an operation the protocol may enqueue fails, faults of the database aside,
      exactly when it creates a key whose row the successes before it left in place. */
  lemma FailuresExplained(u: Setup, s: State, steps: seq<Step>, i: nat)
    requires GoodSetup(u) && GoodConfig(u.c) && Init(s) && Legal(u, s, steps) && RowsNotNull(u.c.s, s.db)
    requires forall op :: op in Final(u, s, steps).enqueued ==> Sound(u.c, op)
    requires var log := Final(u, s, steps).log;
      i < |log| && Attempted(log[i]) && log[i].outcome != Failed(Fault)
    ensures var log := Final(u, s, steps).log;
      log[i].outcome.Failed? <==> Blocked(u.c, s.db, log[..i], log[i].op)
  {
    hide GoodConfig, OpOk, RowsNotNull, Enabled, After, Explained, Fold, Accepted, Successes, WriteBack.Replay;
    DrainConserves(u, s, steps);
    RunJudged(u, s, steps);
    var f := Final(u, s, steps);
    var log := f.log;
    forall a | a in log ensures Sound(u.c, a.op) {
      var j :| 0 <= j < |log| && log[j] == a;
      assert f.enqueued[j] == a.op;
    }
    assert log[i] in log;
    assert forall a :: a in log[..i] ==> a in log;
    FoldIsReplay(u, s.db, log[..i]);
    AttemptExact(u, Fold(u.c, s.db, log[..i]), log[i]);
  }

  lemma AttemptExact(u: Setup, db: Db, a: Attempt)
    requires GoodConfig(u.c) && Sound(u.c, a.op) && RowsNotNull(u.c.s, db)
    requires Accepted(u, db, a.op, a.outcome) && a.outcome != Failed(Fault)
    ensures a.outcome.Failed? <==> a.op.kind == OperationCreate && Lookup(db, a.op.key.n).Some?
  {
    hide GoodConfig, OpOk, Exec, Translates, Translatable, RowsNotNull;
    SoundTranslates(u.c, a.op);
    match a.outcome
    case Executed(stmt, args) => ExecuteSucceeds(u.c, a.op.key.n, a.op, stmt, args, db);
    case Failed(Rejected(stmt, args)) => ExecuteSucceeds(u.c, a.op.key.n, a.op, stmt, args, db);
    case _ =>
  }

  lemma SoundTranslates(c: Config, op: WriteOp)
    requires GoodConfig(c) && Sound(c, op)
    ensures Translatable(c, op)
  {
    if op.kind == OperationCreate {
      Translator.AcceptedCreateDrains(c.lib, c.s, op.data.value);
    }
  }

  /* ---------- draining a queue ---------- */

  /** No producer, no failure, no cancellation. */
  predicate Calm(step: Step) {
    match step
    case Tick(_) => true
    case Take(_, err) => !err
    case Reserve => true
    case Process(outcome) => outcome.Executed?
    case _ => false
  }

  /** Iterations that found work. */
  function NonIdle(steps: seq<Step>): nat {
    if steps == [] then 0
    else NonIdle(steps[..|steps|-1]) + if steps[|steps|-1].Take? && steps[|steps|-1].n > 0 then 1 else 0
  }

  /** What a calm run has done by the time it reaches `f`. */
  ghost predicate Draining(u: Setup, s: State, f: State, takes: nat) {
    && f.worker.Up? && |f.log| >= |s.log| && f.log[..|s.log|] == s.log
    && var added := f.log[|s.log|..];
    && s.queue == Ops(added) + f.hand + f.queue
    && takes == |added| + |f.hand|
    && (forall a :: a in added ==> a.outcome.Executed? && Explained(u, a))
    && f.db == Fold(u.c, s.db, added)
  }

  lemma TakeDrains(u: Setup, s: State, f: State, takes: nat, n: nat)
    requires GoodSetup(u) && u.batch == 1 && Draining(u, s, f, takes) && Enabled(u, f, Take(n, false))
    ensures Draining(u, s, After(u, f, Take(n, false)), takes + n) && n <= 1
  {
    hide Explained, Fold, Ops;
    assert f.queue == f.queue[..n] + f.queue[n..];
  }

  lemma ProcessDrains(u: Setup, s: State, f: State, takes: nat, outcome: Outcome)
    requires GoodSetup(u) && Draining(u, s, f, takes) && Enabled(u, f, Process(outcome)) && outcome.Executed?
    ensures Draining(u, s, After(u, f, Process(outcome)), takes)
  {
    hide Explained, Accepted, Fold, Effect, Ops;
    var a := Attempt(f.hand[0], outcome);
    var added := f.log[|s.log|..];
    assert (f.log + [a])[|s.log|..] == added + [a];
    OneOp(added, a);
    AcceptedExplained(u, f.db, a);
    FoldOne(u.c, s.db, added, a);
    assert f.hand == [f.hand[0]] + f.hand[1..];
    assert Ops(added) + f.hand + f.queue == (Ops(added) + [f.hand[0]]) + f.hand[1..] + f.queue;
  }

  lemma OneOp(log: seq<Attempt>, a: Attempt)
    ensures Ops(log + [a]) == Ops(log) + [a.op]
  {
  }

  lemma AcceptedExplained(u: Setup, db: Db, a: Attempt)
    requires Accepted(u, db, a.op, a.outcome)
    ensures Explained(u, a)
  {
  }

  lemma {:induction false} CalmRun(u: Setup, s: State, steps: seq<Step>)
    requires GoodSetup(u) && u.batch == 1 && s.worker.Up? && s.hand == []
    requires Legal(u, s, steps) && forall i :: 0 <= i < |steps| ==> Calm(steps[i])
    ensures Draining(u, s, Final(u, s, steps), NonIdle(steps))
    decreases |steps|
  {
    hide Explained, Ops;
    if steps != [] {
      var rest, step := steps[..|steps|-1], steps[|steps|-1];
      CalmRun(u, s, rest);
      match step
      case Take(n, _) => TakeDrains(u, s, Final(u, s, rest), NonIdle(rest), n);
      case Process(outcome) => ProcessDrains(u, s, Final(u, s, rest), NonIdle(rest), outcome);
      case _ =>
    } else {
      NoOps();
    }
  }

  lemma NoOps()
    ensures Ops([]) == []
  {
  }

  lemma {:induction false} AllSucceeded(log: seq<Attempt>)
    requires forall a :: a in log ==> a.outcome.Executed?
    ensures Successes(log) == Ops(log)
  {
    if log != [] {
      assert log[|log|-1] in log;
      AllSucceeded(log[..|log|-1]);
    }
  }

  /** With producers stopped and nothing failing, `n` finished non-idle iterations empty a
      queue of `n`, no more are possible, and the database is the replay of that queue. */
  lemma NIterationsEmptyTheQueue(u: Setup, s: State, steps: seq<Step>)
    requires GoodSetup(u) && u.batch == 1 && s.worker.Up? && s.hand == []
    requires Legal(u, s, steps) && forall i :: 0 <= i < |steps| ==> Calm(steps[i])
    requires GoodConfig(u.c) && RowsNotNull(u.c.s, s.db) && forall op :: op in s.queue ==> Sound(u.c, op)
    ensures var f := Final(u, s, steps);
      && NonIdle(steps) <= |s.queue|
      && (f.hand == [] && NonIdle(steps) == |s.queue| <==> f.hand == [] && f.queue == [])
      && (f.hand == f.queue == [] ==> IsReplay(u.c, s.db, s.queue, f.db))
  {
    hide Explained, Exec, OpOk, GoodConfig, IsReplay, After, Enabled, Fold, Successes, RowsNotNull;
    CalmRun(u, s, steps);
    var f := Final(u, s, steps);
    var added := f.log[|s.log|..];
    if f.hand == [] && f.queue == [] {
      forall a | a in added ensures Sound(u.c, a.op) {
        var i :| 0 <= i < |added| && added[i] == a;
        assert s.queue[i] == a.op;
      }
      AllSucceeded(added);
      FoldIsReplay(u, s.db, added);
      assert Ops(added) == s.queue;
    }
  }

  /* ---------- the rate ---------- */

  /** The limiter owes exactly until the latest grant, or until the reservation being waited
      for, which comes a token's time after it. */
  ghost predicate Owing(u: Setup, s: State) {
    s.worker.Up? ==>
      && s.acts != []
      && var run := s.acts[|s.acts|-1];
      match s.worker.due
      case None => run != [] ==> DebtUntil(u.rate, s.worker.limiter, run[|run|-1])
      case Some(d) =>
        && DebtUntil(u.rate, s.worker.limiter, d)
        && (run != [] ==> Apart(u.rate, run[|run|-1], d))
        && forall i, x :: 0 <= i < |s.acts| && x in s.acts[i] ==> x <= d
  }

  function Granted(log: seq<Attempt>): nat {
    if log == [] then 0
    else Granted(log[..|log|-1]) + if log[|log|-1].outcome.Executed? || log[|log|-1].outcome.Failed? then 1 else 0
  }

  function Sizes(runs: seq<seq<real>>): nat {
    if runs == [] then 0 else Sizes(runs[..|runs|-1]) + |runs[|runs|-1]|
  }

  ghost predicate Limited(u: Setup, s: State) {
    && |s.acts| == |s.woke| && Owing(u, s) && Successive(u.rate, s.acts)
    && (forall i, x :: 0 <= i < |s.acts| && x in s.acts[i] ==> x <= s.clock)
    && (forall i :: 0 <= i < |s.acts| ==> |s.acts[i]| == |s.woke[i]|)
    && (forall i, j :: 0 <= i < |s.acts| && 0 <= j < |s.acts[i]| ==> s.acts[i][j] <= s.woke[i][j])
    && Granted(s.log) == Sizes(s.acts)
  }

  lemma {:induction false} DiscardedNotGranted(log: seq<Attempt>, ops: seq<WriteOp>, outcome: Outcome)
    requires outcome.Dropped? || outcome.Lost?
    ensures Granted(log + All(ops, outcome)) == Granted(log)
    decreases |ops|
  {
    if ops == [] {
      assert log + All(ops, outcome) == log;
    } else {
      var a := Attempt(ops[0], outcome);
      assert log + All(ops, outcome) == (log + [a]) + All(ops[1..], outcome);
      assert (log + [a])[..|log|] == log;
      DiscardedNotGranted(log + [a], ops[1..], outcome);
    }
  }

  lemma ReserveLimited(u: Setup, s: State)
    requires GoodSetup(u) && Limited(u, s) && Enabled(u, s, Reserve)
    ensures Limited(u, After(u, s, Reserve))
  {
    hide TimeToAct, Reserved, DebtUntil, Apart, Successive;
    ReserveOwes(u.rate, s.worker.limiter, s.clock);
    var run := s.acts[|s.acts|-1];
    if run != [] {
      ReservationsApart(u.rate, s.worker.limiter, run[|run|-1], s.clock);
    }
  }

  lemma StartLimited(u: Setup, s: State)
    requires GoodSetup(u) && Limited(u, s) && Enabled(u, s, StartWorker)
    ensures Limited(u, After(u, s, StartWorker))
  {
    hide DebtUntil, Apart;
    assert (s.acts + [[]])[..|s.acts|] == s.acts;
  }

  /** Granting appends to the last run. */
  lemma GrantSuccessive(rate: real, runs: seq<seq<real>>, d: real)
    requires runs != [] && Successive(rate, runs)
    requires forall i, x :: 0 <= i < |runs| && x in runs[i] ==> x <= d
    requires var run := runs[|runs|-1]; run != [] ==> Apart(rate, run[|run|-1], d)
    ensures Successive(rate, InLast(runs, d)) && Sizes(InLast(runs, d)) == Sizes(runs) + 1
  {
    hide Apart;
    var n := |runs| - 1;
    var runs' := InLast(runs, d);
    assert runs'[..n] == runs[..n];
    assert Spaced(rate, runs[n] + [d]);
  }

  lemma ProcessLimited(u: Setup, s: State, outcome: Outcome)
    requires GoodSetup(u) && Limited(u, s) && Enabled(u, s, Process(outcome))
    ensures Limited(u, After(u, s, Process(outcome)))
  {
    hide DebtUntil, Apart, Successive, Accepted, Effect, Sizes;
    var d := s.worker.due.value;
    GrantSuccessive(u.rate, s.acts, d);
    assert (s.log + [Attempt(s.hand[0], outcome)])[..|s.log|] == s.log;
    assert outcome.Executed? || outcome.Failed? by { AcceptedGranted(u, s.db, s.hand[0], outcome); }
  }

  lemma AcceptedGranted(u: Setup, db: Db, op: WriteOp, outcome: Outcome)
    requires Accepted(u, db, op, outcome)
    ensures outcome.Executed? || outcome.Failed?
  {
  }

  lemma StepLimited(u: Setup, s: State, step: Step)
    requires GoodSetup(u) && Limited(u, s) && Enabled(u, s, step)
    ensures Limited(u, After(u, s, step))
  {
    hide Successive, Accepted, Effect, DebtUntil, Apart, Sizes;
    match step
    case StartWorker => StartLimited(u, s);
    case Reserve => ReserveLimited(u, s);
    case Process(outcome) => ProcessLimited(u, s, outcome);
    case Take(n, err) => if err { DiscardedNotGranted(s.log, s.queue[..Min(n, |s.queue|)], Lost); }
    case Refuse =>
      DiscardedNotGranted(s.log, [s.hand[0]], Dropped);
      assert All([s.hand[0]], Dropped) == [Attempt(s.hand[0], Dropped)];
    case Cancel => DiscardedNotGranted(s.log, s.hand, Dropped);
    case _ =>
  }

  lemma {:induction false} RunLimited(u: Setup, s: State, steps: seq<Step>)
    requires GoodSetup(u) && Init(s) && Legal(u, s, steps)
    ensures Limited(u, Final(u, s, steps))
    decreases |steps|
  {
    if steps != [] {
      var rest := steps[..|steps|-1];
      RunLimited(u, s, rest);
      StepLimited(u, Final(u, s, rest), steps[|steps|-1]);
    }
  }

  /** Rate bound over every run of the drainer: the operations granted by worker runs `i` to
      `j` come due at most floor(R·T) + (j - i) times in any window of length `T`; and with
      workers that wake up to `lag` late, they go ahead at most floor(R·(T + lag)) + (j - i)
      times. Every executed or failed operation was granted once. */
  lemma DrainRateBound(u: Setup, s: State, steps: seq<Step>, i: nat, j: nat, a: real, length: real, lag: real)
    requires GoodSetup(u) && Init(s) && Legal(u, s, steps) && length >= 0.0 && lag >= 0.0
    requires i <= j <= |Final(u, s, steps).acts|
    ensures var f := Final(u, s, steps);
      && |f.woke| == |f.acts| && Granted(f.log) == Sizes(f.acts) == Sizes(f.woke)
      && TotalIn(f.acts[i..j], a, a + length) <= Budget(u.rate, length) + (j - i)
      && ((forall r :: i <= r < j ==> WithinLag(f.acts[r], f.woke[r], lag)) ==>
            TotalIn(f.woke[i..j], a, a + length) <= Budget(u.rate, length + lag) + (j - i))
  {
    hide After, Enabled, Owing, Budget;
    RunLimited(u, s, steps);
    var f := Final(u, s, steps);
    SameSizes(f.acts, f.woke);
    assert Successive(u.rate, f.acts[i..j]);
    RateBound(u.rate, f.acts[i..j], a, length);
    if forall r :: i <= r < j ==> WithinLag(f.acts[r], f.woke[r], lag) {
      RateBoundWithLag(u.rate, f.acts[i..j], f.woke[i..j], lag, a, length);
    }
  }

  lemma {:induction false} SameSizes(a: seq<seq<real>>, b: seq<seq<real>>)
    requires |a| == |b| && forall i :: 0 <= i < |a| ==> |a[i]| == |b[i]|
    ensures Sizes(a) == Sizes(b)
  {
    if a != [] { SameSizes(a[..|a|-1], b[..|b|-1]); }
  }

  /* ---------- why the bound grows with restarts ---------- */

  lemma StepOn(u: Setup, s: State, steps: seq<Step>, step: Step)
    requires GoodSetup(u) && Legal(u, s, steps) && Enabled(u, Final(u, s, steps), step)
    ensures Legal(u, s, steps + [step]) && Final(u, s, steps + [step]) == After(u, Final(u, s, steps), step)
  {
    hide Enabled, After;
    assert (steps + [step])[..|steps|] == steps;
  }

  /** A worker starts, takes one operation, is granted it at once, fails and exits. */
  lemma Round(u: Setup, s: State, steps: seq<Step>) returns (steps': seq<Step>)
    requires GoodSetup(u) && u.batch == 1 && Legal(u, s, steps)
    requires var f := Final(u, s, steps); f.worker.Down? && f.hand == [] && f.queue != [] && |f.acts| == |f.woke|
    ensures Legal(u, s, steps')
    ensures var f, f' := Final(u, s, steps), Final(u, s, steps');
      && f'.clock == f.clock && f'.worker.Down? && f'.hand == [] && f'.queue == f.queue[1..]
      && f'.acts == f.acts + [[f.clock]] && f'.woke == f.woke + [[f.clock]]
  {
    hide Legal, Final, Effect, InLast, TimeToAct, Reserved, Translatable;
    var f := Final(u, s, steps);
    var cause := if Translatable(u.c, f.queue[0]) then Fault else Untranslatable;
    StepOn(u, s, steps, StartWorker);
    steps' := steps + [StartWorker];
    StepOn(u, s, steps', Take(1, false));
    steps' := steps' + [Take(1, false)];
    StepOn(u, s, steps', Reserve);
    steps' := steps' + [Reserve];
    FullAtOnce(u.rate, f.clock);
    InNewRun(f.acts, f.clock);
    InNewRun(f.woke, f.clock);
    StepOn(u, s, steps', Process(Failed(cause)));
    steps' := steps' + [Process(Failed(cause))];
    StepOn(u, s, steps', ExitWorker);
    steps' := steps' + [ExitWorker];
  }

  lemma InNewRun(runs: seq<seq<real>>, x: real)
    ensures InLast(runs + [[]], x) == runs + [[x]]
  {
    assert (runs + [[]])[..|runs|] == runs;
    assert [] + [x] == [x];
  }

  lemma FullAtOnce(rate: real, now: real)
    requires rate > 0.0
    ensures TimeToAct(rate, NewLimiter(now), now) == now
  {
  }

  /** Each worker run has a full limiter, so the `k` in the bound is needed: with `k` operations
      queued, `k` restarts grant all of them at one instant. */
  lemma {:induction false} RestartsRefill(u: Setup, s: State, k: nat) returns (steps: seq<Step>)
    requires GoodSetup(u) && u.batch == 1 && Init(s) && k <= |s.queue|
    ensures Legal(u, s, steps)
    ensures var f := Final(u, s, steps);
      && f.worker.Down? && f.hand == [] && f.clock == s.clock && f.queue == s.queue[k..] && |f.woke| == |f.acts| == k
      && TotalIn(f.acts, s.clock, s.clock) == k && TotalIn(f.woke, s.clock, s.clock) == k
  {
    if k == 0 {
      steps := [];
    } else {
      hide Legal, Final;
      var before := RestartsRefill(u, s, k - 1);
      steps := Round(u, s, before);
      var f, f' := Final(u, s, before), Final(u, s, steps);
      OneMore(f.acts, s.clock);
      OneMore(f.woke, s.clock);
    }
  }

  lemma OneMore(runs: seq<seq<real>>, at: real)
    ensures TotalIn(runs + [[at]], at, at) == TotalIn(runs, at, at) + 1
  {
    assert (runs + [[at]])[..|runs|] == runs;
    assert [at][..0] == [];
    assert CountIn([at], at, at) == 1;
  }
}
