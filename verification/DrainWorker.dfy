/** The drainer's `run` loop as a program. Every way it can go, with producers and the clock
    moving whenever it is not looking, is a run of the step system in `Drain`. */
module DrainWorker {
  import opened GoText
  import opened Sql
  import opened WriteOps
  import opened RateLimit
  import opened Queues
  import opened Drain
  import WriteBack

  const DEFAULT_DRAIN_RATE := 50
  const DEFAULT_BATCH_SIZE := 1

  datatype Verdict = Granted | Refused | Cancelled

  class Drainer {
    const u: Setup
    const queue: MemoryQueue<WriteOp>
    var clock: real
    var db: Db
    ghost var origin: State
    ghost var trace: seq<Step>
    ghost var s: State

    ghost predicate Valid()
      reads this, queue
    {
      && GoodSetup(u) && queue.Valid()
      && s.clock == clock && s.db == db && s.queue == queue.queue && s.enqueued == queue.enqueued
      && Legal(u, origin, trace) && s == Final(u, origin, trace)
    }

    /** `NewDrainer` replaces a rate or batch size that is not positive. */
    constructor (c: Config, q: MemoryQueue<WriteOp>, drainRate: int, batchSize: int, clock0: real, db0: Db)
      requires q.Valid() && q.dequeued == []
      ensures Valid() && queue == q && Init(s) && s == origin && db == db0 && u.c == c
      ensures u.rate == if drainRate > 0 then drainRate as real else 50.0
      ensures u.batch == if batchSize > 0 then batchSize else 1
    {
      var rate := if drainRate <= 0 then DEFAULT_DRAIN_RATE else drainRate;
      var batch := if batchSize <= 0 then DEFAULT_BATCH_SIZE else batchSize;
      u, queue, clock, db := Setup(c, rate as real, batch), q, clock0, db0;
      s, trace := State(clock0, q.enqueued, q.queue, [], [], db0, Down, [], []), [];
      origin := State(clock0, q.enqueued, q.queue, [], [], db0, Down, [], []);
    }

    ghost method Note(step: Step)
      requires GoodSetup(u) && Legal(u, origin, trace) && s == Final(u, origin, trace) && Enabled(u, s, step)
      modifies this`s, this`trace
      ensures Legal(u, origin, trace) && s == Final(u, origin, trace)
      ensures s == Drain.After(u, old(s), step) && trace == old(trace) + [step]
    {
      hide Drain.After, Enabled;
      trace := trace + [step];
      s := Drain.After(u, s, step);
      assert trace[..|trace|-1] == old(trace);
    }

    /** Time passes and producers enqueue; on a calm day they do not. */
    method Elapse(calm: bool)
      requires Valid()
      modifies this`clock, this`s, this`trace, queue
      ensures Valid() && clock >= old(clock) && old(trace) <= trace
      ensures s.hand == old(s.hand) && s.worker == old(s.worker) && s.log == old(s.log)
      ensures old(queue.queue) <= queue.queue && (calm ==> queue.queue == old(queue.queue))
    {
      hide Legal, Final;
      var events: nat :| events >= 0;
      for i := 0 to events
        invariant Valid() && clock >= old(clock) && old(trace) <= trace
        invariant s.hand == old(s.hand) && s.worker == old(s.worker) && s.log == old(s.log)
        invariant old(queue.queue) <= queue.queue && (calm ==> queue.queue == old(queue.queue))
      {
        var op: WriteOp := *;
        var dt: real := *;
        var produced: bool := *;
        if produced && !calm {
          var reply := queue.Enqueue(op, false);
          if reply.Enqueued? { Note(Step.Enqueue(op)); }
        } else if dt >= 0.0 {
          Note(Tick(dt));
          clock := clock + dt;
        }
      }
    }

    /** Sleep until `act` or later. */
    method SleepUntil(act: real, calm: bool)
      requires Valid()
      modifies this`clock, this`s, this`trace, queue
      ensures Valid() && clock >= act && old(trace) <= trace
      ensures s.hand == old(s.hand) && s.worker == old(s.worker) && s.log == old(s.log)
      ensures calm ==> queue.queue == old(queue.queue)
    {
      hide Legal, Final;
      Elapse(calm);
      if clock < act {
        Note(Tick(act - clock));
        clock := act;
        Elapse(calm);
      }
    }

    /** `ExecuteWriteOperation`: translate, then execute; `fault` is a database error of its own.
        Without one, a translatable operation succeeds exactly when the database takes its
        statement, and on rows: unless it creates a key that is there. */
    method ExecuteWriteOperation(op: WriteOp, fault: bool) returns (ok: bool, ghost outcome: Outcome)
      modifies this`db
      ensures Accepted(u, old(db), op, outcome) && db == Effect(u.c, old(db), outcome)
      ensures ok <==> outcome.Executed?
      ensures outcome == Failed(Untranslatable) <==> !Translatable(u.c, op)
      ensures outcome == Failed(Fault) <==> Translatable(u.c, op) && fault
      ensures GoodConfig(u.c) && Sound(u.c, op) && RowsNotNull(u.c.s, old(db)) ==>
        && (ok <==> !fault && !(op.kind == OperationCreate && Lookup(old(db), op.key.n).Some?))
        && (ok ==> WriteBack.Applicable(u.c, op) && Applied(u.c, op.key.n, op, old(db), db))
    {
      hide Translatable, Translates, Exec, GoodConfig, OpOk, RowsNotNull, Applied;
      ghost var before := db;
      var statement := StatementFor(u.c, op);
      if statement.None? {
        outcome := Failed(Untranslatable);
        OutcomeOnRows(u, before, op, outcome);
        return false, outcome;
      }
      var stmt, args := statement.value.0, statement.value.1;
      if fault {
        outcome := Failed(Fault);
        return false, outcome;
      }
      var result := Exec(u.c.s, db, stmt, args);
      if result.None? {
        outcome := Failed(Rejected(stmt, args));
        OutcomeOnRows(u, before, op, outcome);
        return false, outcome;
      }
      db := result.value;
      outcome := Executed(stmt, args);
      OutcomeOnRows(u, before, op, outcome);
      return true, outcome;
    }

    /** `limiter.Wait`: refused, cancelled, or granted at the time to act. A cancelled wait ends
        the worker and drops what it has in hand. */
    method Wait(limiter: Limiter, calm: bool) returns (limiter': Limiter, verdict: Verdict)
      requires Valid() && s.hand != [] && s.worker == Up(limiter, None)
      modifies this`clock, this`s, this`trace, queue
      ensures Valid() && old(trace) <= trace && Drain.Granted(s.log) == Drain.Granted(old(s.log))
      ensures calm ==> verdict.Granted? && queue.queue == old(queue.queue)
      ensures verdict.Cancelled? ==> s.worker.Down? && s.hand == []
      ensures verdict.Refused? ==> s.worker == Up(limiter', None) && s.hand == old(s.hand)[1..]
      ensures verdict.Granted? ==> s.hand == old(s.hand) && s.log == old(s.log) && s.worker.Up?
      ensures verdict.Granted? ==> s.worker.limiter == limiter' && s.worker.due.Some? && s.worker.due.value <= clock
    {
      hide Legal, Final, Reserved, TimeToAct, Drain.Granted, All;
      limiter' := limiter;
      DiscardedNotGranted(s.log, s.hand, Dropped);
      RefusedNotGranted(s.log, s.hand[0]);
      var cancelled: bool := *;
      var refused: bool := *;
      if cancelled && !calm {
        Note(Cancel);
        return limiter', Cancelled;
      }
      if refused && !calm {
        Note(Refuse);
        return limiter', Refused;
      }
      var act := TimeToAct(u.rate, limiter, clock);
      limiter' := Reserved(u.rate, limiter, clock);
      Note(Reserve);
      Elapse(calm);
      cancelled := *;
      if cancelled && !calm {
        Note(Cancel);
        return limiter', Cancelled;
      }
      SleepUntil(act, calm);
      return limiter', Verdict.Granted;
    }

    /** Executing the operation the limiter granted. */
    method Perform(op: WriteOp)
      requires Valid() && s.hand != [] && s.hand[0] == op
      requires s.worker.Up? && s.worker.due.Some? && s.worker.due.value <= clock
      modifies this`db, this`s, this`trace
      ensures Valid() && old(trace) <= trace && Drain.Granted(s.log) == Drain.Granted(old(s.log)) + 1
      ensures s.worker == old(s.worker).(due := None) && s.hand == old(s.hand)[1..]
    {
      hide Legal, Final, Accepted, Effect, Drain.Granted;
      var fault: bool := *;
      var ok, outcome := ExecuteWriteOperation(op, fault);
      AcceptedGranted(u, s.db, op, outcome);
      GrantedOne(s.log, Attempt(op, outcome));
      Note(Process(outcome));
    }

    /** The worker loop, observed for any number of iterations or until it exits. On a calm day,
        when nobody produces, stops, cancels or refuses, a worker that takes one at a time
        grants one operation in every iteration until the queue is empty. */
    method Run(iterations: nat, calm: bool) returns (exited: bool, operationCount: nat)
      requires Valid() && s.worker.Down? && s.hand == []
      modifies this`clock, this`db, this`s, this`trace, queue
      ensures Valid() && s.hand == [] && old(trace) <= trace
      ensures s.worker.Down? <==> exited
      ensures operationCount == Drain.Granted(s.log) - Drain.Granted(old(s.log))
      ensures calm && u.batch == 1 ==> !exited && operationCount == Min(iterations, |old(queue.queue)|)
      ensures calm && u.batch == 1 ==> queue.queue == old(queue.queue)[Min(iterations, |old(queue.queue)|)..]
    {
      hide Legal, Final, Accepted, Effect, Reserved, TimeToAct, Drain.After, Drain.Granted;
      Starts(u, s);
      Note(StartWorker);
      var limiter := NewLimiter(clock);
      exited, operationCount := false, 0;
      for i := 0 to iterations
        invariant Valid() && s.hand == [] && !exited && s.worker == Up(limiter, None)
        invariant old(trace) <= trace && operationCount == Drain.Granted(s.log) - Drain.Granted(old(s.log))
        invariant calm && u.batch == 1 ==> operationCount == Min(i, |old(queue.queue)|)
        invariant calm && u.batch == 1 ==> queue.queue == old(queue.queue)[Min(i, |old(queue.queue)|)..]
      {
        Elapse(calm);
        var stopped: bool := *;
        if stopped && !calm {
          Exits(u, s);
          Note(ExitWorker);
          return true, operationCount;
        }
        var operations := TakeBatch(calm);
        var count;
        limiter, exited, count := HandleBatch(operations, limiter, calm);
        operationCount := operationCount + count;
        if exited { return exited, operationCount; }
      }
    }

    /** Each operation of a batch: wait for the limiter, then execute. */
    method HandleBatch(operations: seq<WriteOp>, limiter: Limiter, calm: bool)
      returns (limiter': Limiter, exited: bool, count: nat)
      requires Valid() && s.hand == operations && s.worker == Up(limiter, None)
      modifies this`clock, this`db, this`s, this`trace, queue
      ensures Valid() && s.hand == [] && old(trace) <= trace
      ensures exited ==> s.worker.Down?
      ensures !exited ==> s.worker == Up(limiter', None)
      ensures count == Drain.Granted(s.log) - Drain.Granted(old(s.log))
      ensures calm ==> !exited && count == |operations| && queue.queue == old(queue.queue)
    {
      hide Legal, Final, Accepted, Effect, Reserved, TimeToAct, Drain.After, Drain.Granted;
      limiter', exited, count := limiter, false, 0;
      for k := 0 to |operations|
        invariant Valid() && s.hand == operations[k..] && s.worker == Up(limiter', None)
        invariant old(trace) <= trace && count == Drain.Granted(s.log) - Drain.Granted(old(s.log))
        invariant calm ==> count == k && queue.queue == old(queue.queue)
      {
        Elapse(calm);
        var verdict;
        limiter', verdict := Wait(limiter', calm);
        if verdict.Cancelled? { return limiter', true, count; }
        if verdict.Granted? {
          count := count + 1;
          Perform(operations[k]);
        }
      }
    }

    /** The size check and the dequeue; what a failing dequeue popped is lost. */
    method TakeBatch(calm: bool) returns (operations: seq<WriteOp>)
      requires Valid() && s.hand == [] && s.worker.Up? && s.worker.due.None?
      modifies this`s, this`trace, queue
      ensures Valid() && s.hand == operations && s.worker == old(s.worker)
      ensures old(trace) <= trace && Drain.Granted(s.log) == Drain.Granted(old(s.log))
      ensures calm ==> |operations| == Min(u.batch, |old(queue.queue)|) && old(queue.queue) == operations + queue.queue
    {
      hide Legal, Final, All, Drain.Granted;
      var queueSize := queue.Size();
      if queueSize == 0 { return []; }
      var cancelled: bool := *;
      var err;
      operations, err := queue.Dequeue(u.batch, cancelled && !calm);
      assert s.queue[..|operations|] == operations && s.queue[|operations|..] == queue.queue;
      DiscardedNotGranted(s.log, operations, Lost);
      Note(Take(|operations|, err));
      if err { operations := []; }
    }
  }

  lemma OutcomeOnRows(u: Setup, db: Db, op: WriteOp, outcome: Outcome)
    requires Accepted(u, db, op, outcome) && outcome != Failed(Fault)
    ensures GoodConfig(u.c) && Sound(u.c, op) && RowsNotNull(u.c.s, db) ==>
      && (outcome.Failed? <==> op.kind == OperationCreate && Lookup(db, op.key.n).Some?)
      && (outcome.Executed? ==>
            WriteBack.Applicable(u.c, op) && Applied(u.c, op.key.n, op, db, Effect(u.c, db, outcome)))
  {
    hide GoodConfig, OpOk, Exec, Translates, Translatable, RowsNotNull, Applied;
    if GoodConfig(u.c) && Sound(u.c, op) && RowsNotNull(u.c.s, db) {
      AttemptExact(u, db, Attempt(op, outcome));
      SoundApplicable(u.c, op);
      if outcome.Executed? { ExecuteMeaning(u.c, op.key.n, op, outcome.stmt, outcome.args, db); }
    }
  }

  lemma GrantedOne(log: seq<Attempt>, a: Attempt)
    requires a.outcome.Executed? || a.outcome.Failed?
    ensures Drain.Granted(log + [a]) == Drain.Granted(log) + 1
  {
    assert (log + [a])[..|log|] == log;
  }

  lemma RefusedNotGranted(log: seq<Attempt>, op: WriteOp)
    ensures Drain.Granted(log + [Attempt(op, Dropped)]) == Drain.Granted(log)
  {
    assert (log + [Attempt(op, Dropped)])[..|log|] == log;
  }

  lemma Starts(u: Setup, s: State)
    requires GoodSetup(u)
    ensures Drain.After(u, s, StartWorker)
         == s.(worker := Up(NewLimiter(s.clock), None), acts := s.acts + [[]], woke := s.woke + [[]])
  {
  }

  lemma Exits(u: Setup, s: State)
    requires GoodSetup(u)
    ensures Drain.After(u, s, ExitWorker) == s.(worker := Down)
  {
  }
}
