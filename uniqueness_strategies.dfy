/** The four uniqueness strategies that run a started job: the shared steps
    (run the payload and record its outcome, drop the duplicates, take the
    lock) and the order in which each strategy combines them. The lock
    outcome, the payload outcome and the memory reading are inputs; what
    happened, in order, is written to a trace. */
module UniquenessStrategies {
  import opened Basics
  import opened JobClass
  import opened JobRecord
  import opened JobsRepository
  import Sidekiq
  import opened UniquenessStrategy

  /** How the user's payload ends: it returns; it raises a StandardError of
      the given class with the given message, which perform_job_and_finalize
      rescues; or it raises an exception outside StandardError (an Interrupt
      such as Sidekiq::Shutdown, NoMemoryError), which is not rescued. */
  datatype Payload =
    | Success
    | Failure(errorType: string, message: string)
    | Aborted(errorType: string, message: string)

  /** How a strategy ends: it returns, or an error propagates to the caller. */
  datatype Outcome = Returned | Raised(error: Error)

  /** The steps whose order matters. */
  datatype Event =
    | LockAcquired(key: string, ttl: int)
    | LockMissed(key: string, ttl: int)
    | LockReleased(key: string)
    | PayloadRun(job: Option<Id>)
    | DuplicatesDropped(digest: string, droppedBy: Option<Id>)

  class Trace {
    var events: seq<Event>

    constructor ()
      ensures events == []
    {
      events := [];
    }

    method Log(e: Event)
      modifies this
      ensures events == old(events) + [e]
    {
      events := events + [e];
    }
  }

  /** The collaborators a strategy works with: the repository, the
      transport a reschedule pushes to, the trace, the configured lock TTL
      and the Sidekiq options of each worker class. */
  datatype Services = Services(
    repo: Repository,
    transport: Sidekiq.Transport,
    trace: Trace,
    lockTtl: Record -> int,
    classOptions: string -> Options)

  /** The object holds exactly its row. */
  ghost predicate Synced(job: Job, repo: Repository)
    reads job, repo
  {
    job.attributes.id.Some? && job.attributes.id.value in repo.table && repo.table[job.attributes.id.value] == job.attributes
  }

  // ---------------------------------------------------------------------------
  // What the shared steps compute

  /** The attributes after the payload ran and its outcome was recorded. */
  function AfterPayload(r: Record, payload: Payload, mb: int, now: Time): (s: Record)
    ensures payload.Failure? ==> s == AfterFail(r, payload.errorType, payload.message, now)
    ensures payload.Success? && r.memoryBefore.Some? ==> s == AfterComplete(r, mb, now)
    ensures s.id == r.id && s.digest == r.digest && s.attempts == r.attempts && s.startedAt == r.startedAt
    ensures payload.Failure? ==>
      s.completedAt == r.completedAt && s.memoryAfter == r.memoryAfter && s.memoryChange == r.memoryChange
    ensures payload.Aborted? ==> s == r
  {
    match payload
    case Aborted(_, _) => r
    case Failure(t, m) => AfterFail(r, t, m, now)
    case Success => if r.memoryBefore.Some? then AfterComplete(r, mb, now) else r.(memoryAfter := Some(mb))
  }

  /** Whether the outcome is written back: after a rescued failure, and
      after a return unless completing raises before the save; never after
      an exception that is not rescued. */
  predicate SavedAfterPayload(r: Record, payload: Payload)
  {
    payload.Failure? || (payload.Success? && r.memoryBefore.Some?)
  }

  /** What the caller sees: the payload's own error re-raised, the error of
      completing a never-started record, or a normal return. */
  function PayloadOutcome(r: Record, payload: Payload): (o: Outcome)
    ensures o == Returned <==> payload.Success? && r.memoryBefore.Some?
    ensures !payload.Success? ==> o == Raised(PayloadError(payload.errorType, payload.message))
  {
    match payload
    case Aborted(t, m) => Raised(PayloadError(t, m))
    case Failure(t, m) => Raised(PayloadError(t, m))
    case Success => if r.memoryBefore.Some? then Returned else Raised(TypeError(NilCoercion))
  }

  /** The table after perform_job_and_finalize on the row of r. */
  function FinalizedTable(t: Table, r: Record, payload: Payload, mb: int, now: Time): (u: Table)
    requires r.id.Some?
    ensures u.Keys == t.Keys + (if SavedAfterPayload(r, payload) then {r.id.value} else {})
    ensures forall k :: k in t && k != r.id.value ==> u[k] == t[k]
    ensures SavedAfterPayload(r, payload) ==> u[r.id.value] == AfterPayload(r, payload, mb, now)
  {
    if SavedAfterPayload(r, payload) then t[r.id.value := AfterPayload(r, payload, mb, now)] else t
  }

  /** An exception outside StandardError leaves the started row as it was:
      neither finished nor failed, so a sweep whose policy calls it missed
      picks it up again. A rescued failure is recorded, and a failed row is
      never swept. */
  lemma {:induction false} AbortedRowIsSwept(t: Table, r: Record, e: string, m: string, mb: int, now: Time,
                                             policy: (Record, Time) -> bool)
    requires r.id.Some? && r.id.value in t && t[r.id.value] == r
    requires !IsUnprocessable(r) && r.failedAt.None?
    ensures FinalizedTable(t, r, Aborted(e, m), mb, now) == t
    ensures policy(r, now) ==> r in MissedJobs(FinalizedTable(t, r, Aborted(e, m), mb, now), policy, now)
    ensures AfterPayload(r, Failure(e, m), mb, now) !in MissedJobs(FinalizedTable(t, r, Failure(e, m), mb, now), policy, now)
  {
  }

  /** The pushes after one reschedule of r. */
  function Rescheduled(pushes: seq<Sidekiq.Push>, r: Record, s: Services, now: Time): seq<Sidekiq.Push>
  {
    var p := ReschedulePush(r, s.classOptions, now);
    if s.transport.refuses(p) then pushes else pushes + [p]
  }

  // ---------------------------------------------------------------------------
  // The shared steps (Base)

  /** perform_job_and_finalize: run the payload; on a StandardError record
      the failure, save and re-raise; on any other exception re-raise with
      nothing recorded; otherwise record the completion and save. */
  method PerformJobAndFinalize(job: Job, s: Services, payload: Payload, mb: int, now: Time) returns (o: Outcome)
    requires s.repo.Valid() && Synced(job, s.repo)
    modifies job, s.repo, s.trace
    ensures s.repo.Valid() && s.repo.nextId == old(s.repo.nextId)
    ensures s.trace.events == old(s.trace.events) + [PayloadRun(old(job.attributes).id)]
    ensures job.attributes == AfterPayload(old(job.attributes), payload, mb, now)
    ensures s.repo.table == FinalizedTable(old(s.repo.table), old(job.attributes), payload, mb, now)
    ensures o == PayloadOutcome(old(job.attributes), payload)
    ensures SavedAfterPayload(old(job.attributes), payload) ==> Synced(job, s.repo)
  {
    s.trace.Log(PayloadRun(job.attributes.id));
    match payload {
      case Aborted(t, m) =>
        o := Raised(PayloadError(t, m));
      case Failure(t, m) =>
        job.Failed(t, m, now);
        var _ := s.repo.Save(job, now);
        o := Raised(PayloadError(t, m));
      case Success =>
        var err := job.Completed(mb, now);
        if err.Some? {
          return Raised(err.value);
        }
        var _ := s.repo.Save(job, now);
        o := Returned;
    }
  }

  /** drop_unprocessed_jobs: every other unprocessed row with the job's
      digest is dropped by the job; the job's own row is excluded. */
  method DropUnprocessedJobs(job: Job, s: Services, now: Time)
    requires s.repo.Valid() && Synced(job, s.repo)
    modifies s.repo, s.trace
    ensures s.repo.Valid() && s.repo.nextId == old(s.repo.nextId) && Synced(job, s.repo)
    ensures s.repo.table == DropByDigest(old(s.repo.table), job.attributes.digest, job.attributes.id, job.attributes.id, now)
    ensures s.trace.events == old(s.trace.events) + [DuplicatesDropped(job.attributes.digest, job.attributes.id)]
  {
    s.repo.DropUnprocessedJobsByDigest(job.attributes.id, job.attributes.digest, job.attributes.id, now);
    s.trace.Log(DuplicatesDropped(job.attributes.digest, job.attributes.id));
  }

  /** lock: ask the locker for the job's digest with the configured TTL for
      this job; whether it was granted is the input `acquired`. */
  method Lock(job: Job, s: Services, acquired: bool)
    modifies s.trace
    ensures var key, ttl := job.attributes.digest, s.lockTtl(job.attributes);
      s.trace.events == old(s.trace.events) + [if acquired then LockAcquired(key, ttl) else LockMissed(key, ttl)]
  {
    var key, ttl := job.attributes.digest, s.lockTtl(job.attributes);
    s.trace.Log(if acquired then LockAcquired(key, ttl) else LockMissed(key, ttl));
  }

  /** The end of the lock block: a granted lock is given back. */
  method Unlock(job: Job, s: Services)
    modifies s.trace
    ensures s.trace.events == old(s.trace.events) + [LockReleased(job.attributes.digest)]
  {
    s.trace.Log(LockReleased(job.attributes.digest));
  }

  // ---------------------------------------------------------------------------
  // The strategies

  /** The lock block when the lock is not granted: the miss is logged and
      the job is pushed again; nothing else changes. */
  method MissLock(job: Job, s: Services, now: Time)
    modifies s.trace, s.transport
    ensures s.trace.events == old(s.trace.events) + [LockMissed(job.attributes.digest, s.lockTtl(job.attributes))]
    ensures s.transport.pushes == Rescheduled(old(s.transport.pushes), job.attributes, s, now)
  {
    Lock(job, s, false);
    var _ := job.Reschedule(s.transport, s.classOptions, now);
  }


  /** NoUniqueness: the payload runs with no lock and nothing is dropped. */
  method ExecuteNoUniqueness(job: Job, s: Services, payload: Payload, mb: int, now: Time) returns (o: Outcome)
    requires s.repo.Valid() && Synced(job, s.repo)
    modifies job, s.repo, s.trace
    ensures s.repo.Valid() && s.repo.nextId == old(s.repo.nextId)
    ensures o == StrategyOutcome(NoUniqueness, old(job.attributes), false, payload)
    ensures s.repo.table == StrategyTable(NoUniqueness, old(s.repo.table), old(job.attributes), false, payload, mb, now)
    ensures s.trace.events ==
      old(s.trace.events) + StrategyTrace(NoUniqueness, old(job.attributes), s.lockTtl(old(job.attributes)), false, payload)
    ensures s.transport.pushes == StrategyPushes(NoUniqueness, old(s.transport.pushes), old(job.attributes), s, false, now)
    ensures job.attributes == AfterPayload(old(job.attributes), payload, mb, now)
  {
    o := PerformJobAndFinalize(job, s, payload, mb, now);
  }

  /** WhileExecuting: under the lock the payload runs; without it the job
      is pushed again and nothing else happens. Nothing is ever dropped. */
  method ExecuteWhileExecuting(job: Job, s: Services, acquired: bool, payload: Payload, mb: int, now: Time)
    returns (o: Outcome)
    requires s.repo.Valid() && Synced(job, s.repo)
    modifies job, s.repo, s.trace, s.transport
    ensures s.repo.Valid() && s.repo.nextId == old(s.repo.nextId)
    ensures o == StrategyOutcome(WhileExecuting, old(job.attributes), acquired, payload)
    ensures s.repo.table == StrategyTable(WhileExecuting, old(s.repo.table), old(job.attributes), acquired, payload, mb, now)
    ensures s.trace.events ==
      old(s.trace.events) + StrategyTrace(WhileExecuting, old(job.attributes), s.lockTtl(old(job.attributes)), acquired, payload)
    ensures s.transport.pushes == StrategyPushes(WhileExecuting, old(s.transport.pushes), old(job.attributes), s, acquired, now)
    ensures !acquired ==> job.attributes == old(job.attributes)
    ensures acquired ==> job.attributes == AfterPayload(old(job.attributes), payload, mb, now)
  {
    if acquired {
      Lock(job, s, true);
      o := PerformJobAndFinalize(job, s, payload, mb, now);
      Unlock(job, s);
    } else {
      MissLock(job, s, now);
      o := Returned;
    }
  }

  /** UntilExecuted's lock block when the lock is granted: the payload
      runs, the duplicates are dropped once it has returned, and the lock is
      given back. */
  method HoldUntilExecuted(job: Job, s: Services, payload: Payload, mb: int, now: Time) returns (o: Outcome)
    requires s.repo.Valid() && Synced(job, s.repo)
    modifies job, s.repo, s.trace
    ensures s.repo.Valid() && s.repo.nextId == old(s.repo.nextId)
    ensures job.attributes == AfterPayload(old(job.attributes), payload, mb, now)
    ensures o == PayloadOutcome(old(job.attributes), payload)
    ensures var r := old(job.attributes); var key, ttl := r.digest, s.lockTtl(r);
      o == Returned ==>
        s.trace.events == old(s.trace.events) + [LockAcquired(key, ttl)] + [PayloadRun(r.id)] +
          [DuplicatesDropped(key, r.id)] + [LockReleased(key)] &&
        s.repo.table == DropByDigest(FinalizedTable(old(s.repo.table), r, payload, mb, now), key, r.id, r.id, now)
    ensures var r := old(job.attributes); var key, ttl := r.digest, s.lockTtl(r);
      o != Returned ==>
        s.trace.events == old(s.trace.events) + [LockAcquired(key, ttl)] + [PayloadRun(r.id)] + [LockReleased(key)] &&
        s.repo.table == FinalizedTable(old(s.repo.table), r, payload, mb, now)
  {
    Lock(job, s, true);
    o := PerformJobAndFinalize(job, s, payload, mb, now);
    if o == Returned {
      DropUnprocessedJobs(job, s, now);
    }
    Unlock(job, s);
  }

  /** UntilExecuted: under the lock the payload runs and, once it has
      completed, the duplicates are dropped; a payload that raises leaves the
      duplicates alone. Without the lock the job is pushed again. */
  method ExecuteUntilExecuted(job: Job, s: Services, acquired: bool, payload: Payload, mb: int, now: Time)
    returns (o: Outcome)
    requires s.repo.Valid() && Synced(job, s.repo)
    modifies job, s.repo, s.trace, s.transport
    ensures s.repo.Valid() && s.repo.nextId == old(s.repo.nextId)
    ensures o == StrategyOutcome(UntilExecuted, old(job.attributes), acquired, payload)
    ensures s.repo.table == StrategyTable(UntilExecuted, old(s.repo.table), old(job.attributes), acquired, payload, mb, now)
    ensures s.trace.events ==
      old(s.trace.events) + StrategyTrace(UntilExecuted, old(job.attributes), s.lockTtl(old(job.attributes)), acquired, payload)
    ensures s.transport.pushes == StrategyPushes(UntilExecuted, old(s.transport.pushes), old(job.attributes), s, acquired, now)
    ensures !acquired ==> job.attributes == old(job.attributes)
    ensures acquired ==> job.attributes == AfterPayload(old(job.attributes), payload, mb, now)
  {
    if acquired {
      UntilExecutedSteps(s.trace.events, s.repo.table, job.attributes, s.lockTtl(job.attributes), payload, mb, now);
      o := HoldUntilExecuted(job, s, payload, mb, now);
    } else {
      MissLock(job, s, now);
      o := Returned;
    }
  }

  /** UntilExecuting's lock block when the lock is granted: the duplicates
      are dropped and the lock is given back. */
  method HoldUntilExecuting(job: Job, s: Services, now: Time)
    requires s.repo.Valid() && Synced(job, s.repo)
    modifies s.repo, s.trace
    ensures s.repo.Valid() && s.repo.nextId == old(s.repo.nextId) && Synced(job, s.repo)
    ensures var r := job.attributes; var key, ttl := r.digest, s.lockTtl(r);
      s.trace.events == old(s.trace.events) + [LockAcquired(key, ttl)] + [DuplicatesDropped(key, r.id)] +
        [LockReleased(key)] &&
      s.repo.table == DropByDigest(old(s.repo.table), key, r.id, r.id, now)
  {
    Lock(job, s, true);
    DropUnprocessedJobs(job, s, now);
    Unlock(job, s);
  }

  /** UntilExecuting: under the lock the duplicates are dropped; the lock is
      given back and then the payload runs. Without the lock the job is
      pushed again and the strategy returns. */
  method ExecuteUntilExecuting(job: Job, s: Services, acquired: bool, payload: Payload, mb: int, now: Time)
    returns (o: Outcome)
    requires s.repo.Valid() && Synced(job, s.repo)
    modifies job, s.repo, s.trace, s.transport
    ensures s.repo.Valid() && s.repo.nextId == old(s.repo.nextId)
    ensures o == StrategyOutcome(UntilExecuting, old(job.attributes), acquired, payload)
    ensures s.repo.table == StrategyTable(UntilExecuting, old(s.repo.table), old(job.attributes), acquired, payload, mb, now)
    ensures s.trace.events ==
      old(s.trace.events) + StrategyTrace(UntilExecuting, old(job.attributes), s.lockTtl(old(job.attributes)), acquired, payload)
    ensures s.transport.pushes == StrategyPushes(UntilExecuting, old(s.transport.pushes), old(job.attributes), s, acquired, now)
    ensures !acquired ==> job.attributes == old(job.attributes)
    ensures acquired ==> job.attributes == AfterPayload(old(job.attributes), payload, mb, now)
  {
    if acquired {
      UntilExecutingSteps(s.trace.events, s.repo.table, job.attributes, s.lockTtl(job.attributes), payload, mb, now);
      HoldUntilExecuting(job, s, now);
    } else {
      MissLock(job, s, now);
      return Returned;
    }
    o := PerformJobAndFinalize(job, s, payload, mb, now);
  }

  /** UntilExecuting as written: the lock-miss branch returns only when the
      reschedule yields a handle. When the transport refuses the push, control
      leaves the lock block and the payload runs although the lock was never
      granted. */
  method ExecuteUntilExecutingAsWritten(job: Job, s: Services, acquired: bool, payload: Payload, mb: int, now: Time)
    returns (o: Outcome)
    requires s.repo.Valid() && Synced(job, s.repo)
    modifies job, s.repo, s.trace, s.transport
    ensures s.repo.Valid() && s.repo.nextId == old(s.repo.nextId)
    ensures var r := old(job.attributes); var key, ttl := r.digest, s.lockTtl(r);
      !acquired && s.transport.refuses(ReschedulePush(r, s.classOptions, now)) ==>
        s.trace.events == old(s.trace.events) + [LockMissed(key, ttl)] + [PayloadRun(r.id)] &&
        s.repo.table == FinalizedTable(old(s.repo.table), r, payload, mb, now) &&
        o == PayloadOutcome(r, payload)
  {
    Lock(job, s, acquired);
    if acquired {
      DropUnprocessedJobs(job, s, now);
      Unlock(job, s);
    } else {
      var jid := job.Reschedule(s.transport, s.classOptions, now);
      if jid.Some? {
        return Returned;
      }
    }
    o := PerformJobAndFinalize(job, s, payload, mb, now);
  }

  // ---------------------------------------------------------------------------
  // What execute does, strategy by strategy

  /** Whether the strategy runs the payload: always without uniqueness,
      otherwise only under a granted lock. */
  predicate RunsPayload(st: Strategy, acquired: bool)
  {
    st == NoUniqueness || acquired
  }

  /** What execute returns: the payload's outcome when it ran, a normal
      return after a reschedule. */
  function StrategyOutcome(st: Strategy, r: Record, acquired: bool, payload: Payload): Outcome
  {
    if RunsPayload(st, acquired) then PayloadOutcome(r, payload) else Returned
  }

  /** The table after execute on the row of r. */
  function StrategyTable(st: Strategy, t: Table, r: Record, acquired: bool, payload: Payload, mb: int, now: Time): Table
    requires r.id.Some?
  {
    if !RunsPayload(st, acquired) then t
    else match st
      case NoUniqueness => FinalizedTable(t, r, payload, mb, now)
      case WhileExecuting => FinalizedTable(t, r, payload, mb, now)
      case UntilExecuted =>
        var fin := FinalizedTable(t, r, payload, mb, now);
        if PayloadOutcome(r, payload) == Returned then DropByDigest(fin, r.digest, r.id, r.id, now) else fin
      case UntilExecuting => FinalizedTable(DropByDigest(t, r.digest, r.id, r.id, now), r, payload, mb, now)
  }

  /** The steps execute logs, in order. */
  function StrategyTrace(st: Strategy, r: Record, ttl: int, acquired: bool, payload: Payload): seq<Event>
  {
    var key := r.digest;
    if st == NoUniqueness then [PayloadRun(r.id)]
    else if !acquired then [LockMissed(key, ttl)]
    else match st
      case WhileExecuting => [LockAcquired(key, ttl), PayloadRun(r.id), LockReleased(key)]
      case UntilExecuted =>
        [LockAcquired(key, ttl), PayloadRun(r.id)] +
        (if PayloadOutcome(r, payload) == Returned then [DuplicatesDropped(key, r.id)] else []) +
        [LockReleased(key)]
      case UntilExecuting => [LockAcquired(key, ttl), DuplicatesDropped(key, r.id), LockReleased(key), PayloadRun(r.id)]
  }

  /** The pushes after execute: one reschedule when the lock was missed. */
  function StrategyPushes(st: Strategy, pushes: seq<Sidekiq.Push>, r: Record, s: Services, acquired: bool, now: Time)
    : seq<Sidekiq.Push>
  {
    if RunsPayload(st, acquired) then pushes else Rescheduled(pushes, r, s, now)
  }

  /** UntilExecuting under the lock, step by step: the drop, the release,
      then the payload. */
  lemma UntilExecutingSteps(ev: seq<Event>, t: Table, r: Record, ttl: int, payload: Payload, mb: int, now: Time)
    requires r.id.Some?
    ensures ev + StrategyTrace(UntilExecuting, r, ttl, true, payload) ==
      ev + [LockAcquired(r.digest, ttl)] + [DuplicatesDropped(r.digest, r.id)] + [LockReleased(r.digest)] +
        [PayloadRun(r.id)]
    ensures StrategyTable(UntilExecuting, t, r, true, payload, mb, now) ==
      FinalizedTable(DropByDigest(t, r.digest, r.id, r.id, now), r, payload, mb, now)
  {
  }

  /** UntilExecuted under the lock, step by step: the drop only after a
      payload that returned. */
  lemma UntilExecutedSteps(ev: seq<Event>, t: Table, r: Record, ttl: int, payload: Payload, mb: int, now: Time)
    requires r.id.Some?
    ensures PayloadOutcome(r, payload) == Returned ==>
      ev + StrategyTrace(UntilExecuted, r, ttl, true, payload) ==
        ev + [LockAcquired(r.digest, ttl)] + [PayloadRun(r.id)] + [DuplicatesDropped(r.digest, r.id)] +
          [LockReleased(r.digest)] &&
      StrategyTable(UntilExecuted, t, r, true, payload, mb, now) ==
        DropByDigest(FinalizedTable(t, r, payload, mb, now), r.digest, r.id, r.id, now)
    ensures PayloadOutcome(r, payload) != Returned ==>
      ev + StrategyTrace(UntilExecuted, r, ttl, true, payload) ==
        ev + [LockAcquired(r.digest, ttl)] + [PayloadRun(r.id)] + [LockReleased(r.digest)] &&
      StrategyTable(UntilExecuted, t, r, true, payload, mb, now) == FinalizedTable(t, r, payload, mb, now)
  {
  }

  /** The payload runs once exactly when the strategy lets it, and a lock is
      released exactly when one was granted. */
  lemma StrategyTraceRunsPayload(st: Strategy, r: Record, ttl: int, acquired: bool, payload: Payload)
    ensures PayloadRun(r.id) in StrategyTrace(st, r, ttl, acquired, payload) <==> RunsPayload(st, acquired)
    ensures LockReleased(r.digest) in StrategyTrace(st, r, ttl, acquired, payload) <==> st != NoUniqueness && acquired
    ensures LockMissed(r.digest, ttl) in StrategyTrace(st, r, ttl, acquired, payload) <==> !RunsPayload(st, acquired)
  {
  }

  /** Duplicates are dropped only by the two "until" strategies, only under
      the lock, and by UntilExecuted only once the payload has returned;
      UntilExecuting drops them before the payload runs. */
  lemma StrategyTraceDrops(st: Strategy, r: Record, ttl: int, acquired: bool, payload: Payload)
    ensures var tr := StrategyTrace(st, r, ttl, acquired, payload);
      DuplicatesDropped(r.digest, r.id) in tr <==>
        acquired && (st == UntilExecuting || (st == UntilExecuted && PayloadOutcome(r, payload) == Returned))
    ensures st == UntilExecuting && acquired ==>
      var tr := StrategyTrace(st, r, ttl, acquired, payload);
      tr[1] == DuplicatesDropped(r.digest, r.id) && tr[3] == PayloadRun(r.id)
  {
  }

  /** A missed lock leaves the table as it was, and the strategies that
      never drop change no row but the job's own. */
  lemma {:induction false} StrategyTableUntouched(st: Strategy, t: Table, r: Record, acquired: bool, payload: Payload,
                                                  mb: int, now: Time)
    requires r.id.Some?
    ensures !RunsPayload(st, acquired) ==> StrategyTable(st, t, r, acquired, payload, mb, now) == t
    ensures st in {NoUniqueness, WhileExecuting} ==>
      var u := StrategyTable(st, t, r, acquired, payload, mb, now);
      forall k :: k in t && k != r.id.value ==> k in u && u[k] == t[k]
  {
  }

  /** The rows outside a digest are the same in both tables. */
  ghost predicate AgreeOutside(t: Table, u: Table, digest: string)
  {
    forall k :: k in t && t[k].digest != digest ==> k in u && u[k] == t[k]
  }

  /** Whichever way the payload is combined with the bulk drop, rows with
      another digest are untouched and the job's own row keeps its attempt
      count and start time. */
  lemma {:induction false} CombinedTablesAgree(t: Table, r: Record, payload: Payload, mb: int, now: Time)
    requires r.id.Some? && r.id.value in t && t[r.id.value] == r
    ensures var fin := FinalizedTable(t, r, payload, mb, now);
      var finDrop := DropByDigest(fin, r.digest, r.id, r.id, now);
      var dropFin := FinalizedTable(DropByDigest(t, r.digest, r.id, r.id, now), r, payload, mb, now);
      (forall u | u in {t, fin, finDrop, dropFin} ::
        u.Keys == t.Keys && AgreeOutside(t, u, r.digest) &&
        u[r.id.value].attempts == r.attempts && u[r.id.value].startedAt == r.startedAt)
  {
    var k := r.id.value;
    var fin := FinalizedTable(t, r, payload, mb, now);
    assert fin[k].digest == r.digest;
    var finDrop := DropByDigest(fin, r.digest, r.id, r.id, now);
    assert k !in UnprocessedForDigest(fin, r.digest, r.id);
    assert finDrop[k] == fin[k];
    var dropped := DropByDigest(t, r.digest, r.id, r.id, now);
    assert k !in UnprocessedForDigest(t, r.digest, r.id);
    assert dropped[k] == r;
  }

  /** Whichever strategy runs, rows with another digest are untouched and
      the job's own row keeps its attempt count and start time. */
  lemma {:induction false} StrategyTablesAgree(st: Strategy, t: Table, r: Record, acquired: bool, payload: Payload,
                                               mb: int, now: Time)
    requires r.id.Some? && r.id.value in t && t[r.id.value] == r
    ensures var u := StrategyTable(st, t, r, acquired, payload, mb, now);
      u.Keys == t.Keys && AgreeOutside(t, u, r.digest) &&
      u[r.id.value].attempts == r.attempts && u[r.id.value].startedAt == r.startedAt
  {
    CombinedTablesAgree(t, r, payload, mb, now);
    var fin := FinalizedTable(t, r, payload, mb, now);
    var finDrop := DropByDigest(fin, r.digest, r.id, r.id, now);
    var dropFin := FinalizedTable(DropByDigest(t, r.digest, r.id, r.id, now), r, payload, mb, now);
    assert StrategyTable(st, t, r, acquired, payload, mb, now) in {t, fin, finDrop, dropFin};
  }

  /** execute on the resolved strategy: the outcome, table, trace and
      pushes the strategy calls for. Whatever the strategy, rows with another
      digest are untouched and the job's row keeps its attempt count and
      start time. */
  method Execute(strategy: Strategy, job: Job, s: Services, acquired: bool, payload: Payload, mb: int, now: Time)
    returns (o: Outcome)
    requires s.repo.Valid() && Synced(job, s.repo)
    modifies job, s.repo, s.trace, s.transport
    ensures s.repo.Valid() && s.repo.nextId == old(s.repo.nextId)
    ensures o == StrategyOutcome(strategy, old(job.attributes), acquired, payload)
    ensures s.repo.table == StrategyTable(strategy, old(s.repo.table), old(job.attributes), acquired, payload, mb, now)
    ensures s.trace.events ==
      old(s.trace.events) + StrategyTrace(strategy, old(job.attributes), s.lockTtl(old(job.attributes)), acquired, payload)
    ensures s.transport.pushes == StrategyPushes(strategy, old(s.transport.pushes), old(job.attributes), s, acquired, now)
    ensures !RunsPayload(strategy, acquired) ==> job.attributes == old(job.attributes)
    ensures RunsPayload(strategy, acquired) ==> job.attributes == AfterPayload(old(job.attributes), payload, mb, now)
    ensures s.repo.table.Keys == old(s.repo.table.Keys)
    ensures AgreeOutside(old(s.repo.table), s.repo.table, old(job.attributes).digest)
    ensures var k := old(job.attributes).id.value;
      s.repo.table[k].attempts == old(job.attributes).attempts &&
      s.repo.table[k].startedAt == old(job.attributes).startedAt
  {
    StrategyTablesAgree(strategy, s.repo.table, job.attributes, acquired, payload, mb, now);
    match strategy {
      case NoUniqueness =>
        o := ExecuteNoUniqueness(job, s, payload, mb, now);
      case UntilExecuting =>
        o := ExecuteUntilExecuting(job, s, acquired, payload, mb, now);
      case UntilExecuted =>
        o := ExecuteUntilExecuted(job, s, acquired, payload, mb, now);
      case WhileExecuting =>
        o := ExecuteWhileExecuting(job, s, acquired, payload, mb, now);
    }
  }
}
