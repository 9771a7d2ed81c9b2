/** The persisted job record: its columns, the predicates that decide whether
    it may still run, the field updates applied as it moves through its life,
    the validations checked when it is saved, and the in-memory object that
    carries those updates until the repository writes them. */
module JobRecord {
  import opened Basics
  import opened JobClass
  import Sidekiq
  import UniquenessStrategy
  import EnqueueConflictResolutionStrategy

  /** The columns of one job row. */
  datatype Record = Record(
    id: Option<Id>,                  // None until the row is inserted
    jobClass: string,
    arguments: seq<string>,
    digest: string,
    queue: string,
    uniquenessStrategy: string,
    conflictStrategy: string,        // enqueue_conflict_resolution_strategy
    enqueuedAt: Option<Time>,
    executeAt: Option<Time>,
    sidekiqJid: Option<Jid>,
    startedAt: Option<Time>,
    completedAt: Option<Time>,
    failedAt: Option<Time>,
    droppedAt: Option<Time>,
    droppedByJobId: Option<Id>,
    errorType: Option<string>,
    errorMessage: Option<string>,
    attempts: int,
    memoryBefore: Option<int>,       // memory_usage_before_processing_in_megabytes
    memoryAfter: Option<int>,        // memory_usage_after_processing_in_megabytes
    memoryChange: Option<int>,       // memory_usage_change_in_megabytes
    createdAt: Option<Time>)

  predicate IsCompleted(r: Record)
  {
    r.completedAt.Some?
  }

  predicate IsDropped(r: Record)
  {
    r.droppedAt.Some?
  }

  /** A record that completed or was dropped is never run again. */
  predicate IsUnprocessable(r: Record)
  {
    IsCompleted(r) || IsDropped(r)
  }

  // ---------------------------------------------------------------------------
  // Field updates

  /** started: the memory reading, one more attempt, the start time. */
  function AfterStart(r: Record, mb: int, now: Time): (s: Record)
    ensures s.memoryBefore == Some(mb) && s.attempts == r.attempts + 1 && s.startedAt == Some(now)
    ensures s == r.(memoryBefore := s.memoryBefore, attempts := s.attempts, startedAt := s.startedAt)
    ensures IsUnprocessable(s) == IsUnprocessable(r)
  {
    r.(memoryBefore := Some(mb), attempts := r.attempts + 1, startedAt := Some(now))
  }

  /** completed: the memory reading after the payload and its difference to
      the reading before, the completion time, and every trace of an earlier
      drop or failure wiped. The record is then unprocessable. */
  function AfterComplete(r: Record, mb: int, now: Time): (s: Record)
    requires r.memoryBefore.Some?
    ensures s.memoryAfter == Some(mb) && s.memoryChange == Some(mb - r.memoryBefore.value)
    ensures s.completedAt == Some(now)
    ensures s.droppedAt.None? && s.droppedByJobId.None? && s.failedAt.None?
    ensures s.errorType.None? && s.errorMessage.None?
    ensures s == r.(memoryAfter := s.memoryAfter, memoryChange := s.memoryChange, completedAt := s.completedAt,
                    droppedAt := None, droppedByJobId := None, errorType := None, errorMessage := None,
                    failedAt := None)
    ensures IsCompleted(s) && !IsDropped(s) && IsUnprocessable(s)
  {
    r.(memoryAfter := Some(mb), memoryChange := Some(mb - r.memoryBefore.value), completedAt := Some(now),
       droppedAt := None, droppedByJobId := None, errorType := None, errorMessage := None, failedAt := None)
  }

  /** failed: the error's class and message and the failure time; whether the
      record may run again is left as it was. */
  function AfterFail(r: Record, errorType: string, message: string, now: Time): (s: Record)
    ensures s.errorType == Some(errorType) && s.errorMessage == Some(message) && s.failedAt == Some(now)
    ensures s == r.(errorType := s.errorType, errorMessage := s.errorMessage, failedAt := s.failedAt)
    ensures s.completedAt == r.completedAt && s.droppedAt == r.droppedAt
    ensures IsUnprocessable(s) == IsUnprocessable(r)
  {
    r.(errorType := Some(errorType), errorMessage := Some(message), failedAt := Some(now))
  }

  /** drop: the drop time and the record that caused it. The record is then
      unprocessable. */
  function AfterDrop(r: Record, droppedBy: Option<Id>, now: Time): (s: Record)
    ensures s.droppedAt == Some(now) && s.droppedByJobId == droppedBy
    ensures s == r.(droppedAt := s.droppedAt, droppedByJobId := s.droppedByJobId)
    ensures IsDropped(s) && IsUnprocessable(s)
  {
    r.(droppedAt := Some(now), droppedByJobId := droppedBy)
  }

  /** assign_sidekiq_data: when the transport will run it and its handle. */
  function WithSidekiqData(r: Record, executeAt: Time, jid: Option<Jid>): (s: Record)
    ensures s.executeAt == Some(executeAt) && s.sidekiqJid == jid
    ensures s == r.(executeAt := s.executeAt, sidekiqJid := s.sidekiqJid)
    ensures IsUnprocessable(s) == IsUnprocessable(r)
  {
    r.(executeAt := Some(executeAt), sidekiqJid := jid)
  }

  /** A completed record stays completed whatever failure is recorded after
      it, and completing wipes a drop and a failure recorded before it. */
  lemma {:induction false} CompletionDominates(r: Record, mb: int, now: Time, t: string, m: string, dropper: Option<Id>, later: Time)
    requires r.memoryBefore.Some?
    ensures IsUnprocessable(AfterFail(AfterComplete(r, mb, now), t, m, later))
    ensures var c := AfterComplete(AfterFail(AfterDrop(r, dropper, later), t, m, later), mb, now);
      !IsDropped(c) && c.failedAt.None? && c.errorType.None? && IsUnprocessable(c)
  {
  }

  // ---------------------------------------------------------------------------
  // Validations

  /** Object#present? of a string column. */
  predicate Present(s: string)
  {
    !Blank(s)
  }

  /** The presence validations, checked on every save. */
  predicate PresenceValid(r: Record)
  {
    Present(r.jobClass) && r.enqueuedAt.Some? && Present(r.digest) && Present(r.queue)
  }

  /** The uniqueness tags a new record may carry. */
  const CreatableUniqueness: set<string> := {
    UniquenessStrategy.Name(UniquenessStrategy.NoUniqueness),
    UniquenessStrategy.Name(UniquenessStrategy.UntilExecuting),
    UniquenessStrategy.Name(UniquenessStrategy.UntilExecuted)
  }

  /** The conflict resolution tags a new record may carry. */
  const CreatableConflict: set<string> := {
    EnqueueConflictResolutionStrategy.Name(EnqueueConflictResolutionStrategy.DoNothing),
    EnqueueConflictResolutionStrategy.Name(EnqueueConflictResolutionStrategy.DropSelf),
    EnqueueConflictResolutionStrategy.Name(EnqueueConflictResolutionStrategy.Replace)
  }

  /** The validations checked when a record is inserted: presence, and both
      strategy tags among the accepted ones. */
  predicate ValidForCreate(r: Record)
  {
    PresenceValid(r) && r.uniquenessStrategy in CreatableUniqueness && r.conflictStrategy in CreatableConflict
  }

  /** Every tag a record can be created with resolves; while_executing
      resolves too, yet no record carrying it can be created. */
  lemma {:induction false} CreatableTagsResolve(r: Record)
    ensures ValidForCreate(r) ==>
      UniquenessStrategy.Resolve(r.uniquenessStrategy).Ok? &&
      EnqueueConflictResolutionStrategy.Resolve(r.conflictStrategy).Ok?
    ensures UniquenessStrategy.Resolve("while_executing") == Ok(UniquenessStrategy.WhileExecuting)
    ensures ValidForCreate(r) ==> r.uniquenessStrategy != "while_executing"
  {
  }

  /** The field updates never touch the presence-validated columns, so a
      record that passed validation keeps passing it. */
  lemma {:induction false} UpdatesKeepPresence(r: Record, mb: int, now: Time, t: string, m: string, dropper: Option<Id>, jid: Option<Jid>)
    requires PresenceValid(r)
    ensures PresenceValid(AfterStart(r, mb, now)) && PresenceValid(AfterFail(r, t, m, now))
    ensures PresenceValid(AfterDrop(r, dropper, now)) && PresenceValid(WithSidekiqData(r, now, jid))
    ensures r.memoryBefore.Some? ==> PresenceValid(AfterComplete(r, mb, now))
  {
  }

  // ---------------------------------------------------------------------------
  // Rescheduling

  /** The push reschedule makes: the record's worker class, the record id,
      run after the class's reschedule interval (5 seconds unless the class
      sets one), on the class's queue. */
  function ReschedulePush(r: Record, classOptions: string -> Options, now: Time): (p: Sidekiq.Push)
    ensures p.jobClass == r.jobClass && p.jobId == r.id
    ensures p.at == Some(now + RescheduleInterval(classOptions(r.jobClass)))
    ensures "reschedule_interval_in_seconds" !in classOptions(r.jobClass) ==> p.at == Some(now + 5)
    ensures p.queue == QueueOf(classOptions(r.jobClass))
  {
    Sidekiq.Push(r.jobClass, r.id, Some(now + RescheduleInterval(classOptions(r.jobClass))),
                 QueueOf(classOptions(r.jobClass)))
  }

  /** reschedule: exactly one push of the record, and the transport's handle. */
  method PushReschedule(r: Record, transport: Sidekiq.Transport, classOptions: string -> Options, now: Time)
    returns (jid: Option<Jid>)
    modifies transport
    ensures var p := ReschedulePush(r, classOptions, now);
      if transport.refuses(p) then jid == None && transport.pushes == old(transport.pushes)
      else jid == Some(|old(transport.pushes)|) && transport.pushes == old(transport.pushes) + [p]
  {
    jid := transport.Schedule(ReschedulePush(r, classOptions, now));
  }

  // ---------------------------------------------------------------------------
  // The in-memory record

  /** What Ruby raises when nil is subtracted from a number. */
  const NilCoercion: string := "nil can't be coerced into Integer"

  /** A record loaded into memory. Like an ActiveRecord object it keeps its
      attribute values together in one attribute set; its setters change the
      object only, and the row changes when the repository saves the object. */
  class Job {
    var attributes: Record

    /** An object holding the given attribute values. */
    constructor Load(r: Record)
      ensures attributes == r
    {
      attributes := r;
    }

    /** Store the id and creation time the database assigned on insert. */
    method AssignInsertData(newId: Id, now: Time)
      modifies this
      ensures attributes == old(attributes).(id := Some(newId), createdAt := Some(now))
    {
      attributes := attributes.(id := Some(newId), createdAt := Some(now));
    }

    method Started(mb: int, now: Time)
      modifies this
      ensures attributes == AfterStart(old(attributes), mb, now)
    {
      attributes := AfterStart(attributes, mb, now);
    }

    /** completed: the memory reading is stored first; a record that never
        started has no reading before, so the subtraction raises and the
        remaining assignments do not happen. */
    method Completed(mb: int, now: Time) returns (err: Option<Error>)
      modifies this
      ensures old(attributes).memoryBefore.Some? ==>
        err == None && attributes == AfterComplete(old(attributes), mb, now)
      ensures old(attributes).memoryBefore.None? ==>
        err == Some(TypeError(NilCoercion)) && attributes == old(attributes).(memoryAfter := Some(mb))
    {
      attributes := attributes.(memoryAfter := Some(mb));
      if attributes.memoryBefore.None? {
        return Some(TypeError(NilCoercion));
      }
      attributes := AfterComplete(attributes, mb, now);
      err := None;
    }

    method Failed(errType: string, message: string, now: Time)
      modifies this
      ensures attributes == AfterFail(old(attributes), errType, message, now)
    {
      attributes := AfterFail(attributes, errType, message, now);
    }

    method Drop(droppedBy: Option<Id>, now: Time)
      modifies this
      ensures attributes == AfterDrop(old(attributes), droppedBy, now)
    {
      attributes := AfterDrop(attributes, droppedBy, now);
    }

    method AssignSidekiqData(at: Time, jid: Option<Jid>)
      modifies this
      ensures attributes == WithSidekiqData(old(attributes), at, jid)
    {
      attributes := WithSidekiqData(attributes, at, jid);
    }

    /** reschedule leaves the object as it is and pushes it once. */
    method Reschedule(transport: Sidekiq.Transport, classOptions: string -> Options, now: Time)
      returns (jid: Option<Jid>)
      modifies transport
      ensures var p := ReschedulePush(attributes, classOptions, now);
        if transport.refuses(p) then jid == None && transport.pushes == old(transport.pushes)
        else jid == Some(|old(transport.pushes)|) && transport.pushes == old(transport.pushes) + [p]
    {
      jid := PushReschedule(attributes, transport, classOptions, now);
    }
  }
}
