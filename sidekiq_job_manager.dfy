/** The enqueue/perform orchestration: building and persisting the record of
    a new job, resolving enqueue conflicts, handing the record id to the
    transport, and running a job by id. */
module SidekiqJobManager {
  import opened Basics
  import opened JobClass
  import opened JobRecord
  import opened JobsRepository
  import Sidekiq
  import DigestGenerator
  import Conflict = EnqueueConflictResolutionStrategy
  import EnqueueConflictResolutions
  import Uniqueness = UniquenessStrategy
  import UniquenessStrategies

  // ---------------------------------------------------------------------------
  // The new record

  /** The attributes create_job builds: the class, the arguments, the
      enqueue time, the digest of class and arguments, and the queue and the
      two strategy tags from the class options, with their defaults. */
  function NewRecord(c: JobClassRef, arguments: seq<string>, now: Time, backend: string -> string): (r: Record)
    ensures r.id.None? && r.createdAt.None? && r.attempts == 0
    ensures r.jobClass == Name(c) && r.arguments == arguments && r.enqueuedAt == Some(now)
    ensures r.digest == DigestGenerator.Generate(backend, Name(c), arguments)
    ensures r.queue == QueueOf(GetSidekiqOptions(c))
    ensures "uniqueness_strategy" !in GetSidekiqOptions(c) ==> r.uniquenessStrategy == "no_uniqueness"
    ensures "uniqueness_strategy" in GetSidekiqOptions(c) ==>
      r.uniquenessStrategy == ToS(GetSidekiqOptions(c)["uniqueness_strategy"])
    ensures "enqueue_conflict_resolution_strategy" !in GetSidekiqOptions(c) ==> r.conflictStrategy == "do_nothing"
    ensures "enqueue_conflict_resolution_strategy" in GetSidekiqOptions(c) ==>
      r.conflictStrategy == ToS(GetSidekiqOptions(c)["enqueue_conflict_resolution_strategy"])
    ensures !IsUnprocessable(r) && r.startedAt.None? && r.failedAt.None? && r.executeAt.None? && r.sidekiqJid.None?
  {
    var opts := GetSidekiqOptions(c);
    Record(
      id := None,
      jobClass := Name(c),
      arguments := arguments,
      digest := DigestGenerator.Generate(backend, Name(c), arguments),
      queue := QueueOf(opts),
      uniquenessStrategy := ToS(Fetch(opts, "uniqueness_strategy", Sym(Uniqueness.Name(Uniqueness.NoUniqueness)))),
      conflictStrategy := ToS(Fetch(opts, "enqueue_conflict_resolution_strategy", Sym(Conflict.Name(Conflict.DoNothing)))),
      enqueuedAt := Some(now),
      executeAt := None, sidekiqJid := None,
      startedAt := None, completedAt := None, failedAt := None, droppedAt := None, droppedByJobId := None,
      errorType := None, errorMessage := None,
      attempts := 0,
      memoryBefore := None, memoryAfter := None, memoryChange := None,
      createdAt := None)
  }

  /** A class with no options gets the default queue and strategies, and its
      new record passes the create validations whenever its name and digest
      are present. */
  lemma DefaultsAreCreatable(name: string, arguments: seq<string>, now: Time, backend: string -> string)
    ensures var r := NewRecord(Worker(name, map[]), arguments, now, backend);
      r.queue == "default" && r.uniquenessStrategy == "no_uniqueness" && r.conflictStrategy == "do_nothing" &&
      (Present(name) && Present(r.digest) ==> ValidForCreate(r))
  {
    var r := NewRecord(Worker(name, map[]), arguments, now, backend);
    assert Present(r.queue) by {
      assert r.queue[0] == 'd';
    }
  }

  /** persist_self_dropped_jobs?: option "persist_self_dropped_jobs", default true. */
  predicate Persists(c: JobClassRef)
  {
    PersistSelfDroppedJobs(GetSidekiqOptions(c))
  }

  // ---------------------------------------------------------------------------
  // create_job

  /** The transaction of create_job, as a function: resolve the record's
      conflict strategy (an unknown tag raises before anything is written),
      run it, then save the record unless it was dropped and dropped records
      are not kept. A failed save undoes the transaction's writes; the object
      keeps what was assigned to it. */
  function TransactionResult(r: Record, t: Table, nextId: Id, persist: bool, now: Time): (s: Saved)
  {
    match Conflict.Resolve(r.conflictStrategy)
    case Err(e) => Saved(Some(e), r, t, nextId)
    case Ok(st) =>
      var r1 := EnqueueConflictResolutions.ResolvedRecord(st, t, r, now);
      var t1 := EnqueueConflictResolutions.ResolvedTable(st, t, r, now);
      if persist || !IsDropped(r1) then
        var saved := SaveResult(r1, t1, nextId, now);
        if saved.err.Some? then saved.(table := t) else saved
      else Saved(None, r1, t1, nextId)
  }

  /** create_job, as a function of the record it built, whether dropped
      records are kept, and the store. */
  function CreateResult(n: Record, persist: bool, t: Table, nextId: Id, now: Time): (s: Saved)
  {
    if persist then
      var first := SaveResult(n, t, nextId, now);
      if first.err.Some? then first else TransactionResult(first.record, first.table, first.nextId, true, now)
    else TransactionResult(n, t, nextId, false, now)
  }

  /** The transaction of create_job. */
  method ResolveConflictAndSave(job: Job, repo: Repository, persist: bool, now: Time) returns (err: Option<Error>)
    requires repo.Valid()
    modifies job, repo
    ensures repo.Valid() && repo.nextId >= old(repo.nextId)
    ensures Saved(err, job.attributes, repo.table, repo.nextId) ==
      TransactionResult(old(job.attributes), old(repo.table), old(repo.nextId), persist, now)
  {
    var saved := repo.table;
    var tag := Conflict.Resolve(job.attributes.conflictStrategy);
    if tag.Err? {
      return Some(tag.error);
    }
    EnqueueConflictResolutions.Execute(tag.value, job, repo, now);
    if persist || !IsDropped(job.attributes) {
      err := repo.Save(job, now);
      if err.Some? {
        repo.Rollback(saved);
      }
    } else {
      err := None;
    }
  }

  /** create_job: build the record; save it right away when dropped records
      are kept; then resolve the enqueue conflict and save again in one
      transaction. */
  method CreateJob(c: JobClassRef, arguments: seq<string>, now: Time, backend: string -> string, repo: Repository)
    returns (job: Job, err: Option<Error>)
    requires repo.Valid()
    modifies repo
    ensures repo.Valid() && fresh(job) && repo.nextId >= old(repo.nextId)
    ensures Saved(err, job.attributes, repo.table, repo.nextId) ==
      CreateResult(NewRecord(c, arguments, now, backend), Persists(c), old(repo.table), old(repo.nextId), now)
  {
    job := repo.Build(NewRecord(c, arguments, now, backend));
    if Persists(c) {
      err := repo.Save(job, now);
      if err.Some? {
        return;
      }
    }
    err := ResolveConflictAndSave(job, repo, Persists(c), now);
  }

  // ---------------------------------------------------------------------------
  // perform_async, perform_in, perform_at

  /** The push perform_* hands to the transport: the class, the record id,
      the requested time, and the queue from the class options. */
  function EnqueuePush(c: JobClassRef, id: Option<Id>, at: Option<Time>): (p: Sidekiq.Push)
    ensures p.jobClass == Name(c) && p.jobId == id && p.at == at
    ensures p.queue == QueueOf(GetSidekiqOptions(c))
  {
    Sidekiq.Push(Name(c), id, at, QueueOf(GetSidekiqOptions(c)))
  }

  /** The push and the record create_job builds for the same class agree:
      the push names the worker the record names, and goes to the queue the
      record stores, whatever options a proxy chain sets. */
  lemma EnqueuePushMatchesRecord(c: JobClassRef, arguments: seq<string>, now: Time, backend: string -> string,
                                 id: Option<Id>, at: Option<Time>)
    ensures EnqueuePush(c, id, at).jobClass == NewRecord(c, arguments, now, backend).jobClass
    ensures EnqueuePush(c, id, at).queue == NewRecord(c, arguments, now, backend).queue
  {
  }

  /** `set(cls, {queue: q})`: the record and the push both carry queue q,
      while the class name and its strategy options are kept. */
  lemma {:induction false} SetRoutesQueue(c: JobClassRef, q: string, arguments: seq<string>, now: Time,
                                          backend: string -> string, id: Option<Id>, at: Option<Time>)
    ensures var p := Set(c, map["queue" := Str(q)]);
      EnqueuePush(p, id, at).queue == q && EnqueuePush(p, id, at).jobClass == Name(c) &&
      NewRecord(p, arguments, now, backend).queue == q &&
      NewRecord(p, arguments, now, backend).digest == NewRecord(c, arguments, now, backend).digest &&
      NewRecord(p, arguments, now, backend).uniquenessStrategy == NewRecord(c, arguments, now, backend).uniquenessStrategy &&
      NewRecord(p, arguments, now, backend).conflictStrategy == NewRecord(c, arguments, now, backend).conflictStrategy &&
      Persists(p) == Persists(c)
  {
    var custom := map["queue" := Str(q)];
    var p := Set(c, custom);
    assert "queue" in custom;
    assert GetSidekiqOptions(p)["queue"] == Str(q);
    var keep := {"uniqueness_strategy", "enqueue_conflict_resolution_strategy", "persist_self_dropped_jobs"};
    forall k | k in keep
      ensures (k in GetSidekiqOptions(p) <==> k in GetSidekiqOptions(c))
      ensures k in GetSidekiqOptions(c) ==> GetSidekiqOptions(p)[k] == GetSidekiqOptions(c)[k]
    {
      assert k !in custom;
    }
  }

  /** What an enqueue leaves behind: the handle returned, the record
      object, the table, the transport's pushes and the error raised. */
  datatype Enqueued = Enqueued(jid: Option<Jid>, record: Record, table: Table, pushes: seq<Sidekiq.Push>,
                               err: Option<Error>)

  /** The enqueue after the record was created: a push only for a saved
      record that is neither completed nor dropped, then the handle and the
      due time saved on its row. */
  function EnqueueFrom(cr: Saved, c: JobClassRef, at: Option<Time>, executeAt: Time,
                       pushes: seq<Sidekiq.Push>, refuses: Sidekiq.Push -> bool): Enqueued
  {
    if cr.err.Some? || IsUnprocessable(cr.record) || cr.record.id.None? then
      Enqueued(None, cr.record, cr.table, pushes, cr.err)
    else
      var p := EnqueuePush(c, cr.record.id, at);
      var jid: Option<Jid> := if refuses(p) then None else Some(|pushes|);
      var r := WithSidekiqData(cr.record, executeAt, jid);
      Enqueued(jid, r, cr.table[cr.record.id.value := r], if refuses(p) then pushes else pushes + [p], None)
  }

  /** perform_async, perform_in and perform_at as a value: create the
      record; if that raised, or the record ended up completed or dropped,
      return nil and push nothing; otherwise push the record id once,
      record when it is due and the transport's handle, and save. */
  function EnqueueResult(c: JobClassRef, arguments: seq<string>, at: Option<Time>, executeAt: Time, now: Time,
                         backend: string -> string, t: Table, nextId: Id,
                         pushes: seq<Sidekiq.Push>, refuses: Sidekiq.Push -> bool): Enqueued
  {
    EnqueueFrom(CreateResult(NewRecord(c, arguments, now, backend), Persists(c), t, nextId, now),
                c, at, executeAt, pushes, refuses)
  }

  /** Enqueueing a created record pushes at most once, and only a saved
      record that is neither completed nor dropped; the push carries the
      record id and the requested time, and the row holds the due time and
      the handle. */
  lemma {:induction false} EnqueueFromEffect(cr: Saved, c: JobClassRef, at: Option<Time>, executeAt: Time,
                                             pushes: seq<Sidekiq.Push>, refuses: Sidekiq.Push -> bool)
    requires cr.err.None? && !IsUnprocessable(cr.record) ==> cr.record.id.Some?
    ensures var e := EnqueueFrom(cr, c, at, executeAt, pushes, refuses);
      e.pushes == pushes || (e.pushes == pushes + [EnqueuePush(c, e.record.id, at)] && e.jid == Some(|pushes|))
    ensures var e := EnqueueFrom(cr, c, at, executeAt, pushes, refuses);
      cr.err.Some? || IsUnprocessable(cr.record) ==> e.jid.None? && e.pushes == pushes && e.table == cr.table
    ensures var e := EnqueueFrom(cr, c, at, executeAt, pushes, refuses);
      cr.err.None? && !IsUnprocessable(cr.record) ==>
        e.err.None? && e.record.id == cr.record.id && e.record.id.Some? &&
        e.record.executeAt == Some(executeAt) && e.record.sidekiqJid == e.jid &&
        e.table == cr.table[e.record.id.value := e.record] &&
        (e.pushes == pushes <==> refuses(EnqueuePush(c, e.record.id, at)))
  {
    if cr.err.None? && !IsUnprocessable(cr.record) {
      var p := EnqueuePush(c, cr.record.id, at);
      if !refuses(p) {
        assert |pushes + [p]| == |pushes| + 1;
      }
    }
  }

  /** The same for a whole enqueue: a created record that is neither
      completed nor dropped is always saved, so it is always pushed unless
      the transport refuses. */
  lemma {:induction false} EnqueueResultEffect(c: JobClassRef, arguments: seq<string>, at: Option<Time>,
                                               executeAt: Time, now: Time, backend: string -> string,
                                               t: Table, nextId: Id, pushes: seq<Sidekiq.Push>,
                                               refuses: Sidekiq.Push -> bool)
    requires ValidTable(t, nextId)
    ensures var e := EnqueueResult(c, arguments, at, executeAt, now, backend, t, nextId, pushes, refuses);
      var cr := CreateResult(NewRecord(c, arguments, now, backend), Persists(c), t, nextId, now);
      cr.err.None? && !IsUnprocessable(cr.record) ==>
        e.err.None? && e.record.id == cr.record.id && e.record.id.Some? &&
        e.record.executeAt == Some(executeAt) && e.record.sidekiqJid == e.jid &&
        e.table == cr.table[e.record.id.value := e.record] &&
        (e.pushes == pushes <==> refuses(EnqueuePush(c, e.record.id, at)))
  {
    var cr := CreateResult(NewRecord(c, arguments, now, backend), Persists(c), t, nextId, now);
    CreatedProcessableIsSaved(NewRecord(c, arguments, now, backend), Persists(c), t, nextId, now);
    EnqueueFromEffect(cr, c, at, executeAt, pushes, refuses);
  }

  /** What perform_async, perform_in and perform_at share. */
  method Enqueue(c: JobClassRef, arguments: seq<string>, at: Option<Time>, executeAt: Time, now: Time,
                 backend: string -> string, repo: Repository, transport: Sidekiq.Transport)
    returns (jid: Option<Jid>, job: Job, err: Option<Error>)
    requires repo.Valid()
    modifies repo, transport
    ensures repo.Valid() && fresh(job)
    ensures Enqueued(jid, job.attributes, repo.table, transport.pushes, err) ==
      EnqueueResult(c, arguments, at, executeAt, now, backend, old(repo.table), old(repo.nextId),
                    old(transport.pushes), transport.refuses)
  {
    jid := None;
    job, err := CreateJob(c, arguments, now, backend, repo);
    if err.Some? || IsUnprocessable(job.attributes) || job.attributes.id.None? {
      return;
    }
    CreatedProcessableIsSaved(NewRecord(c, arguments, now, backend), Persists(c), old(repo.table), old(repo.nextId), now);
    var r := job.attributes;
    jid := transport.Schedule(EnqueuePush(c, r.id, at));
    job.AssignSidekiqData(executeAt, jid);
    UpdatesKeepPresence(r, 0, executeAt, "", "", None, jid);
    err := repo.Save(job, now);
  }

  /** perform_async: enqueue to run right away, due now. */
  method PerformAsync(c: JobClassRef, arguments: seq<string>, now: Time, backend: string -> string,
                      repo: Repository, transport: Sidekiq.Transport)
    returns (jid: Option<Jid>, job: Job, err: Option<Error>)
    requires repo.Valid()
    modifies repo, transport
    ensures repo.Valid() && fresh(job)
    ensures Enqueued(jid, job.attributes, repo.table, transport.pushes, err) ==
      EnqueueResult(c, arguments, None, now, now, backend, old(repo.table), old(repo.nextId),
                    old(transport.pushes), transport.refuses)
  {
    jid, job, err := Enqueue(c, arguments, None, now, now, backend, repo, transport);
  }

  /** When a job enqueued with perform_in is due. */
  function DueIn(now: Time, interval: int): (due: Time)
    ensures due - now == interval
  {
    now + interval
  }

  /** perform_in: enqueue to run after the interval, due now + interval. */
  method PerformIn(c: JobClassRef, interval: int, arguments: seq<string>, now: Time, backend: string -> string,
                   repo: Repository, transport: Sidekiq.Transport)
    returns (jid: Option<Jid>, job: Job, err: Option<Error>)
    requires repo.Valid()
    modifies repo, transport
    ensures repo.Valid() && fresh(job)
    ensures Enqueued(jid, job.attributes, repo.table, transport.pushes, err) ==
      EnqueueResult(c, arguments, Some(DueIn(now, interval)), DueIn(now, interval), now, backend,
                    old(repo.table), old(repo.nextId), old(transport.pushes), transport.refuses)
  {
    jid, job, err := Enqueue(c, arguments, Some(DueIn(now, interval)), DueIn(now, interval), now, backend, repo, transport);
  }

  /** perform_at: enqueue to run at the given time, due then. */
  method PerformAt(c: JobClassRef, time: Time, arguments: seq<string>, now: Time, backend: string -> string,
                   repo: Repository, transport: Sidekiq.Transport)
    returns (jid: Option<Jid>, job: Job, err: Option<Error>)
    requires repo.Valid()
    modifies repo, transport
    ensures repo.Valid() && fresh(job)
    ensures Enqueued(jid, job.attributes, repo.table, transport.pushes, err) ==
      EnqueueResult(c, arguments, Some(time), time, now, backend, old(repo.table), old(repo.nextId),
                    old(transport.pushes), transport.refuses)
  {
    jid, job, err := Enqueue(c, arguments, Some(time), time, now, backend, repo, transport);
  }

  // ---------------------------------------------------------------------------
  // perform

  /** perform: load the record (an absent id raises); a completed or
      dropped record returns at once; otherwise count the attempt, record
      the memory reading and start time, save, and hand the record to its
      uniqueness strategy (an unknown tag raises after the save). */
  method Perform(id: Id, s: UniquenessStrategies.Services, acquired: bool, payload: UniquenessStrategies.Payload,
                 mbStart: int, mbEnd: int, now: Time)
    returns (o: UniquenessStrategies.Outcome)
    requires s.repo.Valid()
    modifies s.repo, s.trace, s.transport
    ensures s.repo.Valid() && s.repo.nextId == old(s.repo.nextId) && s.repo.table.Keys == old(s.repo.table.Keys)
    ensures id !in old(s.repo.table) ==>
      o == UniquenessStrategies.Raised(RecordNotFound(id)) && s.repo.table == old(s.repo.table) &&
      s.trace.events == old(s.trace.events) && s.transport.pushes == old(s.transport.pushes)
    ensures id in old(s.repo.table) && IsUnprocessable(old(s.repo.table)[id]) ==>
      o == UniquenessStrategies.Returned && s.repo.table == old(s.repo.table) &&
      s.trace.events == old(s.trace.events) && s.transport.pushes == old(s.transport.pushes)
    ensures id in old(s.repo.table) && !IsUnprocessable(old(s.repo.table)[id]) ==>
      s.repo.table[id].attempts == old(s.repo.table)[id].attempts + 1 && s.repo.table[id].startedAt == Some(now)
    ensures id in old(s.repo.table) ==>
      var r := old(s.repo.table)[id];
      !IsUnprocessable(r) && Uniqueness.Resolve(r.uniquenessStrategy).Err? ==>
        o == UniquenessStrategies.Raised(UnknownUniquenessStrategy(r.uniquenessStrategy)) &&
        s.repo.table == old(s.repo.table)[id := AfterStart(r, mbStart, now)] &&
        s.trace.events == old(s.trace.events) && s.transport.pushes == old(s.transport.pushes)
    ensures id in old(s.repo.table) ==>
      var r := old(s.repo.table)[id]; var started := AfterStart(r, mbStart, now);
      !IsUnprocessable(r) && Uniqueness.Resolve(r.uniquenessStrategy).Ok? ==>
        var st := Uniqueness.Resolve(r.uniquenessStrategy).value;
        o == UniquenessStrategies.StrategyOutcome(st, started, acquired, payload) &&
        s.repo.table ==
          UniquenessStrategies.StrategyTable(st, old(s.repo.table)[id := started], started, acquired, payload, mbEnd, now)
    ensures id in old(s.repo.table) ==>
      var r := old(s.repo.table)[id]; var started := AfterStart(r, mbStart, now);
      !IsUnprocessable(r) && Uniqueness.Resolve(r.uniquenessStrategy).Ok? ==>
        var st := Uniqueness.Resolve(r.uniquenessStrategy).value;
        s.trace.events ==
          old(s.trace.events) + UniquenessStrategies.StrategyTrace(st, started, s.lockTtl(started), acquired, payload) &&
        s.transport.pushes == UniquenessStrategies.StrategyPushes(st, old(s.transport.pushes), started, s, acquired, now)
  {
    var job := s.repo.Find(id);
    if job == null {
      return UniquenessStrategies.Raised(RecordNotFound(id));
    }
    if IsUnprocessable(job.attributes) {
      return UniquenessStrategies.Returned;
    }
    UpdatesKeepPresence(job.attributes, mbStart, now, "", "", None, None);
    job.Started(mbStart, now);
    var _ := s.repo.Save(job, now);
    var strategy := Uniqueness.Resolve(job.attributes.uniquenessStrategy);
    if strategy.Err? {
      return UniquenessStrategies.Raised(strategy.error);
    }
    o := UniquenessStrategies.Execute(strategy.value, job, s, acquired, payload, mbEnd, now);
  }

  // ---------------------------------------------------------------------------
  // What create_job guarantees

  /** The record create_job hands back is never completed, and unless it
      raised or was dropped its row holds exactly it. */
  lemma {:induction false} CreatedProcessableIsSaved(n: Record, persist: bool, t: Table, nextId: Id, now: Time)
    requires ValidTable(t, nextId) && n.id.None? && !IsCompleted(n)
    ensures var cr := CreateResult(n, persist, t, nextId, now);
      !IsCompleted(cr.record) && ValidTable(cr.table, cr.nextId) &&
      (cr.err.None? && !IsDropped(cr.record) ==>
         cr.record.id.Some? && cr.record.id.value in cr.table && cr.table[cr.record.id.value] == cr.record)
  {
    if persist {
      var first := SaveResult(n, t, nextId, now);
      SaveResultEffect(n, t, nextId, now);
      if first.err.None? {
        PersistedTransaction(first.record, first.table, first.nextId, now);
      }
    } else {
      UnpersistedTransaction(n, t, nextId, now);
    }
  }

  /** The transaction on a record just inserted: its tags resolve, nothing
      raises, and its row ends up holding the object, dropped or not. */
  lemma {:induction false} PersistedTransaction(r: Record, t: Table, nextId: Id, now: Time)
    requires ValidTable(t, nextId) && ValidForCreate(r) && !IsCompleted(r)
    requires r.id.Some? && r.id.value in t && t[r.id.value] == r
    ensures var s := TransactionResult(r, t, nextId, true, now);
      s.err.None? && !IsCompleted(s.record) && ValidTable(s.table, s.nextId) &&
      s.record.id == r.id && s.record.id.value in s.table && s.table[s.record.id.value] == s.record
  {
    CreatableTagsResolve(r);
    var st := Conflict.Resolve(r.conflictStrategy).value;
    var r1 := EnqueueConflictResolutions.ResolvedRecord(st, t, r, now);
    var t1 := EnqueueConflictResolutions.ResolvedTable(st, t, r, now);
    EnqueueConflictResolutions.ResolutionKeepsRecord(st, t, r, now);
    EnqueueConflictResolutions.ResolutionKeepsTable(st, t, nextId, r, now);
    SaveResultEffect(r1, t1, nextId, now);
  }

  /** The transaction on a record not inserted yet: when it raises it
      writes nothing; a dropped record is not saved; otherwise the object
      gets the next id and its new row holds it. */
  lemma {:induction false} UnpersistedTransaction(r: Record, t: Table, nextId: Id, now: Time)
    requires ValidTable(t, nextId) && r.id.None? && !IsCompleted(r)
    ensures var s := TransactionResult(r, t, nextId, false, now);
      !IsCompleted(s.record) && ValidTable(s.table, s.nextId) && (s.err.Some? ==> s.table == t)
    ensures var s := TransactionResult(r, t, nextId, false, now);
      s.err.None? && IsDropped(s.record) ==> s.record.id.None? && s.nextId == nextId
    ensures var s := TransactionResult(r, t, nextId, false, now);
      s.err.None? && !IsDropped(s.record) ==>
        s.record.id == Some(nextId) && s.table[nextId] == s.record && s.nextId == nextId + 1
  {
    var tag := Conflict.Resolve(r.conflictStrategy);
    if tag.Ok? {
      var st := tag.value;
      var r1 := EnqueueConflictResolutions.ResolvedRecord(st, t, r, now);
      var t1 := EnqueueConflictResolutions.ResolvedTable(st, t, r, now);
      EnqueueConflictResolutions.ResolutionKeepsRecord(st, t, r, now);
      EnqueueConflictResolutions.ResolutionKeepsTable(st, t, nextId, r, now);
      if !IsDropped(r1) {
        SaveResultEffect(r1, t1, nextId, now);
      }
    }
  }

  /** Keeping dropped records (the default) saves the new record before
      conflict resolution: once it passes validation it is in the table
      whatever the strategy does to it, and create_job does not raise. A
      create_job that raises leaves the table as it was. */
  lemma {:induction false} CreateResultStore(n: Record, persist: bool, t: Table, nextId: Id, now: Time)
    requires ValidTable(t, nextId) && n.id.None? && !IsCompleted(n)
    ensures var cr := CreateResult(n, persist, t, nextId, now);
      persist && ValidForCreate(n) ==>
        cr.err.None? && cr.record.id == Some(nextId) && nextId in cr.table && cr.table[nextId] == cr.record
    ensures var cr := CreateResult(n, persist, t, nextId, now);
      cr.err.Some? ==> cr.table == t
  {
    if persist {
      SaveResultEffect(n, t, nextId, now);
      var first := SaveResult(n, t, nextId, now);
      if first.err.None? {
        PersistedTransaction(first.record, first.table, first.nextId, now);
      }
    } else {
      UnpersistedTransaction(n, t, nextId, now);
    }
  }

  /** With dropped records not kept, a record dropped by its own strategy
      is never written: it has no id and the table is unchanged. */
  lemma {:induction false} UnpersistedDropWritesNothing(n: Record, t: Table, nextId: Id, now: Time)
    requires n.id.None? && !IsDropped(n)
    ensures var cr := CreateResult(n, false, t, nextId, now);
      cr.err.None? && IsDropped(cr.record) ==> cr.record.id.None? && cr.table == t && cr.nextId == nextId
  {
    var tag := Conflict.Resolve(n.conflictStrategy);
    if tag.Ok? {
      var r1 := EnqueueConflictResolutions.ResolvedRecord(tag.value, t, n, now);
      if IsDropped(r1) {
        assert tag.value == Conflict.DropSelf;
      }
    }
  }

  /** The unprocessed rows with a digest, other than a record just
      inserted under a fresh id, are those of the table before the insert. */
  lemma {:induction false} UnprocessedIgnoresInserted(t: Table, nextId: Id, r: Record)
    requires ValidTable(t, nextId) && r.id == Some(nextId)
    ensures UnprocessedForDigest(t[nextId := r], r.digest, r.id) == UnprocessedForDigest(t, r.digest, None)
    ensures NotStartedForDigest(t[nextId := r], r.digest, r.id) == NotStartedForDigest(t, r.digest, None)
  {
    assert nextId !in t;
  }

  /** The transaction with drop_self on a valid new record, inserted or not:
      it never raises, drops the record by its own id exactly when another
      unprocessed row has its digest, and changes no other row. */
  lemma {:induction false} TransactionDropSelf(r: Record, t: Table, nextId: Id, persist: bool, now: Time)
    requires ValidTable(t, nextId) && r.conflictStrategy == "drop_self" && ValidForCreate(r)
    requires !IsDropped(r) && !IsCompleted(r)
    requires persist ==> r.id.Some? && r.id.value in t && t[r.id.value] == r
    requires !persist ==> r.id.None?
    ensures var s := TransactionResult(r, t, nextId, persist, now);
      s.err.None? && (IsDropped(s.record) <==> UnprocessedForDigest(t, r.digest, r.id) != {})
    ensures var s := TransactionResult(r, t, nextId, persist, now);
      IsDropped(s.record) ==> (s.record.droppedAt == Some(now) && s.record.droppedByJobId == r.id)
    ensures var s := TransactionResult(r, t, nextId, persist, now);
      s.table == (if persist || !IsDropped(s.record) then t[s.record.id.value := s.record] else t)
  {
    var r1 := EnqueueConflictResolutions.ResolvedRecord(Conflict.DropSelf, t, r, now);
    EnqueueConflictResolutions.ResolutionKeepsRecord(Conflict.DropSelf, t, r, now);
    if persist {
      PersistedTransaction(r, t, nextId, now);
    } else if !IsDropped(r1) {
      SaveResultEffect(r1, t, nextId, now);
    }
  }

  /** drop_self at enqueue: the new record is dropped, by itself, exactly
      when the table already holds an unprocessed record with its digest.
      With dropped records not kept it names no dropper, having no id yet. */
  lemma {:induction false} CreateDropSelf(n: Record, persist: bool, t: Table, nextId: Id, now: Time)
    requires ValidTable(t, nextId) && n.id.None? && !IsDropped(n) && !IsCompleted(n)
    requires n.conflictStrategy == "drop_self" && ValidForCreate(n)
    ensures var cr := CreateResult(n, persist, t, nextId, now);
      cr.err.None? &&
      (IsDropped(cr.record) <==> exists k :: k in t && t[k].digest == n.digest && !IsUnprocessable(t[k]))
    ensures var cr := CreateResult(n, persist, t, nextId, now);
      IsDropped(cr.record) ==>
        (cr.record.droppedAt == Some(now) && cr.record.droppedByJobId == (if persist then Some(nextId) else None))
  {
    var dups := UnprocessedForDigest(t, n.digest, None);
    assert dups != {} <==> exists k :: k in t && t[k].digest == n.digest && !IsUnprocessable(t[k]) by {
      if dups != {} {
        var k :| k in dups;
      }
    }
    if persist {
      var first := SaveResult(n, t, nextId, now);
      SaveResultEffect(n, t, nextId, now);
      UnprocessedIgnoresInserted(t, nextId, first.record);
      TransactionDropSelf(first.record, first.table, first.nextId, true, now);
    } else {
      TransactionDropSelf(n, t, nextId, false, now);
    }
  }

  /** drop_self never changes an existing row: the duplicates win. */
  lemma {:induction false} CreateDropSelfKeepsRows(n: Record, persist: bool, t: Table, nextId: Id, now: Time)
    requires ValidTable(t, nextId) && n.id.None? && !IsDropped(n) && !IsCompleted(n)
    requires n.conflictStrategy == "drop_self" && ValidForCreate(n)
    ensures var cr := CreateResult(n, persist, t, nextId, now);
      forall k :: k in t ==> k in cr.table && cr.table[k] == t[k]
  {
    if persist {
      var first := SaveResult(n, t, nextId, now);
      SaveResultEffect(n, t, nextId, now);
      TransactionDropSelf(first.record, first.table, first.nextId, true, now);
      assert first.table == t[nextId := first.record];
    } else {
      TransactionDropSelf(n, t, nextId, false, now);
    }
    var cr := CreateResult(n, persist, t, nextId, now);
    assert cr.table == t || cr.table == t[nextId := cr.record];
    forall k | k in t
      ensures k in cr.table && cr.table[k] == t[k]
    {
      assert k < nextId;
    }
  }

  /** The transaction with replace on a valid new record, inserted or not:
      it never raises, leaves the record undropped and saved under its id
      (the next id when it was not inserted yet), and drops exactly the
      not-started duplicates of the other rows, naming the record's id at
      the time of the drop. */
  lemma {:induction false} TransactionReplace(r: Record, t: Table, nextId: Id, persist: bool, now: Time)
    requires ValidTable(t, nextId) && r.conflictStrategy == "replace" && ValidForCreate(r)
    requires !IsDropped(r) && !IsCompleted(r)
    requires persist ==> r.id.Some? && r.id.value in t && t[r.id.value] == r
    requires !persist ==> r.id.None?
    ensures var s := TransactionResult(r, t, nextId, persist, now);
      s.err.None? && !IsDropped(s.record) && s.record.id == (if persist then r.id else Some(nextId)) &&
      s.record.id.value in s.table && s.table[s.record.id.value] == s.record
    ensures var s, ids := TransactionResult(r, t, nextId, persist, now), NotStartedForDigest(t, r.digest, r.id);
      forall k :: k in t && Some(k) != r.id ==>
        (k in s.table && s.table[k] == (if k in ids then AfterDrop(t[k], r.id, now) else t[k]))
  {
    var t1 := EnqueueConflictResolutions.ResolvedTable(Conflict.Replace, t, r, now);
    EnqueueConflictResolutions.ResolutionKeepsTable(Conflict.Replace, t, nextId, r, now);
    if persist {
      PersistedTransaction(r, t, nextId, now);
    } else {
      SaveResultEffect(r, t1, nextId, now);
    }
  }

  /** replace at enqueue: every row with the new record's digest that is
      neither started, completed nor dropped is dropped by the new record,
      every other existing row is kept, and the new record itself is saved
      and not dropped. With dropped records not kept the drops name no
      dropper, since the record had no id when they were made. */
  lemma {:induction false} CreateReplace(n: Record, persist: bool, t: Table, nextId: Id, now: Time)
    requires ValidTable(t, nextId) && n.id.None? && !IsDropped(n) && !IsCompleted(n)
    requires n.conflictStrategy == "replace" && ValidForCreate(n)
    ensures var cr := CreateResult(n, persist, t, nextId, now);
      cr.err.None? && !IsDropped(cr.record) && cr.record.id == Some(nextId) &&
      nextId in cr.table && cr.table[nextId] == cr.record
    ensures var cr := CreateResult(n, persist, t, nextId, now);
      var ids, dropper := NotStartedForDigest(t, n.digest, None), if persist then Some(nextId) else None;
      forall k :: k in t ==>
        (k in cr.table && cr.table[k] == (if k in ids then AfterDrop(t[k], dropper, now) else t[k]))
  {
    assert nextId !in t;
    if persist {
      var first := SaveResult(n, t, nextId, now);
      SaveResultEffect(n, t, nextId, now);
      UnprocessedIgnoresInserted(t, nextId, first.record);
      TransactionReplace(first.record, first.table, first.nextId, true, now);
    } else {
      TransactionReplace(n, t, nextId, false, now);
    }
  }
}
