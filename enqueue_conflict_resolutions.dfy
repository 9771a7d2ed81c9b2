/** The enqueue conflict resolution strategies: what happens to a record
    about to be enqueued, and to the rows already in the table, when rows
    with the same digest are still waiting. */
module EnqueueConflictResolutions {
  import opened Basics
  import opened JobRecord
  import opened JobsRepository
  import opened EnqueueConflictResolutionStrategy

  // ---------------------------------------------------------------------------
  // What a strategy does, as values

  /** The new record after the strategy ran: drop_self drops it, by its own
      id, when an unprocessed duplicate exists; nothing else touches it. */
  function ResolvedRecord(strategy: Strategy, t: Table, r: Record, now: Time): (s: Record)
  {
    if strategy == DropSelf && UnprocessedForDigest(t, r.digest, r.id) != {} then AfterDrop(r, r.id, now) else r
  }

  /** The table after the strategy ran: replace drops the not-started
      duplicates by the new record's id; the other strategies leave it. */
  function ResolvedTable(strategy: Strategy, t: Table, r: Record, now: Time): (u: Table)
  {
    if strategy == Replace then DroppedTable(t, NotStartedForDigest(t, r.digest, r.id), r.id, now) else t
  }

  /** drop_self: the new record is dropped exactly when another unprocessed
      record has its digest, and then it names itself as the dropper; only
      the record changes, never the table, so the existing duplicates win. */
  lemma {:induction false} DropSelfEffect(t: Table, r: Record, now: Time)
    ensures ResolvedTable(DropSelf, t, r, now) == t
    ensures IsDropped(ResolvedRecord(DropSelf, t, r, now)) <==>
      (IsDropped(r) || exists k :: k in t && t[k].digest == r.digest && !IsUnprocessable(t[k]) && r.id != Some(k))
    ensures UnprocessedForDigest(t, r.digest, r.id) != {} ==>
      ResolvedRecord(DropSelf, t, r, now).droppedAt == Some(now) &&
      ResolvedRecord(DropSelf, t, r, now).droppedByJobId == r.id
    ensures UnprocessedForDigest(t, r.digest, r.id) == {} ==> ResolvedRecord(DropSelf, t, r, now) == r
  {
    var ids := UnprocessedForDigest(t, r.digest, r.id);
    if ids != {} {
      var k :| k in ids;
      assert k in t && t[k].digest == r.digest && !IsUnprocessable(t[k]) && r.id != Some(k);
    } else {
      forall k | k in t && t[k].digest == r.digest && !IsUnprocessable(t[k])
        ensures r.id == Some(k)
      {
        assert k !in ids;
      }
    }
  }

  /** replace: every unprocessed, not yet started record with the digest is
      dropped by the new record; the new record itself, started, completed
      or dropped rows and rows with another digest keep every column. */
  lemma {:induction false} ReplaceEffect(t: Table, r: Record, now: Time)
    ensures ResolvedRecord(Replace, t, r, now) == r
    ensures var u := ResolvedTable(Replace, t, r, now);
      u.Keys == t.Keys &&
      (forall k :: k in t && t[k].digest == r.digest && !IsUnprocessable(t[k]) && t[k].startedAt.None? && r.id != Some(k) ==>
         u[k] == AfterDrop(t[k], r.id, now)) &&
      (forall k :: k in t && (t[k].digest != r.digest || IsUnprocessable(t[k]) || t[k].startedAt.Some? || r.id == Some(k)) ==>
         u[k] == t[k])
  {
    var ids := NotStartedForDigest(t, r.digest, r.id);
    forall k | k in t && t[k].digest == r.digest && !IsUnprocessable(t[k]) && t[k].startedAt.None? && r.id != Some(k)
      ensures k in ids
    {
      assert k in UnprocessedForDigest(t, r.digest, r.id);
    }
  }

  /** After replace no not-started duplicate is left waiting. */
  lemma {:induction false} ReplaceLeavesNoWaitingDuplicate(t: Table, r: Record, now: Time)
    ensures NotStartedForDigest(ResolvedTable(Replace, t, r, now), r.digest, r.id) == {}
  {
    var u := ResolvedTable(Replace, t, r, now);
    var ids := NotStartedForDigest(t, r.digest, r.id);
    forall k | k in u
      ensures k !in NotStartedForDigest(u, r.digest, r.id)
    {
      if k in ids {
        assert IsDropped(u[k]);
      } else {
        assert u[k] == t[k];
      }
    }
  }

  /** do_nothing: neither the record nor the table changes. */
  lemma DoNothingEffect(t: Table, r: Record, now: Time)
    ensures ResolvedRecord(DoNothing, t, r, now) == r && ResolvedTable(DoNothing, t, r, now) == t
  {
  }

  /** No strategy completes the record or changes its id, its tags or its
      presence-validated columns. */
  lemma {:induction false} ResolutionKeepsRecord(strategy: Strategy, t: Table, r: Record, now: Time)
    ensures var r1 := ResolvedRecord(strategy, t, r, now);
      r1.id == r.id && IsCompleted(r1) == IsCompleted(r) &&
      (ValidForCreate(r) ==> ValidForCreate(r1)) && (PresenceValid(r) ==> PresenceValid(r1))
  {
    if PresenceValid(r) {
      UpdatesKeepPresence(r, 0, now, "", "", r.id, None);
    }
  }

  /** No strategy touches the record's own row, and the table stays valid. */
  lemma {:induction false} ResolutionKeepsTable(strategy: Strategy, t: Table, nextId: Id, r: Record, now: Time)
    requires ValidTable(t, nextId)
    ensures var t1 := ResolvedTable(strategy, t, r, now);
      ValidTable(t1, nextId) && t1.Keys == t.Keys &&
      (r.id.Some? && r.id.value in t ==> t1[r.id.value] == t[r.id.value])
  {
    if strategy == Replace {
      DroppedTableValid(t, nextId, NotStartedForDigest(t, r.digest, r.id), r.id, now);
    }
  }

  // ---------------------------------------------------------------------------
  // The strategies

  /** DoNothing#execute. */
  method ExecuteDoNothing(job: Job, repo: Repository, now: Time)
    ensures job.attributes == ResolvedRecord(DoNothing, repo.table, job.attributes, now)
    ensures repo.table == ResolvedTable(DoNothing, repo.table, job.attributes, now)
  {
  }

  /** DropSelf#execute: the drop is made on the record in memory; the table
      changes only when the caller saves the record. */
  method ExecuteDropSelf(job: Job, repo: Repository, now: Time)
    modifies job
    ensures job.attributes == ResolvedRecord(DropSelf, repo.table, old(job.attributes), now)
    ensures repo.table == ResolvedTable(DropSelf, old(repo.table), old(job.attributes), now)
  {
    if UnprocessedForDigest(repo.table, job.attributes.digest, job.attributes.id) != {} {
      job.Drop(job.attributes.id, now);
    }
  }

  /** Replace#execute, with the repository operation it calls (see README,
      Findings): one bulk drop by the new record's id, of its digest,
      excluding itself. */
  method ExecuteReplace(job: Job, repo: Repository, now: Time)
    requires repo.Valid()
    modifies repo
    ensures repo.Valid() && repo.nextId == old(repo.nextId)
    ensures job.attributes == ResolvedRecord(Replace, old(repo.table), job.attributes, now)
    ensures repo.table == ResolvedTable(Replace, old(repo.table), job.attributes, now)
  {
    repo.DropNotStartedJobsByDigest(job.attributes.id, job.attributes.digest, job.attributes.id, now);
  }

  /** Replace#execute as written: the repository has no
      drop_not_started_jobs_by_digest, so the call raises NoMethodError and
      nothing changes. */
  method ExecuteReplaceAsWritten(job: Job, repo: Repository, now: Time) returns (err: Option<Error>)
    ensures err == Some(NoMethodError("drop_not_started_jobs_by_digest"))
    ensures Message(err.value) == "undefined method `drop_not_started_jobs_by_digest'"
  {
    err := Some(NoMethodError("drop_not_started_jobs_by_digest"));
  }

  /** The as-written replace leaves a waiting duplicate waiting, where the
      intended one drops it: both run on a repository holding a not-started
      duplicate `dup` of the record being enqueued. */
  method ReplaceAsWrittenKeepsDuplicate(job: Job, repo: Repository, dup: Id, now: Time)
    returns (err: Option<Error>, waitingAsWritten: set<Id>, waitingAsIntended: set<Id>)
    requires repo.Valid() && dup in NotStartedForDigest(repo.table, job.attributes.digest, job.attributes.id)
    modifies repo
    ensures err == Some(NoMethodError("drop_not_started_jobs_by_digest"))
    ensures waitingAsWritten == NotStartedForDigest(old(repo.table), job.attributes.digest, job.attributes.id)
    ensures dup in waitingAsWritten
    ensures repo.table == ResolvedTable(Replace, old(repo.table), job.attributes, now)
    ensures waitingAsIntended == NotStartedForDigest(repo.table, job.attributes.digest, job.attributes.id)
    ensures waitingAsIntended == {}
  {
    err := ExecuteReplaceAsWritten(job, repo, now);
    waitingAsWritten := NotStartedForDigest(repo.table, job.attributes.digest, job.attributes.id);
    ExecuteReplace(job, repo, now);
    ReplaceLeavesNoWaitingDuplicate(old(repo.table), job.attributes, now);
    waitingAsIntended := NotStartedForDigest(repo.table, job.attributes.digest, job.attributes.id);
  }

  /** Run the resolved strategy on the record about to be enqueued. */
  method Execute(strategy: Strategy, job: Job, repo: Repository, now: Time)
    requires repo.Valid()
    modifies job, repo
    ensures repo.Valid() && repo.nextId == old(repo.nextId)
    ensures job.attributes == ResolvedRecord(strategy, old(repo.table), old(job.attributes), now)
    ensures repo.table == ResolvedTable(strategy, old(repo.table), old(job.attributes), now)
  {
    match strategy {
      case DoNothing => ExecuteDoNothing(job, repo, now);
      case DropSelf => ExecuteDropSelf(job, repo, now);
      case Replace => ExecuteReplace(job, repo, now);
    }
  }
}
