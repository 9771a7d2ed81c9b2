/** The jobs repository: the two queries the layer asks of the jobs table,
    the bulk drop of duplicates, and the table itself with its find, build,
    create and save. */
module JobsRepository {
  import opened Basics
  import opened JobRecord

  /** The jobs table: each row under its primary key. */
  type Table = map<Id, Record>

  // ---------------------------------------------------------------------------
  // Queries

  /** unprocessed_for_digest: the rows with this digest that neither
      completed nor were dropped, other than the excluded id. A failed row is
      still unprocessed. With no id to exclude (a record not yet inserted)
      nothing is excluded. */
  function UnprocessedForDigest(t: Table, digest: string, exclude: Option<Id>): (ids: set<Id>)
    ensures forall k :: k in ids <==>
      (k in t && t[k].digest == digest && !IsUnprocessable(t[k]) && exclude != Some(k))
  {
    set k | k in t && t[k].digest == digest && t[k].completedAt.None? && t[k].droppedAt.None? && Some(k) != exclude
  }

  /** The rows with this digest that have not started, completed or been
      dropped, other than the excluded id. The repository has no such query;
      it is the one the Replace strategy calls (see README, Findings). */
  function NotStartedForDigest(t: Table, digest: string, exclude: Option<Id>): (ids: set<Id>)
    ensures ids <= UnprocessedForDigest(t, digest, exclude)
    ensures forall k :: k in ids <==> (k in UnprocessedForDigest(t, digest, exclude) && t[k].startedAt.None?)
  {
    set k | k in t && t[k].digest == digest && t[k].completedAt.None? && t[k].droppedAt.None?
      && t[k].startedAt.None? && Some(k) != exclude
  }

  /** missed_jobs: the rows not completed, not dropped and not failed that
      the policy picks at this time. */
  function MissedJobs(t: Table, policy: (Record, Time) -> bool, now: Time): (jobs: set<Record>)
    ensures forall k :: (k in t && t[k].completedAt.None? && t[k].droppedAt.None? && t[k].failedAt.None?
                         && policy(t[k], now)) ==> t[k] in jobs
    ensures forall r :: r in jobs ==> (r in t.Values && r.completedAt.None? && r.droppedAt.None?
                                       && r.failedAt.None? && policy(r, now))
  {
    set k | k in t && t[k].completedAt.None? && t[k].droppedAt.None? && t[k].failedAt.None? && policy(t[k], now)
      :: t[k]
  }

  // ---------------------------------------------------------------------------
  // Bulk drop

  /** The table after every row in ids has been dropped by the given record. */
  function DroppedTable(t: Table, ids: set<Id>, dropper: Option<Id>, now: Time): (u: Table)
    ensures u.Keys == t.Keys
    ensures forall k :: k in t && k in ids ==> u[k] == AfterDrop(t[k], dropper, now)
    ensures forall k :: k in t && k !in ids ==> u[k] == t[k]
  {
    map k | k in t :: if k in ids then AfterDrop(t[k], dropper, now) else t[k]
  }

  /** drop_unprocessed_jobs_by_digest, as a change of the whole table. */
  function DropByDigest(t: Table, digest: string, dropper: Option<Id>, exclude: Option<Id>, now: Time): (u: Table)
  {
    DroppedTable(t, UnprocessedForDigest(t, digest, exclude), dropper, now)
  }

  /** What the bulk drop does: every unprocessed row with the digest is
      dropped by the given record; the excluded row, rows with another digest
      and rows already completed or dropped keep every column. */
  lemma DropByDigestEffect(t: Table, digest: string, dropper: Option<Id>, exclude: Option<Id>, now: Time)
    ensures var u := DropByDigest(t, digest, dropper, exclude, now);
      u.Keys == t.Keys &&
      (forall k :: k in t && t[k].digest == digest && !IsUnprocessable(t[k]) && exclude != Some(k) ==>
         u[k].droppedAt == Some(now) && u[k].droppedByJobId == dropper) &&
      (forall k :: k in t && (t[k].digest != digest || IsUnprocessable(t[k]) || exclude == Some(k)) ==>
         u[k] == t[k])
  {
  }

  /** After the bulk drop the query it drops by is empty. */
  lemma {:induction false} DropByDigestEmptiesQuery(t: Table, digest: string, dropper: Option<Id>, exclude: Option<Id>, now: Time)
    ensures UnprocessedForDigest(DropByDigest(t, digest, dropper, exclude, now), digest, exclude) == {}
  {
    var u := DropByDigest(t, digest, dropper, exclude, now);
    forall k | k in u
      ensures k !in UnprocessedForDigest(u, digest, exclude)
    {
      if k in UnprocessedForDigest(t, digest, exclude) {
        assert IsDropped(u[k]);
      } else {
        assert u[k] == t[k];
      }
    }
  }

  /** So a second bulk drop with the same arguments changes nothing. */
  lemma {:induction false} DropByDigestIdempotent(t: Table, digest: string, dropper: Option<Id>, exclude: Option<Id>, now: Time)
    ensures var u := DropByDigest(t, digest, dropper, exclude, now);
      DropByDigest(u, digest, dropper, exclude, now) == u
  {
    var u := DropByDigest(t, digest, dropper, exclude, now);
    DropByDigestEmptiesQuery(t, digest, dropper, exclude, now);
    assert DroppedTable(u, {}, dropper, now) == u;
  }

  /** Dropping the not-started rows drops a subset of what the unprocessed
      bulk drop drops: started rows survive it. */
  lemma {:induction false} NotStartedDropSparesStarted(t: Table, digest: string, dropper: Option<Id>, exclude: Option<Id>, now: Time)
    ensures var u := DroppedTable(t, NotStartedForDigest(t, digest, exclude), dropper, now);
      forall k :: k in t && t[k].startedAt.Some? ==> u[k] == t[k]
  {
  }

  // ---------------------------------------------------------------------------
  // The table

  /** Every row sits under its own id, below the next id to hand out, and
      passes the presence validations. */
  ghost predicate ValidTable(t: Table, nextId: Id)
  {
    forall k :: k in t ==> t[k].id == Some(k) && k < nextId && PresenceValid(t[k])
  }

  /** Dropping rows keeps a table valid. */
  lemma DroppedTableValid(t: Table, nextId: Id, ids: set<Id>, dropper: Option<Id>, now: Time)
    requires ValidTable(t, nextId)
    ensures ValidTable(DroppedTable(t, ids, dropper, now), nextId)
  {
  }

  /** What a save leaves behind: the error it raised, if any, the record
      object, the table and the next id to hand out. */
  datatype Saved = Saved(err: Option<Error>, record: Record, table: Table, nextId: Id)

  /** save, as a function of the record, the table and the next id. */
  function SaveResult(r: Record, t: Table, nextId: Id, now: Time): (s: Saved)
  {
    match r.id
    case None =>
      if ValidForCreate(r) then
        var inserted := r.(id := Some(nextId), createdAt := Some(now));
        Saved(None, inserted, t[nextId := inserted], nextId + 1)
      else Saved(Some(RecordInvalid), r, t, nextId)
    case Some(k) =>
      if k !in t || t[k] == r then Saved(None, r, t, nextId)
      else if !PresenceValid(r) then Saved(Some(RecordInvalid), r, t, nextId)
      else Saved(None, r, t[k := r], nextId)
  }

  /** A save that succeeds leaves the object and its row equal, and the
      table keeps every other row; a save that fails leaves the table as it
      was. Saving a successfully saved record again changes nothing. */
  lemma {:induction false} SaveResultEffect(r: Record, t: Table, nextId: Id, now: Time)
    requires ValidTable(t, nextId)
    ensures var s := SaveResult(r, t, nextId, now);
      (s.err.None? && (r.id.None? || r.id.value in t) ==>
         s.record.id.Some? && s.record.id.value in s.table && s.table[s.record.id.value] == s.record) &&
      (forall k :: k in t && Some(k) != s.record.id ==> k in s.table && s.table[k] == t[k]) &&
      (s.err.Some? ==> s.table == t && s.record == r) &&
      ValidTable(s.table, s.nextId) && s.nextId >= nextId
    ensures var s := SaveResult(r, t, nextId, now);
      s.err.None? ==> SaveResult(s.record, s.table, s.nextId, now) == Saved(None, s.record, s.table, s.nextId)
  {
  }

  class Repository {
    var table: Table
    var nextId: Id

    ghost predicate Valid()
      reads this
    {
      ValidTable(table, nextId)
    }

    constructor ()
      ensures table == map[] && nextId == 1 && Valid()
    {
      table := map[];
      nextId := 1;
    }

    /** find: a new object holding the row, or nothing for an absent id. */
    method Find(id: Id) returns (job: Job?)
      ensures id in table ==> job != null && fresh(job) && job.attributes == table[id]
      ensures id !in table ==> job == null
    {
      if id in table {
        job := new Job.Load(table[id]);
      } else {
        job := null;
      }
    }

    /** build: a new object holding the attributes; the table is untouched. */
    method Build(attributes: Record) returns (job: Job)
      ensures fresh(job) && job.attributes == attributes
    {
      job := new Job.Load(attributes);
    }

    /** save: a record never inserted is inserted if it passes every
        validation, getting the next id and its creation time; an inserted
        record is written only if it differs from its row, and only if it
        passes the presence validations. A failed validation raises and
        leaves everything as it was. */
    method Save(job: Job, now: Time) returns (err: Option<Error>)
      requires Valid()
      modifies this, job
      ensures Valid() && nextId >= old(nextId)
      ensures old(job.attributes.id).None? && ValidForCreate(old(job.attributes)) ==>
        err.None? && job.attributes == old(job.attributes).(id := Some(old(nextId)), createdAt := Some(now)) &&
        old(nextId) !in old(table) && table == old(table)[old(nextId) := job.attributes] && nextId == old(nextId) + 1
      ensures old(job.attributes.id).None? && !ValidForCreate(old(job.attributes)) ==>
        err == Some(RecordInvalid) && table == old(table) && nextId == old(nextId) && job.attributes == old(job.attributes)
      ensures old(job.attributes.id).Some? ==> job.attributes == old(job.attributes) && nextId == old(nextId)
      ensures old(job.attributes.id).Some? && old(job.attributes.id).value !in old(table) ==> err.None? && table == old(table)
      ensures old(job.attributes.id).Some? && old(job.attributes.id).value in old(table) && PresenceValid(old(job.attributes)) ==>
        err.None? && table == old(table)[old(job.attributes.id).value := job.attributes]
      ensures old(job.attributes.id).Some? && old(job.attributes.id).value in old(table) && !PresenceValid(old(job.attributes)) ==>
        (if old(table)[old(job.attributes.id).value] == old(job.attributes) then err.None? else err == Some(RecordInvalid))
        && table == old(table)
      ensures Saved(err, job.attributes, table, nextId) == SaveResult(old(job.attributes), old(table), old(nextId), now)
    {
      var r := job.attributes;
      match r.id {
        case None =>
          if !ValidForCreate(r) {
            return Some(RecordInvalid);
          }
          job.AssignInsertData(nextId, now);
          table := table[nextId := job.attributes];
          nextId := nextId + 1;
          err := None;
        case Some(k) =>
          if k !in table || table[k] == r {
            // nothing changed, or the row is gone: no write
            err := None;
          } else if !PresenceValid(r) {
            err := Some(RecordInvalid);
          } else {
            table := table[k := r];
            err := None;
          }
      }
    }

    /** create: build, then save. */
    method Create(attributes: Record, now: Time) returns (job: Job, err: Option<Error>)
      requires Valid() && attributes.id.None?
      modifies this
      ensures Valid() && fresh(job)
      ensures ValidForCreate(attributes) ==>
        err.None? && job.attributes == attributes.(id := Some(old(nextId)), createdAt := Some(now)) &&
        table == old(table)[old(nextId) := job.attributes] && old(nextId) !in old(table)
      ensures !ValidForCreate(attributes) ==> err == Some(RecordInvalid) && table == old(table)
    {
      job := Build(attributes);
      err := Save(job, now);
    }

    /** Load, drop and save each row in ids in turn. */
    method DropAll(ids: set<Id>, dropper: Option<Id>, now: Time)
      requires Valid() && ids <= table.Keys
      modifies this
      ensures Valid() && nextId == old(nextId)
      ensures table == DroppedTable(old(table), ids, dropper, now)
    {
      ghost var t0 := table;
      ghost var done: set<Id> := {};
      var todo := ids;
      while todo != {}
        invariant done !! todo && done + todo == ids
        invariant Valid() && nextId == old(nextId)
        invariant table == DroppedTable(t0, done, dropper, now)
        decreases todo
      {
        var k :| k in todo;
        DropOne(k, dropper, now);
        DroppedTableStep(t0, done, k, dropper, now);
        done := done + {k};
        todo := todo - {k};
      }
    }

    /** One step of the loop: find the row, drop it, save it. */
    method DropOne(k: Id, dropper: Option<Id>, now: Time)
      requires Valid() && k in table
      modifies this
      ensures Valid() && nextId == old(nextId)
      ensures table == old(table)[k := AfterDrop(old(table)[k], dropper, now)]
    {
      var job := Find(k);
      job.Drop(dropper, now);
      var _ := Save(job, now);
    }

    /** drop_unprocessed_jobs_by_digest. */
    method DropUnprocessedJobsByDigest(dropper: Option<Id>, digest: string, exclude: Option<Id>, now: Time)
      requires Valid()
      modifies this
      ensures Valid() && nextId == old(nextId)
      ensures table == DropByDigest(old(table), digest, dropper, exclude, now)
    {
      DropAll(UnprocessedForDigest(table, digest, exclude), dropper, now);
    }

    /** The bulk drop of not-started duplicates the Replace strategy needs. */
    method DropNotStartedJobsByDigest(dropper: Option<Id>, digest: string, exclude: Option<Id>, now: Time)
      requires Valid()
      modifies this
      ensures Valid() && nextId == old(nextId)
      ensures table == DroppedTable(old(table), NotStartedForDigest(old(table), digest, exclude), dropper, now)
    {
      DropAll(NotStartedForDigest(table, digest, exclude), dropper, now);
    }

    /** The rollback of a transaction: the rows as they were when it began.
        Ids already handed out are not handed out again. */
    method Rollback(saved: Table)
      requires Valid() && ValidTable(saved, nextId)
      modifies this
      ensures Valid() && table == saved && nextId == old(nextId)
    {
      table := saved;
    }
  }

  /** Dropping one more row extends the dropped table by that row. */
  lemma DroppedTableStep(t: Table, done: set<Id>, k: Id, dropper: Option<Id>, now: Time)
    requires k in t && k !in done
    ensures DroppedTable(t, done + {k}, dropper, now) ==
      DroppedTable(t, done, dropper, now)[k := AfterDrop(t[k], dropper, now)]
  {
  }
}
