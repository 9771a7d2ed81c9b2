/** The missed-jobs sweep: the unfinished records a policy calls missed,
    looked up once per sweep, and a reschedule push for each of them. */
module MissedJobsSweep {
  import opened Basics
  import opened JobClass
  import opened JobRecord
  import JobsRepository
  import Sidekiq

  /** The pushes a sweep hands to the transport when it reschedules the
      records in this order: one per record, less those the transport
      refuses. */
  function ReschedulePushes(order: seq<Record>, classOptions: string -> Options, now: Time,
                            refuses: Sidekiq.Push -> bool): (ps: seq<Sidekiq.Push>)
    ensures |ps| <= |order|
  {
    if order == [] then []
    else
      var p := ReschedulePush(order[|order| - 1], classOptions, now);
      ReschedulePushes(order[..|order| - 1], classOptions, now, refuses) + (if refuses(p) then [] else [p])
  }

  /** Every push of a sweep is the reschedule of one of its records, and the
      transport accepted it. */
  lemma {:induction false} ReschedulePushesSound(order: seq<Record>, classOptions: string -> Options, now: Time,
                                                 refuses: Sidekiq.Push -> bool)
    ensures forall p :: p in ReschedulePushes(order, classOptions, now, refuses) ==>
      !refuses(p) && exists r :: r in order && p == ReschedulePush(r, classOptions, now)
  {
    if order != [] {
      var front := order[..|order| - 1];
      ReschedulePushesSound(front, classOptions, now, refuses);
      var before := ReschedulePushes(front, classOptions, now, refuses);
      forall p | p in ReschedulePushes(order, classOptions, now, refuses)
        ensures !refuses(p) && exists r :: r in order && p == ReschedulePush(r, classOptions, now)
      {
        if p in before {
          var r :| r in front && p == ReschedulePush(r, classOptions, now);
          var j :| 0 <= j < |front| && front[j] == r;
          assert order[j] == r;
        } else {
          assert p == ReschedulePush(order[|order| - 1], classOptions, now);
        }
      }
    }
  }

  /** Every record of a sweep whose push the transport accepts is
      rescheduled. */
  lemma {:induction false} ReschedulePushesComplete(order: seq<Record>, classOptions: string -> Options, now: Time,
                                                    refuses: Sidekiq.Push -> bool)
    ensures forall r :: r in order && !refuses(ReschedulePush(r, classOptions, now)) ==>
      ReschedulePush(r, classOptions, now) in ReschedulePushes(order, classOptions, now, refuses)
  {
    if order != [] {
      var front := order[..|order| - 1];
      ReschedulePushesComplete(front, classOptions, now, refuses);
      forall r | r in order && !refuses(ReschedulePush(r, classOptions, now))
        ensures ReschedulePush(r, classOptions, now) in ReschedulePushes(order, classOptions, now, refuses)
      {
        var j :| 0 <= j < |order| && order[j] == r;
        if j < |order| - 1 {
          assert front[j] == r;
        }
      }
    }
  }

  /** When the transport accepts every push, a sweep pushes once per record. */
  lemma {:induction false} ReschedulePushesAllAccepted(order: seq<Record>, classOptions: string -> Options, now: Time,
                                                       refuses: Sidekiq.Push -> bool)
    requires forall r :: r in order ==> !refuses(ReschedulePush(r, classOptions, now))
    ensures |ReschedulePushes(order, classOptions, now, refuses)| == |order|
  {
    if order != [] {
      var front := order[..|order| - 1];
      forall r | r in front
        ensures !refuses(ReschedulePush(r, classOptions, now))
      {
        var j :| 0 <= j < |front| && front[j] == r;
        assert order[j] == r;
      }
      ReschedulePushesAllAccepted(front, classOptions, now, refuses);
    }
  }

  /** Rescheduling one more record appends its push, unless refused. */
  lemma ReschedulePushesSnoc(order: seq<Record>, r: Record, classOptions: string -> Options, now: Time,
                             refuses: Sidekiq.Push -> bool)
    ensures var p := ReschedulePush(r, classOptions, now);
      ReschedulePushes(order + [r], classOptions, now, refuses) ==
        ReschedulePushes(order, classOptions, now, refuses) + (if refuses(p) then [] else [p])
  {
    assert (order + [r])[..|order|] == order;
  }

  /** One sweep over the records a policy calls missed. */
  class MissedJobs {
    const repo: JobsRepository.Repository
    const policy: (Record, Time) -> bool
    /** The answer of the first lookup, kept for the rest of the sweep. */
    var memo: Option<set<Record>>

    constructor (repo: JobsRepository.Repository, policy: (Record, Time) -> bool)
      ensures this.repo == repo && this.policy == policy && memo == None
    {
      this.repo := repo;
      this.policy := policy;
      memo := None;
    }

    /** all: the first call asks the repository for the missed records; every
        later call answers the same, whatever the table holds by then. */
    method All(now: Time) returns (jobs: set<Record>)
      modifies this
      ensures old(memo).None? ==> jobs == JobsRepository.MissedJobs(repo.table, policy, now)
      ensures old(memo).Some? ==> jobs == old(memo).value
      ensures memo == Some(jobs)
    {
      if memo.None? {
        memo := Some(JobsRepository.MissedJobs(repo.table, policy, now));
      }
      jobs := memo.value;
    }

    /** invoke: reschedule every record of all, each once, in some order,
        and no other record. */
    method Invoke(transport: Sidekiq.Transport, classOptions: string -> Options, now: Time)
      returns (ghost order: seq<Record>)
      modifies this, transport
      ensures memo.Some? && (old(memo).Some? ==> memo == old(memo))
      ensures old(memo).None? ==> memo == Some(JobsRepository.MissedJobs(repo.table, policy, now))
      ensures |order| == |memo.value| && forall r :: r in order <==> r in memo.value
      ensures transport.pushes == old(transport.pushes) + ReschedulePushes(order, classOptions, now, transport.refuses)
    {
      var jobs := All(now);
      var rest := jobs;
      order := [];
      while rest != {}
        invariant memo == Some(jobs) && rest <= jobs
        invariant |order| + |rest| == |jobs|
        invariant forall r :: r in order <==> r in jobs && r !in rest
        invariant transport.pushes == old(transport.pushes) + ReschedulePushes(order, classOptions, now, transport.refuses)
        decreases |rest|
      {
        var r :| r in rest;
        var _ := PushReschedule(r, transport, classOptions, now);
        ReschedulePushesSnoc(order, r, classOptions, now, transport.refuses);
        order := order + [r];
        rest := rest - {r};
      }
    }
  }

  // ---------------------------------------------------------------------------
  // An example sweep

  /** A policy calling a record missed once it was created more than an
      hour before now. */
  predicate CreatedOverAnHourAgo(r: Record, now: Time)
  {
    r.createdAt.Some? && now > r.createdAt.value + 3600
  }

  /** Six rows: a fresh one, completed, failed and dropped ones created a
      day ago, one created 55 minutes ago and one created 65 minutes ago. */
  function SweepTable(base: Record, now: Time): JobsRepository.Table
  {
    var unfinished := base.(completedAt := None, failedAt := None, droppedAt := None);
    map[1 := unfinished.(id := Some(1), createdAt := Some(now)),
        2 := unfinished.(id := Some(2), createdAt := Some(now - 86400), completedAt := Some(now)),
        3 := unfinished.(id := Some(3), createdAt := Some(now - 86400), failedAt := Some(now)),
        4 := unfinished.(id := Some(4), createdAt := Some(now - 86400), droppedAt := Some(now)),
        5 := unfinished.(id := Some(5), createdAt := Some(now - 3300)),
        6 := unfinished.(id := Some(6), createdAt := Some(now - 3900))]
  }

  /** With the one-hour policy only the record created 65 minutes ago is
      missed: not the finished ones, however old, and not the younger one. */
  lemma MissedJobsExample(base: Record, now: Time)
    ensures JobsRepository.MissedJobs(SweepTable(base, now), CreatedOverAnHourAgo, now) == {SweepTable(base, now)[6]}
    ensures SweepTable(base, now)[6].id == Some(6)
  {
    var t := SweepTable(base, now);
    var jobs := JobsRepository.MissedJobs(t, CreatedOverAnHourAgo, now);
    assert t[6] in jobs;
    forall r | r in jobs
      ensures r == t[6]
    {
      var k :| k in t && t[k] == r;
    }
  }
}
