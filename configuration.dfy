/** The library's settings: which collaborators to use, the lock time to
    live, and which records the missed-jobs sweep picks up and when it runs.
    Validating setters refuse a value they cannot use and keep the old one;
    getters fall back to a default, some of them storing it on first use. */
module RobustJobConfiguration {
  import opened Basics
  import opened JobRecord

  /** The sweep runs every three hours unless told otherwise. */
  const DefaultMissedJobCron: string := "0 */3 * * *"

  /** Milliseconds a uniqueness lock lives unless told otherwise. */
  const DefaultLockTtl: int := 120000

  /** Seconds after its creation at which the default policy calls an
      unfinished record missed: three hours. */
  const DefaultMissedAfter: int := 10800

  /** What ArgumentError says when a setter is given something it cannot call. */
  const NotCallableMessage: string := "must be lambda-like object!"

  /** What ArgumentError says when the cron line does not parse. */
  const InvalidCronMessage: string := "invalid cron string"

  /** The lock time to live for a record. */
  type LockTtlProc = Record -> int

  /** Whether a record counts as missed at a given time. */
  type MissedJobPolicy = (Record, Time) -> bool

  /** A value handed to a validating setter: something callable, or not. */
  datatype Candidate<T> = Callable(fn: T) | NotCallable

  /** The default policy: created more than three hours ago, strictly. A
      record without a creation time is never missed. */
  predicate DefaultMissedJobPolicy(r: Record, now: Time)
  {
    r.createdAt.Some? && now > r.createdAt.value + DefaultMissedAfter
  }

  /** The default policy at its edge: 181 minutes old is missed, 180 and
      179 minutes old are not. */
  lemma DefaultMissedJobPolicyEdge(r: Record, now: Time)
    ensures DefaultMissedJobPolicy(r.(createdAt := Some(now - 181 * 60)), now)
    ensures !DefaultMissedJobPolicy(r.(createdAt := Some(now - 180 * 60)), now)
    ensures !DefaultMissedJobPolicy(r.(createdAt := Some(now - 179 * 60)), now)
  {
  }

  /** The values as they were last assigned; None is an attribute never set
      (or set to nil). Collaborators are named, not modelled. */
  datatype Settings = Settings(
    locker: Option<string>,
    lockTtlProc: Option<LockTtlProc>,
    memoryMonitor: Option<string>,
    clock: Option<string>,
    digestGeneratorBackend: Option<string -> string>,
    sidekiqJobModel: Option<string>,
    missedJobPolicy: Option<MissedJobPolicy>,
    missedJobCron: Option<string>)

  class Configuration {
    var settings: Settings
    /** Digest::MD5, the default digest backend; its hashing is not modelled. */
    const md5: string -> string

    constructor (md5: string -> string)
      ensures this.md5 == md5
      ensures settings == Settings(None, None, None, None, None, None, None, None)
    {
      this.md5 := md5;
      settings := Settings(None, None, None, None, None, None, None, None);
    }

    // -------------------------------------------------------------------------
    // Plain attributes

    method SetLocker(val: Option<string>)
      modifies this
      ensures settings == old(settings).(locker := val)
      ensures Locker() == val
    {
      settings := settings.(locker := val);
    }

    /** locker: the value last set, nil until then. */
    function Locker(): (locker: Option<string>)
      reads this
    {
      settings.locker
    }

    method SetMemoryMonitor(val: Option<string>)
      modifies this
      ensures settings == old(settings).(memoryMonitor := val)
      ensures MemoryMonitor() == val
    {
      settings := settings.(memoryMonitor := val);
    }

    /** memory_monitor: the value last set, nil until then. */
    function MemoryMonitor(): (monitor: Option<string>)
      reads this
    {
      settings.memoryMonitor
    }

    method SetSidekiqJobModel(val: Option<string>)
      modifies this
      ensures settings == old(settings).(sidekiqJobModel := val)
      ensures SidekiqJobModel() == val
    {
      settings := settings.(sidekiqJobModel := val);
    }

    /** sidekiq_job_model: the value last set, nil until then. */
    function SidekiqJobModel(): (model: Option<string>)
      reads this
    {
      settings.sidekiqJobModel
    }

    method SetClock(val: Option<string>)
      modifies this
      ensures settings == old(settings).(clock := val)
    {
      settings := settings.(clock := val);
    }

    /** clock: Time unless set; the default is stored on first use. */
    method Clock() returns (clock: string)
      modifies this
      ensures old(settings).clock.Some? ==> clock == old(settings).clock.value && settings == old(settings)
      ensures old(settings).clock.None? ==> clock == "Time" && settings == old(settings).(clock := Some(clock))
    {
      if settings.clock.None? {
        settings := settings.(clock := Some("Time"));
      }
      clock := settings.clock.value;
    }

    method SetDigestGeneratorBackend(val: Option<string -> string>)
      modifies this
      ensures settings == old(settings).(digestGeneratorBackend := val)
    {
      settings := settings.(digestGeneratorBackend := val);
    }

    /** digest_generator_backend: MD5 unless set; the default is stored on
        first use. */
    method DigestGeneratorBackend() returns (backend: string -> string)
      modifies this
      ensures old(settings).digestGeneratorBackend.Some? ==>
        backend == old(settings).digestGeneratorBackend.value && settings == old(settings)
      ensures old(settings).digestGeneratorBackend.None? ==>
        backend == md5 && settings == old(settings).(digestGeneratorBackend := Some(md5))
    {
      if settings.digestGeneratorBackend.None? {
        settings := settings.(digestGeneratorBackend := Some(md5));
      }
      backend := settings.digestGeneratorBackend.value;
    }

    // -------------------------------------------------------------------------
    // Validated attributes

    /** lock_ttl_proc=: only something callable is taken; anything else
        raises ArgumentError and the previous value stays. */
    method SetLockTtlProc(val: Candidate<LockTtlProc>) returns (err: Option<Error>)
      modifies this
      ensures val.NotCallable? ==> err == Some(ArgumentError(NotCallableMessage)) && settings == old(settings)
      ensures val.Callable? ==> err.None? && settings == old(settings).(lockTtlProc := Some(val.fn))
    {
      if val.NotCallable? {
        return Some(ArgumentError(NotCallableMessage));
      }
      settings := settings.(lockTtlProc := Some(val.fn));
      err := None;
    }

    /** lock_ttl_proc: 120000 for every record unless set; the default is
        stored on first use. */
    method LockTtlProc() returns (ttl: LockTtlProc)
      modifies this
      ensures old(settings).lockTtlProc.Some? ==> ttl == old(settings).lockTtlProc.value && settings == old(settings)
      ensures old(settings).lockTtlProc.None? ==>
        (forall r :: ttl(r) == DefaultLockTtl) && settings == old(settings).(lockTtlProc := Some(ttl))
    {
      if settings.lockTtlProc.None? {
        settings := settings.(lockTtlProc := Some(_ => DefaultLockTtl));
      }
      ttl := settings.lockTtlProc.value;
    }

    /** missed_job_policy=: only something callable is taken; anything else
        raises ArgumentError and the previous value stays. */
    method SetMissedJobPolicy(val: Candidate<MissedJobPolicy>) returns (err: Option<Error>)
      modifies this
      ensures val.NotCallable? ==> err == Some(ArgumentError(NotCallableMessage)) && settings == old(settings)
      ensures val.Callable? ==> err.None? && settings == old(settings).(missedJobPolicy := Some(val.fn))
    {
      if val.NotCallable? {
        return Some(ArgumentError(NotCallableMessage));
      }
      settings := settings.(missedJobPolicy := Some(val.fn));
      err := None;
    }

    /** missed_job_policy: the policy set, or the three-hour default, which
        is not stored. */
    function MissedJobPolicy(): (policy: MissedJobPolicy)
      reads this
      ensures settings.missedJobPolicy.None? ==>
        forall r, now :: policy(r, now) <==> r.createdAt.Some? && now - r.createdAt.value > DefaultMissedAfter
      ensures settings.missedJobPolicy.Some? ==> policy == settings.missedJobPolicy.value
    {
      if settings.missedJobPolicy.Some? then settings.missedJobPolicy.value else DefaultMissedJobPolicy
    }

    /** missed_job_cron=: the line is parsed first; a line that does not
        parse raises ArgumentError and the previous value stays. */
    method SetMissedJobCron(val: string, parses: string -> bool) returns (err: Option<Error>)
      modifies this
      ensures !parses(val) ==> err == Some(ArgumentError(InvalidCronMessage)) && settings == old(settings)
      ensures parses(val) ==> err.None? && settings == old(settings).(missedJobCron := Some(val))
    {
      if !parses(val) {
        return Some(ArgumentError(InvalidCronMessage));
      }
      settings := settings.(missedJobCron := Some(val));
      err := None;
    }

    /** missed_job_cron: the line set, or every three hours. */
    function MissedJobCron(): (cron: string)
      reads this
      ensures settings.missedJobCron.None? ==> cron == DefaultMissedJobCron
      ensures settings.missedJobCron.Some? ==> cron == settings.missedJobCron.value
    {
      if settings.missedJobCron.Some? then settings.missedJobCron.value else DefaultMissedJobCron
    }
  }

  /** A fresh configuration answers every default: no locker, monitor or
      model, the three-hourly cron, and a rejected cron line leaves it so. */
  method FreshDefaults(md5: string -> string, parses: string -> bool, bad: string)
    returns (config: Configuration, err: Option<Error>)
    requires !parses(bad)
    ensures err == Some(ArgumentError(InvalidCronMessage))
    ensures config.Locker().None? && config.MemoryMonitor().None? && config.SidekiqJobModel().None?
    ensures config.MissedJobCron() == DefaultMissedJobCron
  {
    config := new Configuration(md5);
    err := config.SetMissedJobCron(bad, parses);
  }
}
