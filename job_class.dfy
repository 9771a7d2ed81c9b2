/** Job classes as the reliability layer sees them: a name and a hash of
    Sidekiq options, possibly wrapped by one or more `set(...)` proxies whose
    custom options are merged over the wrapped class's options. */
module JobClass {
  import opened Basics

  /** A value stored under an option key: the Ruby string, symbol, boolean
      or integer the job class declared. */
  datatype OptValue = Str(s: string) | Sym(name: string) | Flag(b: bool) | Num(n: int)

  type Options = map<string, OptValue>

  /** A job class handed to perform_async/perform_in/perform_at: a Sidekiq
      worker class, or a setter proxy around another job class. */
  datatype JobClassRef =
    | Worker(name: string, options: Options)
    | Proxy(target: JobClassRef, custom: Options)

  /** Object#to_s of an option value. */
  function ToS(v: OptValue): (s: string)
    ensures v.Str? ==> s == v.s
    ensures v.Sym? ==> s == v.name
  {
    match v
    case Str(s) => s
    case Sym(n) => n
    case Flag(b) => if b then "true" else "false"
    case Num(n) => IntToString(n)
  }

  /** Ruby truthiness: only false (and nil, which an option never holds) is falsy. */
  predicate Truthy(v: OptValue)
  {
    v != Flag(false)
  }

  /** Hash#fetch with a default. */
  function Fetch(opts: Options, key: string, default: OptValue): (v: OptValue)
    ensures key in opts ==> v == opts[key]
    ensures key !in opts ==> v == default
  {
    if key in opts then opts[key] else default
  }

  /** The class name a proxy reports (SimpleDelegator forwards to_s). */
  function Name(c: JobClassRef): (n: string)
    ensures n == Unwrap(c).name
  {
    match c
    case Worker(name, _) => name
    case Proxy(target, _) => Name(target)
  }

  /** The Sidekiq worker class at the bottom of a chain of proxies. */
  function Unwrap(c: JobClassRef): (w: JobClassRef)
    ensures w.Worker?
  {
    match c
    case Worker(_, _) => c
    case Proxy(target, _) => Unwrap(target)
  }

  /** get_sidekiq_options: a worker's own options; for a proxy, the wrapped
      class's options merged with the custom ones, custom winning per key. */
  function GetSidekiqOptions(c: JobClassRef): (opts: Options)
  {
    match c
    case Worker(_, options) => options
    case Proxy(target, custom) => GetSidekiqOptions(target) + custom
  }

  /** `set(options)`, on a worker class through the manager or on a proxy
      through the proxy itself: wrap the receiver in a new proxy. */
  function Set(c: JobClassRef, custom: Options): (p: JobClassRef)
    ensures p.Proxy? && p.target == c
    ensures Name(p) == Name(c)
    ensures forall k :: k in custom ==> k in GetSidekiqOptions(p) && GetSidekiqOptions(p)[k] == custom[k]
    ensures forall k :: k !in custom ==>
      (k in GetSidekiqOptions(p) <==> k in GetSidekiqOptions(c)) &&
      (k in GetSidekiqOptions(c) ==> GetSidekiqOptions(p)[k] == GetSidekiqOptions(c)[k])
  {
    Proxy(c, custom)
  }

  /** The custom option hashes of a chain of proxies, innermost first. */
  function Overrides(c: JobClassRef): seq<Options>
  {
    match c
    case Worker(_, _) => []
    case Proxy(target, custom) => Overrides(target) + [custom]
  }

  /** Left-to-right merge of a sequence of option hashes over a base. */
  function MergeAll(base: Options, layers: seq<Options>): Options
    decreases |layers|
  {
    if layers == [] then base
    else MergeAll(base, layers[..|layers| - 1]) + layers[|layers| - 1]
  }

  /** A chain of proxies sees the worker's options overridden by every
      proxy's custom options in order, so a later `set` wins over an earlier one. */
  lemma {:induction false} OptionsOfChain(c: JobClassRef)
    ensures GetSidekiqOptions(c) == MergeAll(Unwrap(c).options, Overrides(c))
  {
    match c
    case Worker(_, _) =>
    case Proxy(target, custom) =>
      OptionsOfChain(target);
      assert Overrides(c)[..|Overrides(c)| - 1] == Overrides(target);
  }

  /** The value a chain of proxies reports for a key comes from the outermost
      proxy that sets it; a key no proxy sets comes from the worker class. */
  lemma {:induction false} OutermostOverrideWins(c: JobClassRef, key: string)
    ensures c.Proxy? && key in c.custom ==>
      key in GetSidekiqOptions(c) && GetSidekiqOptions(c)[key] == c.custom[key]
    ensures (forall i :: 0 <= i < |Overrides(c)| ==> key !in Overrides(c)[i]) ==>
      (key in GetSidekiqOptions(c) <==> key in Unwrap(c).options) &&
      (key in Unwrap(c).options ==> GetSidekiqOptions(c)[key] == Unwrap(c).options[key])
  {
    match c
    case Worker(_, _) =>
    case Proxy(target, custom) =>
      if forall i :: 0 <= i < |Overrides(c)| ==> key !in Overrides(c)[i] {
        forall i | 0 <= i < |Overrides(target)|
          ensures key !in Overrides(target)[i]
        {
          assert Overrides(target)[i] == Overrides(c)[i];
        }
        OutermostOverrideWins(target, key);
        assert key !in Overrides(c)[|Overrides(c)| - 1];
      }
  }

  /** The queue a push and a new record carry: option "queue", default "default". */
  function QueueOf(opts: Options): (q: string)
    ensures "queue" !in opts ==> q == "default"
    ensures "queue" in opts && (opts["queue"].Str? || opts["queue"].Sym?) ==> q == ToS(opts["queue"])
  {
    ToS(Fetch(opts, "queue", Str("default")))
  }

  /** Option "reschedule_interval_in_seconds", default 5. */
  function RescheduleInterval(opts: Options): (secs: int)
    ensures "reschedule_interval_in_seconds" !in opts ==> secs == 5
    ensures "reschedule_interval_in_seconds" in opts && opts["reschedule_interval_in_seconds"].Num? ==>
      secs == opts["reschedule_interval_in_seconds"].n
  {
    match Fetch(opts, "reschedule_interval_in_seconds", Num(5))
    case Num(n) => n
    case _ => 5
  }

  /** Option "persist_self_dropped_jobs", default true. */
  predicate PersistSelfDroppedJobs(opts: Options)
    ensures "persist_self_dropped_jobs" !in opts ==> PersistSelfDroppedJobs(opts)
    ensures "persist_self_dropped_jobs" in opts && opts["persist_self_dropped_jobs"] == Flag(false) ==>
      !PersistSelfDroppedJobs(opts)
  {
    Truthy(Fetch(opts, "persist_self_dropped_jobs", Flag(true)))
  }
}
