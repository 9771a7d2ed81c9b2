/** The enqueue conflict resolution tags and the resolver that turns the
    tag stored on a new record into the strategy applied before it is pushed. */
module EnqueueConflictResolutionStrategy {
  import opened Basics

  datatype Strategy = DoNothing | DropSelf | Replace

  /** The symbol each strategy is known by; a record stores its name. */
  function Name(s: Strategy): (tag: string)
  {
    match s
    case DoNothing => "do_nothing"
    case DropSelf => "drop_self"
    case Replace => "replace"
  }

  /** No two strategies share a tag. */
  lemma NameInjective(s: Strategy, t: Strategy)
    ensures Name(s) == Name(t) <==> s == t
  {
  }

  /** resolve: a tag given as a string or a symbol selects its strategy; any
      other tag raises. Nothing is read or written besides the tag. */
  function Resolve(tag: string): (r: Result<Strategy>)
    ensures r.Ok? <==> tag in {"do_nothing", "drop_self", "replace"}
    ensures r.Ok? ==> Name(r.value) == tag
    ensures r.Err? ==> (r.error == UnknownConflictStrategy(tag)
      && Message(r.error) == "unknown enqueue conflict resolution strategy: " + tag)
  {
    if tag == Name(DoNothing) then Ok(DoNothing)
    else if tag == Name(DropSelf) then Ok(DropSelf)
    else if tag == Name(Replace) then Ok(Replace)
    else Err(UnknownConflictStrategy(tag))
  }

  /** Every strategy's own tag resolves back to that strategy. */
  lemma ResolveName(s: Strategy)
    ensures Resolve(Name(s)) == Ok(s)
  {
  }
}
