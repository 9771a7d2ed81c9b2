/** The uniqueness strategy tags and the resolver that turns the tag stored
    on a record into the strategy that executes it. */
module UniquenessStrategy {
  import opened Basics

  datatype Strategy = NoUniqueness | UntilExecuting | UntilExecuted | WhileExecuting

  /** The symbol each strategy is known by; a record stores its name. */
  function Name(s: Strategy): (tag: string)
  {
    match s
    case NoUniqueness => "no_uniqueness"
    case UntilExecuting => "until_executing"
    case UntilExecuted => "until_executed"
    case WhileExecuting => "while_executing"
  }

  /** No two strategies share a tag. */
  lemma NameInjective(s: Strategy, t: Strategy)
    ensures Name(s) == Name(t) <==> s == t
  {
  }

  /** resolve: a tag given as a string or a symbol (both reach here as its
      name) selects its strategy; any other tag raises. Nothing is read or
      written besides the tag. */
  function Resolve(tag: string): (r: Result<Strategy>)
    ensures r.Ok? <==> tag in {"no_uniqueness", "until_executing", "until_executed", "while_executing"}
    ensures r.Ok? ==> Name(r.value) == tag
    ensures r.Err? ==> (r.error == UnknownUniquenessStrategy(tag)
      && Message(r.error) == "unknown uniqueness strategy: " + tag)
  {
    if tag == Name(NoUniqueness) then Ok(NoUniqueness)
    else if tag == Name(UntilExecuting) then Ok(UntilExecuting)
    else if tag == Name(UntilExecuted) then Ok(UntilExecuted)
    else if tag == Name(WhileExecuting) then Ok(WhileExecuting)
    else Err(UnknownUniquenessStrategy(tag))
  }

  /** Every strategy's own tag resolves back to that strategy. */
  lemma ResolveName(s: Strategy)
    ensures Resolve(Name(s)) == Ok(s)
  {
  }
}
