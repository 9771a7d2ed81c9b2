/** The job transport underneath the reliability layer, reduced to what the
    layer observes: every push it accepts, in order, and the handle it
    returns for it. A push the client middleware refuses returns no handle. */
module Sidekiq {
  import opened Basics

  /** One push: the worker class, the record id it carries as its only
      argument, when it should run (None: right away) and the queue. */
  datatype Push = Push(jobClass: string, jobId: Option<Id>, at: Option<Time>, queue: string)

  class Transport {
    /** Every push accepted so far, oldest first. */
    var pushes: seq<Push>
    /** Which pushes the client middleware halts (perform_* then returns nil). */
    const refuses: Push -> bool

    constructor (refuses: Push -> bool)
      ensures this.pushes == [] && this.refuses == refuses
    {
      this.pushes := [];
      this.refuses := refuses;
    }

    /** Hand one push over; an accepted push is appended and its position
        is its handle, a refused one leaves the queue as it was. */
    method Schedule(p: Push) returns (jid: Option<Jid>)
      modifies this
      ensures refuses(p) ==> jid == None && pushes == old(pushes)
      ensures !refuses(p) ==> jid == Some(|old(pushes)|) && pushes == old(pushes) + [p]
    {
      if refuses(p) {
        jid := None;
      } else {
        jid := Some(|pushes|);
        pushes := pushes + [p];
      }
    }
  }
}
