/** The queue of sanctions from the message handler to the responder: first in, first out. `open` is
    false once the receiving side is gone, after which a send fails and its sanction is lost. */
module Channel {
  import opened Sanctions

  class Channel {
    var items: seq<Sanction>
    var open: bool

    constructor ()
      ensures items == [] && open
    {
      items := [];
      open := true;
    }

    /** `send`: queues the sanction behind the others; fails, queuing nothing, when the receiver is gone. */
    method Send(s: Sanction) returns (ok: bool)
      modifies this
      ensures ok == old(open) && open == old(open)
      ensures items == if old(open) then old(items) + [s] else old(items)
    {
      ok := open;
      if open {
        items := items + [s];
      }
    }

    /** Takes the oldest queued sanction. */
    method Recv() returns (s: Sanction)
      requires items != []
      modifies this
      ensures s == old(items)[0] && items == old(items)[1..] && open == old(open)
    {
      s := items[0];
      items := items[1..];
    }

    /** The receiver goes away: queued sanctions are dropped and later sends fail. */
    method Close()
      modifies this
      ensures items == [] && !open
    {
      items := [];
      open := false;
    }
  }
}
