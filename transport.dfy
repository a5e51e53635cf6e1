/** The HTTP transport, abstracted as a finite script of outcomes: each POST
    consumes the next one. Once the script is exhausted every POST fails at
    the transport level, as a network that has gone away would. */
module Transport {
  import opened Wire

  /** The outcome of the next POST and the script left after it. */
  function Deliver(script: seq<Outcome>): (d: (Outcome, seq<Outcome>))
    ensures script == [] ==> d == (Dropped, [])
    ensures script != [] ==> d.0 == script[0] && |d.1| == |script| - 1
    ensures d.1 == script[|script| - |d.1|..]
  {
    if script == [] then (Dropped, []) else (script[0], script[1..])
  }

  /** The connection handle: the outcomes still to come and every request
      posted through it so far. */
  class Network {
    var script: seq<Outcome>
    var log: seq<Request>

    constructor (script: seq<Outcome>)
      ensures this.script == script && log == []
    {
      this.script := script;
      log := [];
    }

    /** Posts `req` and waits for its outcome. */
    method Post(req: Request) returns (reply: Outcome)
      modifies this
      ensures log == old(log) + [req]
      ensures (reply, script) == Deliver(old(script))
    {
      log := log + [req];
      if script == [] {
        reply := Dropped;
      } else {
        reply := script[0];
        script := script[1..];
      }
    }
  }
}
