/** The in-process limiter as the object it is; each method answers and leaves what AskLocal does. */
module RateLimiter {
  import opened Wrappers
  import opened RateLimit

  class SlidingWindowRateLimiter {
    const limit: Limit
    var events: map<Client, seq<Time>>
    var lastSweep: Time

    constructor (limit: Limit, now: Time)
      requires ValidLimit(limit)
      ensures this.limit == limit && Contents() == Local(map[], now)
    {
      this.limit := limit;
      events, lastSweep := map[], now;
    }

    function Contents(): Local
      reads this
    {
      Local(events, lastSweep)
    }

    /** _record. */
    method Record(client: Client, now: Time) returns (reply: Reply)
      requires ValidLimit(limit)
      modifies this
      ensures (Contents(), reply) == AskLocal(limit, old(Contents()), Check(client, now))
    {
      var cutoff := now - limit.window;
      if now - lastSweep >= limit.window { Sweep(cutoff, now); }
      var window := if client in events then events[client] else [];
      ghost var all := window;
      while window != [] && window[0] <= cutoff
        invariant Trimmed(window, cutoff) == Trimmed(all, cutoff)
        decreases |window|
      {
        window := window[1..];
      }
      if |window| >= limit.max {
        events := events[client := window];
        return Refused(Max0(window[0] + limit.window - now));
      }
      events := events[client := window + [now]];
      reply := Admitted(now);
    }

    /** _sweep. */
    method Sweep(cutoff: Time, now: Time)
      modifies this
      ensures Contents() == Swept(old(Contents()), cutoff, now)
    {
      var left, all := events.Keys, events;
      while left != {}
        invariant left <= all.Keys
        invariant events == map client | client in all && (client in left || !IdleSince(all[client], cutoff)) ::
          all[client]
        decreases left
      {
        var client :| client in left;
        if IdleSince(all[client], cutoff) { events := events - {client}; }
        left := left - {client};
      }
      lastSweep := now;
    }

    method Refund(client: Client, recorded: Time)
      requires ValidLimit(limit)
      modifies this`events
      ensures Contents() == AskLocal(limit, old(Contents()), Request.Refund(client, recorded)).0
    {
      if client in events && recorded in events[client] {
        events := events[client := Without(events[client], recorded)];
      } else if client in events {
        assert events == events[client := Without(events[client], recorded)];
      }
    }

    /** _retry_after; exceeded is whether it names a time. */
    method RetryAfter(client: Client, now: Time) returns (reply: Reply)
      requires ValidLimit(limit)
      ensures (Contents(), reply) == AskLocal(limit, Contents(), Peek(client, now))
    {
      if client !in events { return Free; }
      var live := Live(events[client], now, limit.window);
      if |live| < limit.max { return Free; }
      reply := Busy(Max0(live[0] + limit.window - now));
    }

    method Reset(client: Option<Client>)
      requires ValidLimit(limit)
      modifies this`events
      ensures Contents() ==
        AskLocal(limit, old(Contents()), match client case None => ResetAll case Some(c) => Request.Reset(c)).0
    {
      match client
      case None => events := map[];
      case Some(c) => events := events - {c};
    }
  }
}
