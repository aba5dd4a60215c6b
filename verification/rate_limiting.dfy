/**
 * The per-IP rate limiter table (internal/controller/rate_limiting.go). The
 * table maps a client IP to its limiter and the instant it was last seen;
 * getClient inserts or refreshes an entry and one sweep of cleanupClients
 * evicts the entries idle for more than three minutes. Instants are
 * nanoseconds, and the current instant is passed in.
 */
module RateLimiting {

  const Second: int := 1_000_000_000
  const Minute: int := 60 * Second

  /** An entry idle for longer than this is evicted by a sweep. */
  const IdleLimit: int := 3 * Minute

  /** The limiter every new client gets: one event per second, bursts of five. */
  const ClientRate: int := 1
  const ClientBurst: int := 5

  /**
   * A token-bucket limiter (rate.Limiter). Its bucket is not modelled: the
   * answer of Allow() is an input wherever the model needs it.
   */
  class Limiter {
    const limit: int
    const burst: int

    constructor (limit: int, burst: int)
      ensures this.limit == limit && this.burst == burst
    {
      this.limit := limit;
      this.burst := burst;
    }
  }

  /** A table entry. The table owns the only pointer to it, so updating it in place is replacing it. */
  datatype Client = Client(limiter: Limiter, lastSeen: int)

  /** time.Since(c.lastSeen) > 3*time.Minute: more than 180 seconds since the client was last seen. */
  predicate Idle(c: Client, now: int): (b: bool)
    ensures b <==> now > c.lastSeen + 180_000_000_000
  {
    now - c.lastSeen > IdleLimit
  }

  /** An entry that is idle stays idle as time passes until it is seen again. */
  lemma IdleStaysIdle(c: Client, now: int, later: int)
    requires now <= later
    ensures Idle(c, now) ==> Idle(c, later)
  {
  }

  /** The table one sweep at `now` leaves behind: the entries that are not idle, untouched. */
  function Evicted(clients: map<string, Client>, now: int): (r: map<string, Client>)
    ensures forall ip :: ip in r <==> ip in clients && !Idle(clients[ip], now)
    ensures forall ip | ip in r :: r[ip] == clients[ip]
  {
    map ip | ip in clients && !Idle(clients[ip], now) :: clients[ip]
  }

  class RateLimiter {
    var clients: map<string, Client>

    /** newRateLimiter: an empty table (the sweeping goroutine is modelled by CleanupClients). */
    constructor ()
      ensures clients == map[]
    {
      clients := map[];
    }

    /**
     * getClient: a known IP keeps its limiter and has its lastSeen refreshed;
     * an unknown IP gets a fresh limiter at 1 event/s with burst 5. Nothing
     * else in the table changes.
     */
    method GetClient(ip: string, now: int) returns (limiter: Limiter)
      modifies this
      ensures clients == Refreshed(old(clients), ip, now, limiter)
      ensures ip in old(clients) ==> limiter == old(clients)[ip].limiter
      ensures ip !in old(clients) ==> fresh(limiter) && limiter.limit == ClientRate && limiter.burst == ClientBurst
    {
      if ip in clients {
        var c := clients[ip];
        clients := clients[ip := c.(lastSeen := now)];
        return c.limiter;
      }
      limiter := new Limiter(ClientRate, ClientBurst);
      clients := clients[ip := Client(limiter, now)];
    }

    /** One pass of cleanupClients at instant `now`: delete every idle entry while ranging over the table. */
    method CleanupClients(now: int)
      modifies this
      ensures clients == Evicted(old(clients), now)
    {
      var pending := clients.Keys;
      while pending != {}
        invariant pending <= clients.Keys
        invariant forall ip :: ip in clients <==> ip in old(clients) && (ip in pending || !Idle(old(clients)[ip], now))
        invariant forall ip | ip in clients :: clients[ip] == old(clients)[ip]
        decreases pending
      {
        var ip :| ip in pending;
        if now - clients[ip].lastSeen > IdleLimit {
          clients := clients - {ip};
        }
        pending := pending - {ip};
      }
    }
  }

  /** The table after getClient(ip) at `now`, whichever limiter it hands out. */
  function Refreshed(clients: map<string, Client>, ip: string, now: int, limiter: Limiter): (r: map<string, Client>)
    ensures ip in r && r[ip].lastSeen == now
    ensures forall other | other != ip :: (other in r <==> other in clients) && (other in clients ==> r[other] == clients[other])
    ensures |r| <= |clients| + 1
    ensures ip in clients ==> |r| == |clients|
  {
    clients[ip := Client(limiter, now)]
  }

  /** An entry idle exactly three minutes survives the sweep: the comparison is strict. */
  lemma SweepKeepsBoundary(clients: map<string, Client>, ip: string, now: int)
    requires ip in clients && now - clients[ip].lastSeen == IdleLimit
    ensures ip in Evicted(clients, now) && Evicted(clients, now)[ip] == clients[ip]
  {
  }

  /** A sweep never grows the table. */
  lemma SweepNeverGrows(clients: map<string, Client>, now: int)
    ensures Evicted(clients, now).Keys <= clients.Keys
    ensures |Evicted(clients, now)| <= |clients|
  {
    var r := Evicted(clients, now);
    assert r.Keys <= clients.Keys;
    SubsetCardinality(r.Keys, clients.Keys);
    assert |r.Keys| == |r|;
  }

  lemma {:induction false} SubsetCardinality<T>(a: set<T>, b: set<T>)
    requires a <= b
    ensures |a| <= |b|
    decreases |b|
  {
    if a != {} {
      var x :| x in a;
      SubsetCardinality(a - {x}, b - {x});
    }
  }

  /** Sweeping twice at the same instant is sweeping once. */
  lemma SweepIdempotent(clients: map<string, Client>, now: int)
    ensures Evicted(Evicted(clients, now), now) == Evicted(clients, now)
  {
  }

  /** A later sweep evicts at least what an earlier one would. */
  lemma SweepMonotoneInTime(clients: map<string, Client>, t1: int, t2: int)
    requires t1 <= t2
    ensures Evicted(clients, t2).Keys <= Evicted(clients, t1).Keys
  {
  }

  /** A client seen at `seen` survives every sweep up to three minutes later. */
  lemma RecentClientSurvives(clients: map<string, Client>, ip: string, limiter: Limiter, seen: int, now: int)
    requires seen <= now <= seen + IdleLimit
    ensures ip in Evicted(Refreshed(clients, ip, seen, limiter), now)
  {
  }

  /** A client not seen for more than three minutes is gone after the sweep. */
  lemma StaleClientEvicted(clients: map<string, Client>, ip: string, now: int)
    requires ip in clients && now - clients[ip].lastSeen > IdleLimit
    ensures ip !in Evicted(clients, now)
  {
  }
}
