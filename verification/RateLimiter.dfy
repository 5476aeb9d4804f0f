/** The limiter as objects: buckets and clients updated in place, a table that adds and deletes them. */
module RateLimiter {
  import opened RateLimit

  /** rate.Limiter: it knows its rate and burst, and moves only when it admits. */
  class TokenBucket {
    const config: Config
    var tokens: real
    var last: real

    constructor (config: Config, now: real)
      ensures this.config == config && State() == FullBucket(config, now)
    {
      this.config := config;
      tokens, last := config.burst as real, now;
    }

    function State(): Bucket
      reads this
    {
      Bucket(tokens, last)
    }

    method Allow(now: real) returns (ok: bool)
      modifies this
      ensures ok == RateLimit.Allow(config, old(State()), now).0
      ensures State() == RateLimit.Allow(config, old(State()), now).1
    {
      var available := Level(config, Bucket(tokens, last), now);
      ok := available >= 1.0;
      if ok {
        tokens, last := available - 1.0, now;
      }
    }
  }

  class ClientLimiter {
    const limiter: TokenBucket
    var lastSeen: real

    constructor (limiter: TokenBucket, now: real)
      ensures this.limiter == limiter && lastSeen == now
    {
      this.limiter := limiter;
      lastSeen := now;
    }
  }

  lemma ServeIsTwoCalls(c: Config, t: Table, id: ClientId, now: real)
    ensures var seen := t[id := RateLimit.GetLimiter(c, t, id, now)];
            var after := RateLimit.Allow(c, seen[id].bucket, now);
            RateLimit.Serve(c, t, id, now) == (after.0, seen[id := seen[id].(bucket := after.1)])
  {
    var seen := t[id := RateLimit.GetLimiter(c, t, id, now)];
    var bucket := RateLimit.Allow(c, seen[id].bucket, now).1;
    assert seen[id := seen[id].(bucket := bucket)] == t[id := seen[id].(bucket := bucket)];
  }

  class RateLimiter {
    const config: Config
    var clients: map<ClientId, ClientLimiter>

    ghost var Contents: Table       // the table as a value
    ghost var Repr: set<object>     // the clients and their buckets

    constructor (config: Config)
      ensures this.config == config && Valid() && fresh(Repr) && Contents == map[]
    {
      this.config := config;
      clients := map[];
      Contents, Repr := map[], {};
    }

    /** One client's objects hold what the table value says. */
    ghost predicate Holds(id: ClientId)
      requires id in clients
      reads this, Repr
    {
      var client := clients[id];
      && client in Repr && client.limiter in Repr
      && client.limiter.config == config
      && id in Contents && Contents[id] == Client(Bucket(client.limiter.tokens, client.limiter.last), client.lastSeen)
    }

    /** Every client is held, and no two share an object. */
    ghost predicate Valid()
      reads this, Repr
    {
      && this !in Repr
      && clients.Keys == Contents.Keys
      && (forall id :: id in clients ==> Holds(id))
      && (forall a, b :: a in clients && b in clients && a != b
                         ==> clients[a] != clients[b] && clients[a].limiter != clients[b].limiter)
    }

    method GetLimiter(id: ClientId, now: real) returns (limiter: TokenBucket)
      requires Valid()
      modifies this, Repr
      ensures Valid() && fresh(Repr - old(Repr))
      ensures id in clients && limiter == clients[id].limiter && limiter in Repr
      ensures Contents == old(Contents)[id := RateLimit.GetLimiter(config, old(Contents), id, now)]
    {
      if id in clients {
        assert Holds(id);
        clients[id].lastSeen := now;
        Contents := Contents[id := Contents[id].(lastSeen := now)];
        return clients[id].limiter;
      }
      limiter := new TokenBucket(config, now);
      var client := new ClientLimiter(limiter, now);
      clients := clients[id := client];
      Contents := Contents[id := Client(FullBucket(config, now), now)];
      Repr := Repr + {limiter, client};
    }

    /** Allow on the bucket that GetLimiter handed out. */
    method AllowOn(id: ClientId, limiter: TokenBucket, now: real) returns (ok: bool)
      requires Valid() && id in clients && limiter == clients[id].limiter
      modifies this`Contents, limiter
      ensures Valid()
      ensures ok == RateLimit.Allow(config, old(Contents[id].bucket), now).0
      ensures Contents == old(Contents)[id := old(Contents[id]).(bucket :=
                RateLimit.Allow(config, old(Contents[id].bucket), now).1)]
    {
      assert Holds(id);
      ok := limiter.Allow(now);
      Contents := Contents[id := Contents[id].(bucket := limiter.State())];
      assert forall other :: other in clients && other != id ==> clients[other].limiter != limiter;
    }

    /** The middleware's two calls, with nothing in between. */
    method Serve(id: ClientId, now: real) returns (ok: bool)
      requires Valid()
      modifies this, Repr
      ensures Valid() && fresh(Repr - old(Repr))
      ensures ok == RateLimit.Serve(config, old(Contents), id, now).0
      ensures Contents == RateLimit.Serve(config, old(Contents), id, now).1
    {
      ServeIsTwoCalls(config, Contents, id, now);
      var limiter := GetLimiter(id, now);
      ok := AllowOn(id, limiter, now);
    }

    method Cleanup(now: real)
      requires Valid()
      modifies this
      ensures Valid() && Repr == old(Repr)
      ensures Contents == RateLimit.Cleanup(config, old(Contents), now)
    {
      ghost var before := clients;
      ghost var idle := set id | id in clients && now - clients[id].lastSeen > config.ttl;
      var todo := clients.Keys;
      while todo != {}
        invariant todo <= before.Keys && clients == before - (idle - todo)
        invariant Repr == old(Repr) && Contents == old(Contents)
      {
        var id :| id in todo;
        if now - clients[id].lastSeen > config.ttl {
          clients := clients - {id};
        }
        todo := todo - {id};
      }
      assert forall id :: id in before ==> Contents[id].lastSeen == before[id].lastSeen;
      Contents := RateLimit.Cleanup(config, Contents, now);
    }
  }
}
