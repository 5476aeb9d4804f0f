/** Endpoint patterns: which paths one matches, and when two of them leave the choice to map order. */
module Endpoints {
  import opened RateLimit
  import opened RateLimiter

  predicate IsWildcard(pattern: string) {
    |pattern| > 0 && pattern[|pattern| - 1] == '*'
  }

  /** A wildcard pattern without its star. */
  function Stem(pattern: string): string {
    if IsWildcard(pattern) then pattern[..|pattern| - 1] else pattern
  }

  predicate MatchPath(pattern: string, path: string) {
    || pattern == path
    || (IsWildcard(pattern) && |path| >= |pattern| - 1 && path[..|pattern| - 1] == pattern[..|pattern| - 1])
  }

  /** A wildcard matches the paths that begin with its stem, any other pattern itself alone. */
  lemma MatchMeansPrefix(pattern: string, path: string)
    ensures MatchPath(pattern, path) <==> if IsWildcard(pattern) then Stem(pattern) <= path else pattern == path
  {
  }

  /** The same without naming either: the pattern itself, or anything that begins with what its last star follows. */
  lemma MatchesExactly(pattern: string, path: string)
    ensures MatchPath(pattern, path)
            <==> path == pattern || exists stem: string :: pattern == stem + "*" && stem <= path
  {
    if IsWildcard(pattern) {
      assert pattern == Stem(pattern) + "*";
    }
    if stem: string :| pattern == stem + "*" && stem <= path {
      assert pattern[..|pattern| - 1] == stem;
    }
  }

  predicate Overlap(p: string, q: string) {
    || (IsWildcard(p) && Stem(p) <= Stem(q))
    || (IsWildcard(q) && Stem(q) <= Stem(p))
    || p == q
  }

  lemma PrefixesOfOnePath(a: string, b: string, path: string)
    requires a <= path && b <= path
    ensures a <= b || b <= a
  {
    if |a| <= |b| {
      assert a == path[..|a|] == b[..|a|];
    } else {
      assert b == path[..|b|] == a[..|b|];
    }
  }

  /** Some path matches both patterns exactly when one stem extends a wildcard's stem. */
  lemma OverlapIsSharedPath(p: string, q: string)
    ensures Overlap(p, q) <==> exists path :: MatchPath(p, path) && MatchPath(q, path)
  {
    if Overlap(p, q) {
      var path := if IsWildcard(p) && Stem(p) <= Stem(q) then Stem(q) else Stem(p);
      MatchMeansPrefix(p, path);
      MatchMeansPrefix(q, path);
      assert MatchPath(p, path) && MatchPath(q, path);
    }
    if path :| MatchPath(p, path) && MatchPath(q, path) {
      MatchMeansPrefix(p, path);
      MatchMeansPrefix(q, path);
      PrefixesOfOnePath(Stem(p), Stem(q), path);
    }
  }

  class PerEndpointLimiter {
    const defaults: RateLimiter
    var limiters: map<string, RateLimiter>

    /** The default limiter forgets a client after ten minutes; times are in seconds. */
    constructor (defaultRate: real, defaultBurst: nat)
      ensures limiters == map[] && defaults.Contents == map[]
      ensures defaults.config == Config(defaultRate, defaultBurst, 600.0)
    {
      defaults := new RateLimiter(Config(defaultRate, defaultBurst, 600.0));
      limiters := map[];
    }

    /** A pattern set again gets a new, empty limiter. */
    method SetEndpointRate(pattern: string, config: Config)
      modifies this
      ensures limiters.Keys == old(limiters.Keys) + {pattern}
      ensures limiters[pattern].config == config && fresh(limiters[pattern]) && limiters[pattern].Contents == map[]
      ensures forall p :: p in old(limiters) && p != pattern ==> limiters[p] == old(limiters[p])
    {
      var limiter := new RateLimiter(config);
      limiters := limiters[pattern := limiter];
    }

    ghost predicate OverlapsNone(p: string)
      reads this
    {
      forall q :: q in limiters && q != p ==> !Overlap(p, q)
    }

    /** The limiter for a path: some matching one in map order, or the default when none matches. */
    method Choose(path: string) returns (limiter: RateLimiter)
      ensures (exists p :: p in limiters && MatchPath(p, path) && limiter == limiters[p])
              || ((forall p :: p in limiters ==> !MatchPath(p, path)) && limiter == defaults)
      ensures forall p :: p in limiters && MatchPath(p, path) && OverlapsNone(p) ==> limiter == limiters[p]
    {
      var todo := limiters.Keys;
      while todo != {}
        invariant todo <= limiters.Keys
        invariant forall p :: p in limiters && p !in todo ==> !MatchPath(p, path)
      {
        var pattern :| pattern in todo;
        if MatchPath(pattern, path) {
          forall p | p in limiters && MatchPath(p, path) && p != pattern ensures Overlap(p, pattern) {
            OverlapIsSharedPath(p, pattern);
          }
          return limiters[pattern];
        }
        todo := todo - {pattern};
      }
      limiter := defaults;
    }
  }
}
