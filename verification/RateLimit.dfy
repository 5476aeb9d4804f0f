/**
 Token buckets per client in a table that drops idle clients. Time and tokens are exact reals; the
 bucket is the documented one: it starts full, gains `rate` tokens a second, holds at most `burst`.
 */
module RateLimit {
  type ClientId = string

  /** A bucket as it stood at its last admission. */
  datatype Bucket = Bucket(tokens: real, last: real)

  datatype Client = Client(bucket: Bucket, lastSeen: real)

  datatype Config = Config(rate: real, burst: nat, ttl: real)
  {
    predicate Valid() {
      rate >= 0.0
    }

    /** A bucket left alone for longer than ttl is full again; one that holds nothing always is. */
    predicate Refills() {
      burst == 0 || Flow(this, ttl) >= burst as real
    }
  }

  type Table = map<ClientId, Client>

  function Min(a: real, b: real): real {
    if a <= b then a else b
  }

  /** The tokens that flow in over a span of time: span * rate. */
  function Flow(c: Config, span: real): real {
    span * c.rate
  }

  /** The tokens a bucket would have at a time. */
  function Level(c: Config, b: Bucket, now: real): real {
    Min(c.burst as real, b.tokens + Flow(c, now - b.last))
  }

  function FullBucket(c: Config, now: real): Bucket {
    Bucket(c.burst as real, now)
  }

  /** Allow: take a token if there is a whole one; a refusal leaves the bucket alone. */
  function Allow(c: Config, b: Bucket, now: real): (bool, Bucket) {
    if Level(c, b, now) >= 1.0 then (true, Bucket(Level(c, b, now) - 1.0, now)) else (false, b)
  }

  /** getLimiter: the client's bucket, made full on first sight; either way it is seen now. */
  function GetLimiter(c: Config, t: Table, id: ClientId, now: real): Client {
    if id in t then t[id].(lastSeen := now) else Client(FullBucket(c, now), now)
  }

  /** One request: getLimiter and Allow as one step. */
  function Serve(c: Config, t: Table, id: ClientId, now: real): (bool, Table) {
    var client := GetLimiter(c, t, id, now);
    var (ok, bucket) := Allow(c, client.bucket, now);
    (ok, t[id := client.(bucket := bucket)])
  }

  /** cleanup's pass over the table. */
  function Cleanup(c: Config, t: Table, now: real): Table {
    map id | id in t && !(now - t[id].lastSeen > c.ttl) :: t[id]
  }

  datatype Event = Request(id: ClientId, at: real) | Sweep(at: real)

  /** Events in the order of the clock. */
  predicate Ordered(events: seq<Event>) {
    forall i, j :: 0 <= i < j < |events| ==> events[i].at <= events[j].at
  }

  function Step(c: Config, t: Table, e: Event, evicts: bool): Table {
    match e
    case Request(id, at) => Serve(c, t, id, at).1
    case Sweep(at) => if evicts then Cleanup(c, t, at) else t
  }

  function Verdict(c: Config, t: Table, e: Event): seq<bool> {
    if e.Request? then [Serve(c, t, e.id, e.at).0] else []
  }

  /** The table after the events, with or without eviction. */
  function TableAfter(c: Config, events: seq<Event>, evicts: bool): Table {
    if events == [] then map[]
    else Step(c, TableAfter(c, events[..|events| - 1], evicts), events[|events| - 1], evicts)
  }

  /** The verdicts of the requests, in order. */
  function Verdicts(c: Config, events: seq<Event>, evicts: bool): seq<bool> {
    if events == [] then []
    else
      var n := |events| - 1;
      Verdicts(c, events[..n], evicts) + Verdict(c, TableAfter(c, events[..n], evicts), events[n])
  }

  // ---- Eviction cannot be observed ----

  /** The tokens a client has at a time; one that is not in the table has a full bucket coming. */
  function ClientLevel(c: Config, t: Table, id: ClientId, now: real): real {
    if id in t then Level(c, t[id].bucket, now) else c.burst as real
  }

  /** Buckets were last touched when the client was last seen or before, and never went negative. */
  ghost predicate Sane(t: Table, now: real) {
    forall id :: id in t ==> t[id].bucket.last <= t[id].lastSeen <= now && 0.0 <= t[id].bucket.tokens
  }

  /** The same bucket, or two full ones. */
  ghost predicate SameClient(c: Config, t: Table, u: Table, id: ClientId, now: real) {
    || (id in t && id in u && t[id].bucket == u[id].bucket)
    || (ClientLevel(c, t, id, now) == c.burst as real == ClientLevel(c, u, id, now))
  }

  ghost predicate Agree(c: Config, t: Table, u: Table, now: real) {
    forall id :: SameClient(c, t, u, id, now)
  }

  lemma FlowSum(c: Config, a: real, b: real)
    ensures Flow(c, a + b) == Flow(c, a) + Flow(c, b)
    ensures Flow(c, 0.0) == 0.0
  {
  }

  lemma FlowNonNegative(c: Config, span: real)
    requires c.Valid() && span >= 0.0
    ensures Flow(c, span) >= 0.0
  {
  }

  lemma FlowMonotone(c: Config, short: real, long: real)
    requires c.Valid() && short <= long
    ensures Flow(c, short) <= Flow(c, long)
  {
    FlowSum(c, short, long - short);
    FlowNonNegative(c, long - short);
    assert short + (long - short) == long;
  }

  /** One bucket, at two times. */
  lemma BucketLater(c: Config, b: Bucket, now: real, later: real)
    requires c.Valid() && now <= later
    ensures Level(c, b, now) <= Level(c, b, later) <= Level(c, b, now) + Flow(c, later - now)
  {
    FlowSum(c, now - b.last, later - now);
    FlowNonNegative(c, later - now);
    assert (now - b.last) + (later - now) == later - b.last;
  }

  /** A bucket that has just been set holds what was put in. */
  lemma BucketNow(c: Config, tokens: real, now: real)
    requires tokens <= c.burst as real
    ensures Level(c, Bucket(tokens, now), now) == tokens
  {
    FlowSum(c, 0.0, 0.0);
    assert now - now == 0.0;
  }

  /** Waiting never costs tokens, and gains at most rate times the wait. */
  lemma LevelLater(c: Config, t: Table, id: ClientId, now: real, later: real)
    requires c.Valid() && now <= later
    ensures ClientLevel(c, t, id, now) <= ClientLevel(c, t, id, later)
    ensures ClientLevel(c, t, id, later) <= ClientLevel(c, t, id, now) + Flow(c, later - now)
    ensures ClientLevel(c, t, id, later) <= c.burst as real
  {
    FlowNonNegative(c, later - now);
    if id in t {
      BucketLater(c, t[id].bucket, now, later);
    }
  }

  lemma AgreeLater(c: Config, t: Table, u: Table, now: real, later: real)
    requires c.Valid() && Agree(c, t, u, now) && now <= later
    ensures Agree(c, t, u, later)
  {
    forall id ensures SameClient(c, t, u, id, later) {
      assert SameClient(c, t, u, id, now);
      LevelLater(c, t, id, now, later);
      LevelLater(c, u, id, now, later);
    }
  }

  /** Serving depends on the client's level only, and takes at most one token from it. */
  lemma ServeByLevel(c: Config, t: Table, id: ClientId, now: real)
    requires Sane(t, now)
    ensures Serve(c, t, id, now).0 <==> ClientLevel(c, t, id, now) >= 1.0
    ensures var t' := Serve(c, t, id, now).1;
            && Sane(t', now) && id in t' && t'[id].lastSeen == now
            && ClientLevel(c, t', id, now)
               == ClientLevel(c, t, id, now) - (if Serve(c, t, id, now).0 then 1.0 else 0.0)
            && (Serve(c, t, id, now).0 ==> t'[id].bucket == Bucket(ClientLevel(c, t, id, now) - 1.0, now))
            && (!Serve(c, t, id, now).0 && id in t ==> t'[id].bucket == t[id].bucket)
            && (forall other :: other != id ==> (other in t' <==> other in t) && (other in t ==> t'[other] == t[other]))
  {
    BucketNow(c, ClientLevel(c, t, id, now), now);
    BucketNow(c, ClientLevel(c, t, id, now) - 1.0, now);
  }

  lemma SpellFlow(c: Config, span: real)
    ensures Flow(c, span) == c.rate * span
  {
  }

  /** The tokens a bucket holds, spelled out: what was left, and `rate` for every second since, up to the burst. */
  lemma SpellLevel(c: Config, tokens: real, last: real, now: real)
    ensures var filled := tokens + c.rate * (now - last);
            Level(c, Bucket(tokens, last), now) == if filled <= c.burst as real then filled else c.burst as real
  {
    SpellFlow(c, now - last);
  }

  /**
   A client is admitted exactly if a whole token is there: one that is not in the table has the burst,
   another what its bucket holds. An admission takes one token and is the bucket's new reference point;
   a refusal changes nothing but the time seen.
   */
  lemma ServeExactly(c: Config, t: Table, id: ClientId, now: real, tokens: real, last: real)
    requires Sane(t, now) && (id in t ==> t[id].bucket == Bucket(tokens, last))
    ensures var (ok, t') := Serve(c, t, id, now);
            var filled := tokens + c.rate * (now - last);
            var held := if id !in t || filled > c.burst as real then c.burst as real else filled;
            && (ok <==> held >= 1.0)
            && t'.Keys == t.Keys + {id} && t'[id].lastSeen == now
            && (forall other :: other in t && other != id ==> t'[other] == t[other])
            && (ok ==> t'[id].bucket == Bucket(held - 1.0, now))
            && (!ok && id in t ==> t'[id].bucket == t[id].bucket)
  {
    ServeByLevel(c, t, id, now);
    SpellLevel(c, tokens, last, now);
  }

  /** A sweep keeps those seen within the ttl, as they are, and no others. */
  lemma CleanupKeepsExactly(c: Config, t: Table, now: real, id: ClientId)
    ensures id in Cleanup(c, t, now) <==> id in t && now - t[id].lastSeen <= c.ttl
    ensures id in Cleanup(c, t, now) ==> Cleanup(c, t, now)[id] == t[id]
  {
  }

  lemma AgreeServe(c: Config, t: Table, u: Table, id: ClientId, now: real)
    requires c.Valid() && Agree(c, t, u, now) && Sane(t, now) && Sane(u, now)
    ensures Serve(c, t, id, now).0 == Serve(c, u, id, now).0
    ensures Agree(c, Serve(c, t, id, now).1, Serve(c, u, id, now).1, now)
  {
    var t', u' := Serve(c, t, id, now).1, Serve(c, u, id, now).1;
    ServeByLevel(c, t, id, now);
    ServeByLevel(c, u, id, now);
    assert SameClient(c, t, u, id, now);
    forall other ensures SameClient(c, t', u', other, now) {
      assert SameClient(c, t, u, other, now);
    }
  }

  /** Whatever a sweep drops was full. */
  lemma SweptWereFull(c: Config, t: Table, now: real, id: ClientId)
    requires c.Valid() && c.Refills() && Sane(t, now)
    requires id in t && id !in Cleanup(c, t, now)
    ensures ClientLevel(c, t, id, now) == c.burst as real
  {
    IdleBucketIsFull(c, t[id].bucket, now);
  }

  lemma IdleBucketIsFull(c: Config, b: Bucket, now: real)
    requires c.Valid() && c.Refills() && b.tokens >= 0.0
    requires b.last <= now && now - b.last >= c.ttl
    ensures Level(c, b, now) == c.burst as real
  {
    FlowNonNegative(c, now - b.last);
    FlowMonotone(c, c.ttl, now - b.last);
  }

  lemma SweepKeepsLevels(c: Config, t: Table, now: real, id: ClientId)
    requires c.Valid() && c.Refills() && Sane(t, now)
    ensures ClientLevel(c, Cleanup(c, t, now), id, now) == ClientLevel(c, t, id, now)
  {
    if id in t && id !in Cleanup(c, t, now) {
      SweptWereFull(c, t, now, id);
    }
  }

  lemma AgreeSweep(c: Config, t: Table, u: Table, now: real)
    requires c.Valid() && c.Refills() && Agree(c, t, u, now) && Sane(t, now)
    ensures Agree(c, Cleanup(c, t, now), u, now)
  {
    forall id ensures SameClient(c, Cleanup(c, t, now), u, id, now) {
      assert SameClient(c, t, u, id, now);
      SweepKeepsLevels(c, t, now, id);
    }
  }

  /** The clock after some events: that of the last one. */
  ghost predicate ClockAt(events: seq<Event>, now: real) {
    forall k :: 0 <= k < |events| ==> events[k].at <= now
  }

  lemma {:induction false} TablesAreSane(c: Config, events: seq<Event>, evicts: bool, now: real)
    requires Ordered(events) && ClockAt(events, now)
    ensures Sane(TableAfter(c, events, evicts), now)
  {
    if events != [] {
      var e := events[|events| - 1];
      TablesAreSane(c, events[..|events| - 1], evicts, e.at);
      if e.Request? {
        ServeByLevel(c, TableAfter(c, events[..|events| - 1], evicts), e.id, e.at);
      }
    }
  }

  lemma {:induction false} EvictionUnobservable(c: Config, events: seq<Event>, now: real)
    requires c.Valid() && c.Refills() && Ordered(events) && ClockAt(events, now)
    ensures Verdicts(c, events, true) == Verdicts(c, events, false)
    ensures Agree(c, TableAfter(c, events, true), TableAfter(c, events, false), now)
  {
    if events != [] {
      var before, e := events[..|events| - 1], events[|events| - 1];
      EvictionUnobservable(c, before, e.at);
      TablesAreSane(c, before, true, e.at);
      TablesAreSane(c, before, false, e.at);
      var t, u := TableAfter(c, before, true), TableAfter(c, before, false);
      if e.Request? {
        AgreeServe(c, t, u, e.id, e.at);
      } else {
        AgreeSweep(c, t, u, e.at);
      }
      AgreeLater(c, TableAfter(c, events, true), TableAfter(c, events, false), e.at, now);
    }
  }

  // ---- Admission bound ----

  /** Requests of one client admitted in a window of time. */
  function Admitted(c: Config, events: seq<Event>, evicts: bool, id: ClientId, from: real, to: real): nat {
    if events == [] then 0
    else
      var before, e := events[..|events| - 1], events[|events| - 1];
      Admitted(c, before, evicts, id, from, to)
      + (if e.Request? && e.id == id && from <= e.at <= to && Serve(c, TableAfter(c, before, evicts), id, e.at).0
         then 1 else 0)
  }

  function Since(from: real, now: real): real {
    if now >= from then now - from else 0.0
  }

  /** Admissions plus the tokens left never exceed the burst plus what flowed in since the window opened. */
  ghost predicate WithinBudget(c: Config, admitted: int, level: real, from: real, now: real) {
    admitted as real + level <= c.burst as real + Flow(c, Since(from, now)) && (now < from ==> admitted == 0)
  }

  lemma BudgetLater(c: Config, admitted: int, level: real, level': real, from: real, now: real, later: real)
    requires c.Valid() && WithinBudget(c, admitted, level, from, now) && now <= later
    requires level' <= level + Flow(c, later - now) && level' <= c.burst as real
    ensures WithinBudget(c, admitted, level', from, later)
  {
    if now >= from {
      FlowSum(c, now - from, later - now);
      assert (now - from) + (later - now) == later - from;
    } else {
      FlowNonNegative(c, Since(from, later));
    }
  }

  lemma {:induction false} StepKeepsBudget(c: Config, before: seq<Event>, e: Event, evicts: bool, id: ClientId,
                                           from: real, to: real)
    requires c.Valid() && (evicts ==> c.Refills()) && Sane(TableAfter(c, before, evicts), e.at) && e.at <= to
    requires WithinBudget(c, Admitted(c, before, evicts, id, from, to),
                          ClientLevel(c, TableAfter(c, before, evicts), id, e.at), from, e.at)
    ensures WithinBudget(c, Admitted(c, before + [e], evicts, id, from, to),
                         ClientLevel(c, TableAfter(c, before + [e], evicts), id, e.at), from, e.at)
  {
    Snoc(c, before, e, evicts, id, from, to);
    var t := TableAfter(c, before, evicts);
    if e.Request? {
      ServeByLevel(c, t, e.id, e.at);
    } else if evicts {
      SweepKeepsLevels(c, t, e.at, id);
    }
  }

  lemma Snoc(c: Config, before: seq<Event>, e: Event, evicts: bool, id: ClientId, from: real, to: real)
    ensures TableAfter(c, before + [e], evicts) == Step(c, TableAfter(c, before, evicts), e, evicts)
    ensures Admitted(c, before + [e], evicts, id, from, to)
         == Admitted(c, before, evicts, id, from, to)
            + (if e.Request? && e.id == id && from <= e.at <= to && Serve(c, TableAfter(c, before, evicts), id, e.at).0
               then 1 else 0)
  {
    assert (before + [e])[..|before|] == before;
  }

  lemma {:induction false} AdmissionsAndLevel(c: Config, events: seq<Event>, evicts: bool, id: ClientId,
                                              from: real, to: real, now: real)
    requires c.Valid() && (evicts ==> c.Refills()) && Ordered(events) && ClockAt(events, now) && now <= to
    ensures WithinBudget(c, Admitted(c, events, evicts, id, from, to),
                         ClientLevel(c, TableAfter(c, events, evicts), id, now), from, now)
  {
    if events == [] {
      FlowNonNegative(c, Since(from, now));
    } else {
      var before, e := events[..|events| - 1], events[|events| - 1];
      AdmissionsAndLevel(c, before, evicts, id, from, to, e.at);
      TablesAreSane(c, before, evicts, e.at);
      StepKeepsBudget(c, before, e, evicts, id, from, to);
      assert before + [e] == events;
      var t := TableAfter(c, events, evicts);
      LevelLater(c, t, id, e.at, now);
      BudgetLater(c, Admitted(c, events, evicts, id, from, to), ClientLevel(c, t, id, e.at), ClientLevel(c, t, id, now),
                  from, e.at, now);
    }
  }

  lemma {:induction false} AdmissionsWithinFlow(c: Config, events: seq<Event>, evicts: bool, id: ClientId,
                                          from: real, to: real)
    requires c.Valid() && (evicts ==> c.Refills()) && Ordered(events) && from <= to
    ensures Admitted(c, events, evicts, id, from, to) as real <= c.burst as real + Flow(c, to - from)
  {
    if events == [] {
      FlowNonNegative(c, to - from);
    } else {
      var e := events[|events| - 1];
      if e.at > to {
        AdmissionsWithinFlow(c, events[..|events| - 1], evicts, id, from, to);
      } else {
        AdmissionsAndLevel(c, events, evicts, id, from, to, e.at);
        TablesAreSane(c, events, evicts, e.at);
        LevelNotNegative(c, TableAfter(c, events, evicts), id, e.at);
        BudgetBound(c, Admitted(c, events, evicts, id, from, to),
                    ClientLevel(c, TableAfter(c, events, evicts), id, e.at), from, e.at, to);
      }
    }
  }

  /** The flow spelled out. */
  lemma SpellBound(c: Config, admitted: int, span: real)
    ensures admitted as real <= c.burst as real + Flow(c, span) <==> admitted as real <= c.burst as real + c.rate * span
  {
  }

  lemma SpellRefills(c: Config)
    ensures c.Refills() <==> c.burst == 0 || c.rate * c.ttl >= c.burst as real
  {
  }

  lemma WindowFlow(c: Config, admitted: int, from: real, span: real)
    requires admitted as real <= c.burst as real + Flow(c, from + span - from)
    ensures admitted as real <= c.burst as real + c.rate * span
  {
    assert from + span - from == span;
  }

  /** In a window of any length a client is admitted at most burst + rate * length times. */
  lemma AdmissionBound(c: Config, events: seq<Event>, evicts: bool, id: ClientId, from: real, span: real)
    requires c.Valid() && (evicts ==> c.Refills()) && Ordered(events) && span >= 0.0
    ensures Admitted(c, events, evicts, id, from, from + span) as real <= c.burst as real + c.rate * span
  {
    AdmissionsWithinFlow(c, events, evicts, id, from, from + span);
    WindowFlow(c, Admitted(c, events, evicts, id, from, from + span), from, span);
  }

  lemma BudgetBound(c: Config, admitted: int, level: real, from: real, now: real, to: real)
    requires c.Valid() && WithinBudget(c, admitted, level, from, now) && level >= 0.0
    requires now <= to && from <= to
    ensures admitted as real <= c.burst as real + Flow(c, to - from)
  {
    FlowMonotone(c, Since(from, now), to - from);
    FlowNonNegative(c, to - from);
  }

  lemma LevelNotNegative(c: Config, t: Table, id: ClientId, now: real)
    requires c.Valid() && Sane(t, now)
    ensures ClientLevel(c, t, id, now) >= 0.0
  {
    if id in t {
      FlowNonNegative(c, now - t[id].bucket.last);
    }
  }

  // ---- The ttl condition is exact ----

  /** `k` requests of one client at one moment. */
  function Volley(id: ClientId, at: real, k: nat): seq<Event> {
    if k == 0 then [] else Volley(id, at, k - 1) + [Request(id, at)]
  }

  /** Drain the bucket, sweep after a gap, and drain what is there then. */
  function DrainSweepDrain(c: Config, id: ClientId, start: real, gap: real): seq<Event> {
    Volley(id, start, c.burst) + [Sweep(start + gap)] + Volley(id, start + gap, c.burst)
  }

  lemma {:induction false} VolleyTimes(id: ClientId, at: real, k: nat)
    ensures |Volley(id, at, k)| == k
    ensures forall i :: 0 <= i < k ==> Volley(id, at, k)[i] == Request(id, at)
  {
    if k > 0 {
      VolleyTimes(id, at, k - 1);
    }
  }

  lemma VolleyEnds(before: seq<Event>, id: ClientId, at: real, k: nat)
    requires k > 0
    ensures before + Volley(id, at, k) == before + Volley(id, at, k - 1) + [Request(id, at)]
  {
  }

  /** One more request of a client that has a whole token. */
  lemma OneMoreAdmitted(c: Config, before: seq<Event>, evicts: bool, id: ClientId, at: real, from: real, to: real)
    requires Sane(TableAfter(c, before, evicts), at) && from <= at <= to
    requires ClientLevel(c, TableAfter(c, before, evicts), id, at) >= 1.0
    ensures var t := TableAfter(c, before + [Request(id, at)], evicts);
            && Sane(t, at) && id in t && t[id].lastSeen == at
            && ClientLevel(c, t, id, at) == ClientLevel(c, TableAfter(c, before, evicts), id, at) - 1.0
    ensures Admitted(c, before + [Request(id, at)], evicts, id, from, to)
         == Admitted(c, before, evicts, id, from, to) + 1
  {
    Snoc(c, before, Request(id, at), evicts, id, from, to);
    ServeByLevel(c, TableAfter(c, before, evicts), id, at);
  }

  /** A volley no larger than the level is admitted whole. */
  lemma {:induction false} VolleyAdmitted(c: Config, before: seq<Event>, evicts: bool, id: ClientId, at: real, k: nat,
                                          from: real, to: real)
    requires Ordered(before) && ClockAt(before, at) && from <= at <= to
    requires ClientLevel(c, TableAfter(c, before, evicts), id, at) >= k as real
    ensures var t := TableAfter(c, before + Volley(id, at, k), evicts);
            && Sane(t, at)
            && ClientLevel(c, t, id, at) == ClientLevel(c, TableAfter(c, before, evicts), id, at) - k as real
            && (k > 0 ==> id in t && t[id].lastSeen == at)
    ensures Admitted(c, before + Volley(id, at, k), evicts, id, from, to)
         == Admitted(c, before, evicts, id, from, to) + k
  {
    if k == 0 {
      assert before + Volley(id, at, k) == before;
      TablesAreSane(c, before, evicts, at);
    } else {
      VolleyAdmitted(c, before, evicts, id, at, k - 1, from, to);
      OneMoreAdmitted(c, before + Volley(id, at, k - 1), evicts, id, at, from, to);
      VolleyEnds(before, id, at, k);
    }
  }

  lemma DrainSweepDrainTimes(c: Config, id: ClientId, start: real, gap: real)
    requires gap >= 0.0
    ensures Ordered(DrainSweepDrain(c, id, start, gap))
    ensures Ordered(Volley(id, start, c.burst) + [Sweep(start + gap)])
    ensures ClockAt(Volley(id, start, c.burst) + [Sweep(start + gap)], start + gap)
  {
    VolleyTimes(id, start, c.burst);
    VolleyTimes(id, start + gap, c.burst);
  }

  /** A client that is not in the table has its whole burst admitted. */
  lemma VolleyOfStranger(c: Config, before: seq<Event>, id: ClientId, at: real, from: real, to: real)
    requires Ordered(before) && ClockAt(before, at) && from <= at <= to && id !in TableAfter(c, before, true)
    ensures Admitted(c, before + Volley(id, at, c.burst), true, id, from, to)
         == Admitted(c, before, true, id, from, to) + c.burst
    ensures var t := TableAfter(c, before + Volley(id, at, c.burst), true);
            c.burst > 0 ==> id in t && t[id].lastSeen == at
  {
    VolleyAdmitted(c, before, true, id, at, c.burst, from, to);
  }

  /** A sweep drops a client that was last seen longer than ttl ago, and admits nothing. */
  lemma SweepDrops(c: Config, before: seq<Event>, id: ClientId, at: real, from: real, to: real)
    requires id in TableAfter(c, before, true) && at - TableAfter(c, before, true)[id].lastSeen > c.ttl
    ensures id !in TableAfter(c, before + [Sweep(at)], true)
    ensures Admitted(c, before + [Sweep(at)], true, id, from, to) == Admitted(c, before, true, id, from, to)
  {
    Snoc(c, before, Sweep(at), true, id, from, to);
  }

  /** A drain, the very first thing that happens. */
  lemma FirstDrain(c: Config, id: ClientId, start: real, to: real)
    requires c.burst > 0 && start <= to
    ensures var t := TableAfter(c, Volley(id, start, c.burst), true); id in t && t[id].lastSeen == start
    ensures Admitted(c, Volley(id, start, c.burst), true, id, start, to) == c.burst
  {
    VolleyOfStranger(c, [], id, start, start, to);
    assert [] + Volley(id, start, c.burst) == Volley(id, start, c.burst);
  }

  /** A sweep after a gap longer than ttl forgets the drained client. */
  lemma SweepForgets(c: Config, id: ClientId, start: real, gap: real)
    requires c.burst > 0 && gap > c.ttl && gap >= 0.0
    ensures var swept := Volley(id, start, c.burst) + [Sweep(start + gap)];
            && id !in TableAfter(c, swept, true)
            && Admitted(c, swept, true, id, start, start + gap) == c.burst
  {
    FirstDrain(c, id, start, start + gap);
    SweepDrops(c, Volley(id, start, c.burst), id, start + gap, start, start + gap);
  }

  /** Without the ttl condition, a sweep in the gap lets a client have its burst twice. */
  lemma {:induction false} SweepDoublesBurst(c: Config, id: ClientId, start: real, gap: real)
    requires c.burst > 0 && gap > c.ttl && gap >= 0.0
    ensures Ordered(DrainSweepDrain(c, id, start, gap))
    ensures Admitted(c, DrainSweepDrain(c, id, start, gap), true, id, start, start + gap) == 2 * c.burst
  {
    DrainSweepDrainTimes(c, id, start, gap);
    SweepForgets(c, id, start, gap);
    VolleyOfStranger(c, Volley(id, start, c.burst) + [Sweep(start + gap)], id, start + gap, start, start + gap);
  }

  lemma GapExists(c: Config) returns (gap: real)
    requires c.Valid() && !c.Refills()
    ensures gap > c.ttl && gap >= 0.0 && Flow(c, gap) < c.burst as real
  {
    if c.ttl < 0.0 {
      gap := 0.0;
    } else if c.rate == 0.0 {
      gap := c.ttl + 1.0;
    } else {
      var room := c.burst as real - Flow(c, c.ttl);
      var spare := HalfOf(c, room);
      gap := c.ttl + spare;
      FlowSum(c, c.ttl, spare);
    }
  }

  /** The time in which half of some tokens flow in. */
  lemma HalfOf(c: Config, tokens: real) returns (span: real)
    requires c.rate > 0.0 && tokens > 0.0
    ensures span > 0.0 && Flow(c, span) == tokens / 2.0
  {
    span := (tokens / 2.0) / c.rate;
  }

  /** Equal verdicts mean equal admissions. */
  lemma {:induction false} SameVerdictsSameAdmissions(c: Config, events: seq<Event>, id: ClientId, from: real, to: real)
    requires Verdicts(c, events, true) == Verdicts(c, events, false)
    ensures Admitted(c, events, true, id, from, to) == Admitted(c, events, false, id, from, to)
  {
    if events != [] {
      var before, e := events[..|events| - 1], events[|events| - 1];
      var v, w := Verdicts(c, before, true), Verdicts(c, before, false);
      var x, y := Verdict(c, TableAfter(c, before, true), e), Verdict(c, TableAfter(c, before, false), e);
      VerdictCount(c, before);
      assert (v + x)[..|v|] == (w + y)[..|w|];
      assert e.Request? ==> (v + x)[|v|] == (w + y)[|w|];
      SameVerdictsSameAdmissions(c, before, id, from, to);
    }
  }

  lemma {:induction false} VerdictCount(c: Config, events: seq<Event>)
    ensures |Verdicts(c, events, true)| == |Verdicts(c, events, false)|
  {
    if events != [] {
      VerdictCount(c, events[..|events| - 1]);
    }
  }

  lemma UnobservableMeansRefills(c: Config)
    requires c.Valid()
    ensures c.Refills()
            <==> forall events: seq<Event> | Ordered(events) :: Verdicts(c, events, true) == Verdicts(c, events, false)
  {
    if c.Refills() {
      forall events: seq<Event> | Ordered(events) ensures Verdicts(c, events, true) == Verdicts(c, events, false) {
        EvictionUnobservable(c, events, if events == [] then 0.0 else events[|events| - 1].at);
      }
    } else {
      var gap := GapExists(c);
      var events := DrainSweepDrain(c, "client", 0.0, gap);
      SweepDoublesBurst(c, "client", 0.0, gap);
      AdmissionsWithinFlow(c, events, false, "client", 0.0, gap);
      if Verdicts(c, events, true) == Verdicts(c, events, false) {
        SameVerdictsSameAdmissions(c, events, "client", 0.0, gap);
      }
    }
  }

  /**
   Sweeping can never be observed exactly when an idle bucket refills within ttl (one that holds nothing
   always has); otherwise there is a schedule, from any starting time, that the two tables answer
   differently.
   */
  lemma EvictionUnobservableExactly(c: Config)
    requires c.Valid()
    ensures c.burst == 0 || c.rate * c.ttl >= c.burst as real
            <==> forall events: seq<Event> | Ordered(events) :: Verdicts(c, events, true) == Verdicts(c, events, false)
  {
    SpellRefills(c);
    UnobservableMeansRefills(c);
  }

  ghost predicate Bounded(c: Config, events: seq<Event>, id: ClientId, from: real, span: real) {
    Admitted(c, events, true, id, from, from + span) as real <= c.burst as real + c.rate * span
  }

  lemma BoundedMeansRefills(c: Config)
    requires c.Valid()
    ensures c.Refills()
            <==> forall events: seq<Event>, id, from, span | Ordered(events) && span >= 0.0
                 :: Bounded(c, events, id, from, span)
  {
    if c.Refills() {
      forall events: seq<Event>, id, from, span | Ordered(events) && span >= 0.0
        ensures Bounded(c, events, id, from, span)
      {
        AdmissionBound(c, events, true, id, from, span);
      }
    } else {
      var gap := GapExists(c);
      UnboundedWithoutRefill(c, gap);
    }
  }

  lemma UnboundedWithoutRefill(c: Config, gap: real)
    requires c.burst > 0 && gap > c.ttl && gap >= 0.0 && Flow(c, gap) < c.burst as real
    ensures Ordered(DrainSweepDrain(c, "client", 0.0, gap))
    ensures !Bounded(c, DrainSweepDrain(c, "client", 0.0, gap), "client", 0.0, gap)
  {
    SweepDoublesBurst(c, "client", 0.0, gap);
    SpellBound(c, 2 * c.burst, gap);
    assert 0.0 + gap == gap;
  }

  /** The admission bound survives eviction under exactly the same condition. */
  lemma AdmissionBoundExactly(c: Config)
    requires c.Valid()
    ensures c.burst == 0 || c.rate * c.ttl >= c.burst as real
            <==> forall events: seq<Event>, id, from, span | Ordered(events) && span >= 0.0
                 :: Bounded(c, events, id, from, span)
  {
    SpellRefills(c);
    BoundedMeansRefills(c);
  }
}
