/**
 * The TTL cache that sits in front of the status provider: a map from a key
 * derived from the request to the last successful status, with an explicit clock.
 */
module Cache {
  import opened Wrappers
  import opened CheckerTypes
  import Parse

  /**
   * How the age of an entry is compared with the TTL. `AsWritten` is the
   * source's `differenceInMilliseconds(createdAt, now)`, which is
   * createdAt - now; `Intended` is now - createdAt.
   */
  datatype ExpiryRule = AsWritten | Intended

  /** `ttl` and `clearInterval` are in milliseconds. */
  datatype Config = Config(ttl: int, clearInterval: int, rule: ExpiryRule)

  /** The configuration the service uses: four hours of TTL, a sweep every thirty minutes. */
  function ServiceConfig(): Config {
    Config(4 * 60 * 60 * 1000, 30 * 60 * 1000, AsWritten)
  }

  datatype CacheEntry = CacheEntry(createdAt: Timestamp, value: DocumentStatus)

  /** The cache map and whether the sweep timer is armed. */
  datatype State = State(entries: map<string, CacheEntry>, sweepArmed: bool)

  /** What a query does: answer from the cache, or hand the query to the wrapped provider. */
  datatype QueryOutcome =
    | Hit(delivery: Delivery)
    | Forward(reqId: RequestId, params: DocumentCheckParams)

  /**
   * `getCacheKey`: the series (when truthy) followed by the number. The key
   * begins with a truthy series and is as long as series and number together;
   * the document kind is not part of it (see `CacheKeyInjectiveOnParsed` and `CacheKeyOmitsKind`).
   */
  function CacheKey(p: DocumentCheckParams): (k: string)
    ensures p.HasSeries() ==> p.series.value <= k && |k| == |p.series.value| + |p.number|
    ensures !p.HasSeries() ==> |k| == |p.number|
  {
    if p.HasSeries() then p.series.value + p.number else p.number
  }

  /**
   * `isTtlElapsed`. As written, an entry elapses only once the clock has gone
   * back by at least `ttl` from its creation; under the intended rule it
   * elapses from `createdAt + ttl` on.
   */
  function IsTtlElapsed(cfg: Config, createdAt: Timestamp, now: Timestamp): (e: bool)
    ensures cfg.rule.AsWritten? ==> (e <==> now <= createdAt - cfg.ttl)
    ensures cfg.rule.Intended? ==> (e <==> createdAt + cfg.ttl <= now)
  {
    match cfg.rule
    case AsWritten => createdAt - now >= cfg.ttl
    case Intended => now - createdAt >= cfg.ttl
  }

  /** Construction: the first sweep runs on the empty map and arms the timer. */
  function Init(): (st: State)
    ensures st.entries == map[] && st.sweepArmed
  {
    State(map[], true)
  }

  /** `getFromCache`: a live entry's value, or nothing; an elapsed entry is deleted. */
  function GetFromCache(cfg: Config, st: State, p: DocumentCheckParams, now: Timestamp)
    : (res: (State, Option<DocumentStatus>))
    ensures var key := CacheKey(p);
      && (key !in st.entries ==> res == (st, None))
      && (key in st.entries && IsTtlElapsed(cfg, st.entries[key].createdAt, now) ==>
            res == (st.(entries := st.entries - {key}), None))
      && (key in st.entries && !IsTtlElapsed(cfg, st.entries[key].createdAt, now) ==>
            res == (st, Some(st.entries[key].value)))
  {
    var key := CacheKey(p);
    if key !in st.entries then (st, None)
    else
      var entry := st.entries[key];
      if IsTtlElapsed(cfg, entry.createdAt, now) then (st.(entries := st.entries - {key}), None)
      else (st, Some(entry.value))
  }

  /** `queryDocumentStatus` of the middleware. */
  function Query(cfg: Config, st: State, reqId: RequestId, p: DocumentCheckParams, now: Timestamp)
    : (res: (State, QueryOutcome))
    ensures res.1.Hit? <==> GetFromCache(cfg, st, p, now).1.Some?
    ensures res.1.Hit? ==> res.1.delivery == StatusResult(reqId, GetFromCache(cfg, st, p, now).1.value)
    ensures res.1.Forward? ==> res.1 == Forward(reqId, p)
    ensures res.0 == GetFromCache(cfg, st, p, now).0
  {
    var (st', cached) := GetFromCache(cfg, st, p, now);
    match cached
    case Some(v) => (st', Hit(StatusResult(reqId, v)))
    case None => (st', Forward(reqId, p))
  }

  /** `handleStatusResult`: store the status under its request's key, then pass it on. */
  function HandleStatusResult(st: State, reqId: RequestId, s: DocumentStatus, now: Timestamp)
    : (res: (State, Delivery))
    ensures res.1 == StatusResult(reqId, s)
    ensures res.0.sweepArmed == st.sweepArmed
    ensures res.0.entries.Keys == st.entries.Keys + {CacheKey(s.request)}
    ensures res.0.entries[CacheKey(s.request)] == CacheEntry(now, s)
    ensures forall k :: k in st.entries && k != CacheKey(s.request) ==> res.0.entries[k] == st.entries[k]
  {
    var key := CacheKey(s.request);
    (st.(entries := st.entries[key := CacheEntry(now, s)]), StatusResult(reqId, s))
  }

  /** `handleStatusError`: errors are passed on as they are and never cached. */
  function HandleStatusError(st: State, reqId: RequestId, err: Thrown): (res: (State, Delivery))
    ensures res.0 == st
    ensures res.1.StatusError? && res.1.reqId == reqId && res.1.err == err
  {
    (st, StatusError(reqId, err))
  }

  /**
   * The sweep body: every entry is visited and the elapsed ones are deleted.
   * Deleting the visited key during `forEach` does not disturb the visit of the others.
   */
  method Sweep(cfg: Config, entries: map<string, CacheEntry>, now: Timestamp)
    returns (kept: map<string, CacheEntry>)
    ensures forall k :: k in kept <==> k in entries && !IsTtlElapsed(cfg, entries[k].createdAt, now)
    ensures forall k :: k in kept ==> kept[k] == entries[k]
  {
    kept := entries;
    var pending := entries.Keys;
    while pending != {}
      invariant pending <= entries.Keys
      invariant forall k :: k in pending ==> k in kept
      invariant forall k :: k in kept ==> k in entries && kept[k] == entries[k]
      invariant forall k :: k in entries && k !in pending ==>
                  (k in kept <==> !IsTtlElapsed(cfg, entries[k].createdAt, now))
      decreases pending
    {
      var k :| k in pending;
      if IsTtlElapsed(cfg, kept[k].createdAt, now) {
        kept := kept - {k};
      }
      pending := pending - {k};
    }
  }

  /** A firing of the sweep timer: sweep, then arm the timer again. */
  method SweepTimerFired(cfg: Config, st: State, now: Timestamp) returns (st': State)
    requires st.sweepArmed
    ensures st'.sweepArmed
    ensures forall k :: k in st'.entries <==> k in st.entries && !IsTtlElapsed(cfg, st.entries[k].createdAt, now)
    ensures forall k :: k in st'.entries ==> st'.entries[k] == st.entries[k]
  {
    var kept := Sweep(cfg, st.entries, now);
    st' := State(kept, true);
  }

  /** The cache after `dispose`, and whether the wrapped provider is disposed in turn. */
  datatype Disposal = Disposal(state: State, providerDisposed: bool)

  /** `dispose`: the sweep timer is cancelled, the map is emptied, and the wrapped provider is disposed. */
  function Dispose(st: State): (d: Disposal)
    ensures d.state.entries == map[] && !d.state.sweepArmed
    ensures d.providerDisposed
  {
    Disposal(State(map[], false), true)
  }

  /**
   * Disposing twice leaves the same state as disposing once, and a disposed
   * cache answers nothing. The second `dispose()` does call the wrapped
   * provider's `dispose()` again; `providerDisposed` records only that it was called.
   */
  lemma DisposeIdempotent(cfg: Config, st: State, reqId: RequestId, p: DocumentCheckParams, now: Timestamp)
    ensures Dispose(Dispose(st).state) == Dispose(st)
    ensures Query(cfg, Dispose(st).state, reqId, p, now).1 == Forward(reqId, p)
  {
  }

  /**
   * Keys of references the parser emits never collide: the key of a card is
   * nine digits, the key of a legacy passport starts with a letter, and within
   * one kind the key determines series and number.
   */
  lemma {:induction false} CacheKeyInjectiveOnParsed(r1: DocumentRef, r2: DocumentRef)
    requires Parse.WellFormed(r1) && Parse.WellFormed(r2)
    requires CacheKey(r1.Params()) == CacheKey(r2.Params())
    ensures r1 == r2
  {
    var k := CacheKey(r1.Params());
    if r1.docType == LegacyPassport {
      Parse.SeriesLettersAreNotDigitsOrSpace(r1.series.value[0]);
      assert k[0] == r1.series.value[0];
    }
    if r2.docType == LegacyPassport {
      Parse.SeriesLettersAreNotDigitsOrSpace(r2.series.value[0]);
      assert k[0] == r2.series.value[0];
    }
    if r1.docType == LegacyPassport && r2.docType == LegacyPassport {
      assert r1.series.value == k[..2] == r2.series.value;
      assert r1.number == k[2..] == r2.number;
    }
  }

  /** The key does not encode the kind: raw parameters of different shapes can share a key. */
  lemma CacheKeyOmitsKind()
    ensures CacheKey(DocumentCheckParams(Some("12"), "3456789")) == CacheKey(DocumentCheckParams(None, "123456789"))
  {
  }

  /**
   * A stored result answers the next query for the same key from the cache,
   * without the wrapped provider, for as long as the entry has not elapsed.
   */
  lemma StoredResultIsServed(cfg: Config, st: State, reqId: RequestId, s: DocumentStatus, t: Timestamp,
                             reqId2: RequestId, p: DocumentCheckParams, t2: Timestamp)
    requires CacheKey(p) == CacheKey(s.request)
    requires !IsTtlElapsed(cfg, t, t2)
    ensures var st1 := HandleStatusResult(st, reqId, s, t).0;
            Query(cfg, st1, reqId2, p, t2) == (st1, Hit(StatusResult(reqId2, s)))
  {
  }

  /** As written, an entry never elapses once the TTL is positive and the clock does not run backwards. */
  lemma AsWrittenNeverElapses(ttl: int, clearInterval: int, createdAt: Timestamp, now: Timestamp)
    requires ttl > 0 && createdAt <= now
    ensures !IsTtlElapsed(Config(ttl, clearInterval, AsWritten), createdAt, now)
  {
  }

  /**
   * As written, a status stored at time 0 under the service's four-hour TTL
   * is still served a year later, and the sweep keeps it.
   */
  method AsWrittenServesStaleEntry(s: DocumentStatus) returns (outcome: QueryOutcome, swept: State)
    ensures outcome == Hit(StatusResult("chat", s))
    ensures CacheKey(s.request) in swept.entries
  {
    var cfg := ServiceConfig();
    var yearLater := 365 * 24 * 60 * 60 * 1000;
    var (st, _) := HandleStatusResult(Init(), "chat", s, 0);
    var (st', o) := Query(cfg, st, "chat", s.request, yearLater);
    outcome := o;
    swept := SweepTimerFired(cfg, st, yearLater);
  }

  /**
   * With the intended rule, once the TTL has passed the query is handed to the
   * provider again and the elapsed entry is deleted.
   */
  lemma IntendedExpiredEntryForwarded(ttl: int, clearInterval: int, st: State, reqId: RequestId,
                                      s: DocumentStatus, t: Timestamp, reqId2: RequestId, t2: Timestamp)
    requires t2 >= t + ttl
    ensures var cfg := Config(ttl, clearInterval, Intended);
            var st1 := HandleStatusResult(st, reqId, s, t).0;
            var (st2, outcome) := Query(cfg, st1, reqId2, s.request, t2);
            && outcome == Forward(reqId2, s.request)
            && CacheKey(s.request) !in st2.entries
  {
  }

  /** With the intended rule, the sweep removes exactly the entries at least `ttl` old. */
  method IntendedSweepBoundsAge(ttl: int, clearInterval: int, st: State, now: Timestamp)
    returns (st': State)
    ensures forall k :: k in st'.entries <==> k in st.entries && now - st.entries[k].createdAt < ttl
  {
    var kept := Sweep(Config(ttl, clearInterval, Intended), st.entries, now);
    st' := st.(entries := kept);
  }
}
