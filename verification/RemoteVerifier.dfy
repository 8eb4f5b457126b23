/** The verifier that fetches a key set from a URL and caches it, and what it promises over every run:
    how often it fetches, where the key it hands out comes from, and when a key is available. */
module RemoteVerifier {
  import opened Tables
  import opened Jwks
  import opened Text

  const SECOND: int := 1_000_000_000
  const COOLDOWN: int := 15 * SECOND
  const DEFAULT_LIFETIME: int := 300 * SECOND
  const MAX_STALE: int := 3600 * SECOND

  /** What the endpoint does when it is asked: an error, or a document and the time it arrived. */
  datatype Fetch = Failed | Served(doc: seq<Jwk>, at: Time)

  predicate Good(f: Fetch) { f.Served? && KeysOf(f.doc).Ok? }

  datatype Cache = Cache(
    keys: KeySet,
    fetchedAt: Time,
    expiresAt: Time,
    lastAttempt: Option<Time>,
    lastUnknown: Option<Time>)

  /** One lookup: the key identifier of the token, the time, and how a fetch would go. */
  datatype Call = Call(kid: string, now: Time, fetch: Fetch)

  datatype Reply = Key(key: RsaKey) | BlankId | RefreshFailed | TooStale | UnknownKey

  predicate Cooled(last: Option<Time>, now: Time) {
    last.None? || now - last.value >= COOLDOWN
  }

  /** The lookup goes to the network. */
  predicate Attempts(c: Cache, k: Call) {
    && !Blank(k.kid)
    && (|| (k.now > c.expiresAt && Cooled(c.lastAttempt, k.now))
        || (k.kid !in c.keys && Cooled(c.lastUnknown, k.now)))
  }

  /** A good document replaces the keys and restarts both clocks; anything else changes nothing. */
  function Refreshed(life: int, c: Cache, f: Fetch): Cache {
    if Good(f) then c.(keys := KeysOf(f.doc).value, fetchedAt := f.at, expiresAt := f.at + life) else c
  }

  function Noted(c: Cache, k: Call): Cache {
    c.(lastAttempt := Some(k.now), lastUnknown := if k.kid in c.keys then c.lastUnknown else Some(k.now))
  }

  function Step(life: int, c: Cache, k: Call): Cache {
    if Attempts(c, k) then Refreshed(life, Noted(c, k), k.fetch) else c
  }

  function Answer(life: int, c: Cache, k: Call): Reply {
    var c' := Step(life, c, k);
    var stale := k.now - c'.fetchedAt > MAX_STALE;
    if Blank(k.kid) then BlankId
    else if Attempts(c, k) && !Good(k.fetch) && (k.kid !in c'.keys || stale) then RefreshFailed
    else if k.kid !in c'.keys then UnknownKey
    else if stale then TooStale
    else Key(c'.keys[k.kid])
  }

  class RemoteVerifier {
    const cacheLifetime: int
    var keys: KeySet
    var fetchedAt: Time
    var expiresAt: Time
    var lastAttempt: Option<Time>
    var lastUnknown: Option<Time>

    function View(): Cache
      reads this
    {
      Cache(keys, fetchedAt, expiresAt, lastAttempt, lastUnknown)
    }

    constructor (lifetime: int)
      ensures cacheLifetime == if lifetime <= 0 then DEFAULT_LIFETIME else lifetime
      ensures View() == Cache(map[], 0, 0, None, None)
    {
      cacheLifetime := if lifetime <= 0 then DEFAULT_LIFETIME else lifetime;
      keys, fetchedAt, expiresAt, lastAttempt, lastUnknown := map[], 0, 0, None, None;
    }

    method Refresh(fetch: Fetch) returns (ok: bool)
      modifies this
      ensures ok == Good(fetch) && View() == Refreshed(cacheLifetime, old(View()), fetch)
    {
      if fetch.Failed? { return false; }
      var parsed := ReadDocument(fetch.doc);
      if parsed.Err? { return false; }
      keys := parsed.value;
      fetchedAt := fetch.at;
      expiresAt := fetchedAt + cacheLifetime;
      return true;
    }

    /** The key-selection part of verifying a token. */
    method Lookup(kid: string, now: Time, fetch: Fetch) returns (r: Reply)
      modifies this
      ensures r == Answer(cacheLifetime, old(View()), Call(kid, now, fetch))
      ensures View() == Step(cacheLifetime, old(View()), Call(kid, now, fetch))
    {
      if Blank(kid) { return BlankId; }
      var key := if kid in keys then Some(keys[kid]) else None;
      var cacheExpired := now > expiresAt;
      var unknown := key.None?;
      var canRefreshExpired := lastAttempt.None? || now - lastAttempt.value >= COOLDOWN;
      var canRefreshUnknown := lastUnknown.None? || now - lastUnknown.value >= COOLDOWN;
      if (cacheExpired && canRefreshExpired) || (unknown && canRefreshUnknown) {
        lastAttempt := Some(now);
        if unknown { lastUnknown := Some(now); }
        var ok := Refresh(fetch);
        key := if kid in keys then Some(keys[kid]) else None;
        if !ok && (key.None? || now - fetchedAt > MAX_STALE) { return RefreshFailed; }
      }
      if key.Some? && now - fetchedAt > MAX_STALE { return TooStale; }
      if key.None? { return UnknownKey; }
      return Key(key.value);
    }
  }

  /** Opening a verifier fetches once, and gives nothing when that fails. */
  method Open(lifetime: int, fetch: Fetch) returns (v: RemoteVerifier?)
    ensures v == null <==> !Good(fetch)
    ensures v != null ==> fresh(v) && v.View() == Opened(v.cacheLifetime, fetch)
    ensures v != null ==> v.cacheLifetime == if lifetime <= 0 then DEFAULT_LIFETIME else lifetime
  {
    var verifier := new RemoteVerifier(lifetime);
    var ok := verifier.Refresh(fetch);
    v := if ok then verifier else null;
  }

  function Opened(life: int, fetch: Fetch): Cache
    requires Good(fetch)
  {
    Cache(KeysOf(fetch.doc).value, fetch.at, fetch.at + life, None, None)
  }

  // ---- one lookup -------------------------------------------------------------------

  /** A lookup goes to the network exactly for an expired cache that was not retried in the last 15 seconds, or for a
      key that is not cached when no unknown key was looked for in the last 15 seconds. */
  lemma AttemptsExactly(c: Cache, k: Call)
    ensures Attempts(c, k) <==>
      && (exists x <- k.kid :: !IsSpace(x))
      && (|| (k.now > c.expiresAt && (c.lastAttempt == None || k.now >= c.lastAttempt.value + 15_000_000_000))
          || (k.kid !in c.keys && (c.lastUnknown == None || k.now >= c.lastUnknown.value + 15_000_000_000)))
  {
    hide IsSpace;
  }

  /** The document whose keys a lookup answers from: the one it fetched, or the cached one. */
  function Current(c: Cache, k: Call): (KeySet, Time) {
    if Attempts(c, k) && Good(k.fetch) then (KeysOf(k.fetch.doc).value, k.fetch.at) else (c.keys, c.fetchedAt)
  }

  /** It answers with a key exactly when that document has it and is at most an hour old, and otherwise says why; a
      failed fetch is the reason only if the cached keys cannot answer. */
  lemma LookupExactly(life: int, c: Cache, k: Call)
    ensures var r := Answer(life, c, k);
      var (keys, at) := Current(c, k);
      var aged := k.now > at + 3_600_000_000_000;
      var failed := Attempts(c, k) && !Good(k.fetch);
      && (r == BlankId <==> forall x <- k.kid :: IsSpace(x))
      && (r.Key? <==> !Blank(k.kid) && k.kid in keys && !aged)
      && (r.Key? ==> r.key == keys[k.kid])
      && (r == RefreshFailed <==> !Blank(k.kid) && failed && (k.kid !in keys || aged))
      && (r == UnknownKey <==> !Blank(k.kid) && !failed && k.kid !in keys)
      && (r == TooStale <==> !Blank(k.kid) && !failed && k.kid in keys && aged)
  {
    hide IsSpace, KeysOf, Attempts;
  }

  /** What a lookup leaves: the keys it answered from with their time and expiry, and the time of the attempt, which
      counts as a search for an unknown key exactly if the key was not cached before. */
  lemma LookupLeaves(life: int, c: Cache, k: Call)
    ensures var c' := Step(life, c, k);
      && (c'.keys, c'.fetchedAt) == Current(c, k)
      && c'.expiresAt == (if Attempts(c, k) && Good(k.fetch) then k.fetch.at + life else c.expiresAt)
      && c'.lastAttempt == (if Attempts(c, k) then Some(k.now) else c.lastAttempt)
      && c'.lastUnknown == (if Attempts(c, k) && k.kid !in c.keys then Some(k.now) else c.lastUnknown)
  {
    hide KeysOf, Attempts;
  }

  // ---- runs -----------------------------------------------------------------------

  function After(life: int, c: Cache, calls: seq<Call>): Cache
    decreases |calls|
  {
    if calls == [] then c else After(life, Step(life, c, calls[0]), calls[1..])
  }

  /** The lookup lock makes the clock advance from call to call, past the arrival of a document. */
  ghost predicate Timely(calls: seq<Call>) {
    && (forall i, j | 0 <= i < j < |calls| :: calls[i].now <= calls[j].now)
    && (forall i, j | 0 <= i < j < |calls| && calls[i].fetch.Served? :: calls[i].fetch.at <= calls[j].now)
    && (forall k <- calls | k.fetch.Served? :: k.now <= k.fetch.at)
  }

  /** Nothing the cache remembers lies in the future of the first call. */
  ghost predicate Past(c: Cache, now: Time) {
    && (c.lastAttempt.Some? ==> c.lastAttempt.value <= now)
    && (c.lastUnknown.Some? ==> c.lastUnknown.value <= now)
    && c.fetchedAt <= now
  }

  lemma TimelyTail(calls: seq<Call>)
    requires Timely(calls) && calls != []
    ensures Timely(calls[1..])
  {
    assert forall k <- calls[1..] :: k in calls;
  }

  /** What follows a call is in the future of everything it leaves behind. */
  lemma StepPast(life: int, c: Cache, calls: seq<Call>, now: Time)
    requires Timely(calls) && calls != [] && Past(c, calls[0].now)
    requires calls[0].now <= now && (calls[0].fetch.Served? ==> calls[0].fetch.at <= now)
    ensures Past(Step(life, c, calls[0]), now)
  {
    hide KeysOf, Blank;
  }

  // ---- how often it fetches ---------------------------------------------------------

  function AttemptTimes(life: int, c: Cache, calls: seq<Call>): seq<Time>
    decreases |calls|
  {
    if calls == [] then []
    else
      (if Attempts(c, calls[0]) then [calls[0].now] else []) + AttemptTimes(life, Step(life, c, calls[0]), calls[1..])
  }

  /** Any three attempts in a row take a cooldown. */
  ghost predicate Gaps(times: seq<Time>) {
    forall i, j | 0 <= i && j == i + 2 && j < |times| :: times[j] - times[i] >= COOLDOWN
  }

  /** The attempts to come leave gaps among themselves and to the last one made. */
  ghost predicate Spaced(last: Option<Time>, unknown: Option<Time>, times: seq<Time>) {
    && (|times| > 0 && last.Some? && unknown == last ==> times[0] - last.value >= COOLDOWN)
    && (|times| > 1 && last.Some? ==> times[1] - last.value >= COOLDOWN)
    && Gaps(times)
  }

  lemma SpacedOneMore(last: Option<Time>, unknown: Option<Time>, unknown': Option<Time>, t: Time, times: seq<Time>)
    requires Spaced(Some(t), unknown', times) && (forall x <- times :: t <= x)
    requires unknown' == Some(t) || Cooled(last, t)
    requires last.Some? ==> last.value <= t
    requires Cooled(last, t) || Cooled(unknown, t)
    ensures Spaced(last, unknown, [t] + times)
  {
    var all := [t] + times;
    assert times != [] ==> times[0] in times;
    forall i, j | 0 <= i && j == i + 2 && j < |all| ensures all[j] - all[i] >= COOLDOWN {
      assert all[j] == times[j - 1];
      assert i > 0 ==> all[i] == times[i - 1];
    }
  }

  lemma {:induction false} AttemptsSpaced(life: int, c: Cache, calls: seq<Call>)
    requires Timely(calls) && (calls != [] ==> Past(c, calls[0].now))
    ensures Spaced(c.lastAttempt, c.lastUnknown, AttemptTimes(life, c, calls))
    ensures forall t <- AttemptTimes(life, c, calls) :: calls != [] && calls[0].now <= t <= calls[|calls| - 1].now
    decreases |calls|
  {
    if calls != [] {
      hide KeysOf, Blank, Spaced, Timely, Refreshed;
      var k, c', rest := calls[0], Step(life, c, calls[0]), calls[1..];
      var times := AttemptTimes(life, c', rest);
      FirstEarliest(calls);
      TimelyTail(calls);
      if rest != [] { StepPast(life, c, calls, calls[1].now); }
      AttemptsSpaced(life, c', rest);
      if Attempts(c, k) {
        StepNotes(life, c, k);
        SpacedOneMore(c.lastAttempt, c.lastUnknown, c'.lastUnknown, k.now, times);
      } else {
        assert AttemptTimes(life, c, calls) == times;
      }
    }
  }

  lemma FirstEarliest(calls: seq<Call>)
    requires Timely(calls) && calls != []
    ensures forall k <- calls :: calls[0].now <= k.now
    ensures |calls| > 1 ==>
      && calls[0].now <= calls[1].now <= calls[|calls| - 1].now
      && (calls[0].fetch.Served? ==> calls[0].fetch.at <= calls[1].now)
  {
  }

  lemma StepNotes(life: int, c: Cache, k: Call)
    requires Attempts(c, k)
    ensures var c' := Step(life, c, k);
      && c'.lastAttempt == Some(k.now)
      && (c'.lastUnknown == Some(k.now) || (c'.lastUnknown == c.lastUnknown && Cooled(c.lastAttempt, k.now)))
  {
    hide KeysOf, Blank;
  }

  /** Attempts are never three within one cooldown, so a run that lasts `d` makes at most
      `2 * (d / 15s + 1)` of them. */
  lemma RefreshRate(life: int, c: Cache, calls: seq<Call>)
    requires Timely(calls) && calls != [] && Past(c, calls[0].now)
    ensures var times := AttemptTimes(life, c, calls);
      && Gaps(times)
      && |times| <= 2 * ((calls[|calls| - 1].now - calls[0].now) / COOLDOWN + 1)
  {
    hide AttemptTimes, Timely, Past, Gaps;
    FirstEarliest(calls);
    AttemptsSpaced(life, c, calls);
    AttemptCount(AttemptTimes(life, c, calls), calls[0].now, calls[|calls| - 1].now);
  }

  lemma AttemptCount(times: seq<Time>, first: Time, last: Time)
    requires Gaps(times) && (forall t <- times :: first <= t <= last) && first <= last
    ensures |times| <= 2 * ((last - first) / COOLDOWN + 1)
  {
    if times != [] {
      var m := (|times| - 1) / 2;
      EvenAttempts(times, m);
      assert times[0] in times && times[2 * m] in times;
      assert last - first >= COOLDOWN * m;
    }
  }

  lemma {:induction false} EvenAttempts(times: seq<Time>, m: nat)
    requires 2 * m < |times| && Gaps(times)
    ensures times[2 * m] - times[0] >= COOLDOWN * m
  {
    if m > 0 {
      EvenAttempts(times, m - 1);
      assert times[2 * (m - 1) + 2] - times[2 * (m - 1)] >= COOLDOWN;
    }
  }

  /** Two is the best bound: whatever the lifetime, an expired cache whose endpoint is down can be asked for
      a known and then an unknown key at the same instant, and goes to the network for both. */
  lemma TwoAtOnce(life: int, c: Cache, known: string, unknown: string, now: Time)
    requires now > c.expiresAt && Cooled(c.lastAttempt, now) && Cooled(c.lastUnknown, now)
    requires known in c.keys && unknown !in c.keys && !Blank(known) && !Blank(unknown)
    ensures AttemptTimes(life, c, [Call(known, now, Failed), Call(unknown, now, Failed)]) == [now, now]
  {
    hide Blank;
    var calls := [Call(known, now, Failed), Call(unknown, now, Failed)];
    assert calls[1..] == [Call(unknown, now, Failed)];
    assert AttemptTimes(life, Step(life, c, calls[0]), calls[1..]) == [now] + [];
  }

  /** And it happens: a verifier that was opened with any good document and then left alone until the cache expires. */
  lemma TwoAtOnceHappens(life: int, opening: Fetch, known: string, unknown: string)
    requires life > 0 && Good(opening) && known in KeysOf(opening.doc).value && unknown !in KeysOf(opening.doc).value
    requires !Blank(known) && !Blank(unknown)
    ensures var now := opening.at + life + 1;
      var calls := [Call(known, now, Failed), Call(unknown, now, Failed)];
      Timely(calls) && Past(Opened(life, opening), now) && AttemptTimes(life, Opened(life, opening), calls) == [now, now]
  {
    hide Blank, KeysOf;
    TwoAtOnce(life, Opened(life, opening), known, unknown, opening.at + life + 1);
  }

  // ---- where the key comes from -----------------------------------------------------

  /** The document a lookup makes the cache take over, if any. */
  function Adopts(c: Cache, k: Call): seq<Fetch> {
    if Attempts(c, k) && Good(k.fetch) then [k.fetch] else []
  }

  /** The documents the cache took over, oldest first. */
  function Adopted(life: int, c: Cache, calls: seq<Call>): seq<Fetch>
    decreases |calls|
  {
    if calls == [] then [] else Adopts(c, calls[0]) + Adopted(life, Step(life, c, calls[0]), calls[1..])
  }

  function Newest(first: Fetch, later: seq<Fetch>): Fetch {
    if later == [] then first else later[|later| - 1]
  }

  ghost predicate Reflects(life: int, c: Cache, f: Fetch) {
    Good(f) && c.keys == KeysOf(f.doc).value && c.fetchedAt == f.at && c.expiresAt == f.at + life
  }

  lemma {:induction false} LatestAdopted(life: int, c: Cache, f: Fetch, calls: seq<Call>)
    requires Reflects(life, c, f)
    ensures Reflects(life, After(life, c, calls), Newest(f, Adopted(life, c, calls)))
    decreases |calls|
  {
    if calls != [] {
      hide Reflects, Adopts, Step, Newest;
      var k := calls[0];
      var head, rest := Adopts(c, k), Adopted(life, Step(life, c, k), calls[1..]);
      StepReflects(life, c, f, k);
      LatestAdopted(life, Step(life, c, k), Newest(f, head), calls[1..]);
      NewestOfBoth(f, head, rest);
    }
  }

  lemma NewestOfBoth(f: Fetch, head: seq<Fetch>, rest: seq<Fetch>)
    ensures Newest(Newest(f, head), rest) == Newest(f, head + rest)
  {
  }

  lemma StepReflects(life: int, c: Cache, f: Fetch, k: Call)
    requires Reflects(life, c, f)
    ensures Reflects(life, Step(life, c, k), Newest(f, Adopts(c, k)))
  {
    hide KeysOf, Attempts;
  }

  /** Every key handed out is the one under that identifier in the newest document adopted so far, and
      that document arrived at most an hour before. */
  lemma KeyProvenance(life: int, opening: Fetch, calls: seq<Call>, k: Call)
    requires Good(opening)
    ensures var before := After(life, Opened(life, opening), calls);
      var newest := Newest(opening, Adopted(life, Opened(life, opening), calls + [k]));
      && Good(newest)
      && (Answer(life, before, k).Key? ==>
            && k.kid in KeysOf(newest.doc).value
            && Answer(life, before, k).key == KeysOf(newest.doc).value[k.kid]
            && k.now - newest.at <= MAX_STALE)
  {
    hide KeysOf, Attempts;
    var c := Opened(life, opening);
    LatestAdopted(life, c, opening, calls + [k]);
    AfterLast(life, c, calls, k);
  }

  lemma {:induction false} AfterLast(life: int, c: Cache, calls: seq<Call>, k: Call)
    ensures After(life, c, calls + [k]) == Step(life, After(life, c, calls), k)
    decreases |calls|
  {
    hide Step;
    if calls == [] {
      assert calls + [k] == [k] && [k][1..] == [];
    } else {
      AfterLast(life, Step(life, c, calls[0]), calls[1..], k);
      assert (calls + [k])[1..] == calls[1..] + [k];
    }
  }

  // ---- an outage --------------------------------------------------------------------

  lemma {:induction false} OutageKeepsKeys(life: int, c: Cache, calls: seq<Call>)
    requires forall k <- calls :: !Good(k.fetch)
    ensures After(life, c, calls).keys == c.keys && After(life, c, calls).fetchedAt == c.fetchedAt
    decreases |calls|
  {
    if calls != [] {
      hide KeysOf, Attempts;
      assert calls[0] in calls && forall k <- calls[1..] :: k in calls;
      OutageKeepsKeys(life, Step(life, c, calls[0]), calls[1..]);
    }
  }

  /** While the endpoint is down, however many lookups went before, a cached key is served for exactly one
      hour after its document arrived, and a key that is not cached is not served. */
  lemma OutageExactly(life: int, c: Cache, calls: seq<Call>, k: Call)
    requires (forall k <- calls :: !Good(k.fetch)) && !Good(k.fetch) && !Blank(k.kid)
    ensures var r := Answer(life, After(life, c, calls), k);
      && (r.Key? <==> k.kid in c.keys && k.now - c.fetchedAt <= MAX_STALE)
      && (r.Key? ==> r.key == c.keys[k.kid])
  {
    hide KeysOf, Blank, Attempts;
    OutageKeepsKeys(life, c, calls);
  }

  // ---- availability -----------------------------------------------------------------

  /** The endpoint works, and from `t0` on it lists `kid`. */
  ghost predicate Healthy(calls: seq<Call>, kid: string, t0: Time) {
    forall k <- calls :: Good(k.fetch) && (k.now >= t0 ==> kid in KeysOf(k.fetch.doc).value)
  }

  /** Every attempt so far succeeded, and any since `t0` brought `kid`. */
  ghost predicate Supplied(life: int, c: Cache, kid: string, t0: Time) {
    && c.expiresAt == c.fetchedAt + life
    && (c.lastAttempt.Some? ==> c.lastAttempt.value <= c.fetchedAt)
    && (c.lastUnknown.Some? ==> c.lastAttempt.Some? && c.lastUnknown.value <= c.lastAttempt.value)
    && (c.lastAttempt.Some? && c.lastAttempt.value >= t0 ==> kid in c.keys)
  }

  lemma SuppliedStep(life: int, c: Cache, k: Call, kid: string, t0: Time)
    requires Supplied(life, c, kid, t0) && Healthy([k], kid, t0)
    requires Past(c, k.now) && k.now <= k.fetch.at
    ensures Supplied(life, Step(life, c, k), kid, t0)
  {
    hide KeysOf, Blank;
    assert k in [k];
  }

  lemma {:induction false} SuppliedRun(life: int, c: Cache, calls: seq<Call>, kid: string, t0: Time, now: Time)
    requires Supplied(life, c, kid, t0) && Healthy(calls, kid, t0) && Timely(calls)
    requires forall k <- calls :: k.now <= now && k.fetch.at <= now
    requires Past(c, if calls == [] then now else calls[0].now)
    ensures Supplied(life, After(life, c, calls), kid, t0) && Past(After(life, c, calls), now)
    decreases |calls|
  {
    hide KeysOf, Attempts;
    if calls != [] {
      var k, rest := calls[0], calls[1..];
      assert k in calls && k.now <= k.fetch.at;
      assert Healthy([k], kid, t0);
      SuppliedStep(life, c, k, kid, t0);
      TimelyTail(calls);
      assert forall k <- rest :: k in calls;
      if rest != [] { assert rest[0] == calls[1]; }
      StepPast(life, c, calls, if rest == [] then now else rest[0].now);
      SuppliedRun(life, Step(life, c, k), rest, kid, t0, now);
    }
  }

  lemma SuppliedAnswer(life: int, c: Cache, k: Call, t0: Time)
    requires life <= MAX_STALE && !Blank(k.kid)
    requires Supplied(life, c, k.kid, t0) && Healthy([k], k.kid, t0)
    requires Past(c, k.now) && k.now <= k.fetch.at && k.now >= t0 + COOLDOWN
    ensures Answer(life, c, k).Key?
  {
    hide KeysOf, Blank;
    assert k in [k];
  }

  /** A working endpoint that has listed a key for a cooldown serves it: in every run, at every later
      lookup of that key. */
  ghost predicate AlwaysServes(life: int) {
    forall opening: Fetch, calls: seq<Call>, k: Call, t0: Time
      | Good(opening) && Timely(calls + [k]) && (forall x <- calls + [k] :: opening.at <= x.now)
        && Healthy(calls + [k], k.kid, t0) && k.now >= t0 + COOLDOWN && !Blank(k.kid) ::
      Answer(life, After(life, Opened(life, opening), calls), k).Key?
  }

  lemma Serves(life: int, opening: Fetch, calls: seq<Call>, k: Call, t0: Time)
    requires life <= MAX_STALE && Good(opening) && Timely(calls + [k])
    requires forall x <- calls + [k] :: opening.at <= x.now
    requires Healthy(calls + [k], k.kid, t0) && k.now >= t0 + COOLDOWN && !Blank(k.kid)
    ensures Answer(life, After(life, Opened(life, opening), calls), k).Key?
  {
    hide KeysOf, Attempts, Blank, Answer, Step, Timely;
    var c := Opened(life, opening);
    assert k in calls + [k] && forall x <- calls :: x in calls + [k];
    TimelyInit(calls, k);
    assert calls != [] ==> calls[0] in calls;
    SuppliedRun(life, c, calls, k.kid, t0, k.now);
    SuppliedAnswer(life, After(life, c, calls), k, t0);
  }

  lemma TimelyInit(calls: seq<Call>, k: Call)
    requires Timely(calls + [k])
    ensures Timely(calls) && (k.fetch.Served? ==> k.now <= k.fetch.at)
    ensures forall x <- calls :: x.now <= k.now && (x.fetch.Served? ==> x.fetch.at <= k.now)
  {
    var all := calls + [k];
    assert k in all && all[|calls|] == k && forall i | 0 <= i < |calls| :: all[i] == calls[i];
    assert forall x <- calls :: x in all;
    forall x | x in calls ensures x.now <= k.now && (x.fetch.Served? ==> x.fetch.at <= k.now) {
      var i :| 0 <= i < |calls| && calls[i] == x;
      assert all[i] == x;
    }
  }

  /** An hour is the longest cache lifetime for which that holds: with a longer one, a key that is cached
      and listed is refused between the hour and the expiry, and nothing is fetched. */
  lemma StaleBeforeExpiry(life: int, opening: Fetch, k: Call)
    requires life > MAX_STALE && Good(opening) && k.kid in KeysOf(opening.doc).value && !Blank(k.kid)
    requires k.now == opening.at + MAX_STALE + 1
    ensures Answer(life, Opened(life, opening), k) == TooStale && !Attempts(Opened(life, opening), k)
  {
  }

  lemma ServesExactly(life: int)
    ensures AlwaysServes(life) <==> life <= MAX_STALE
  {
    if life <= MAX_STALE {
      forall opening: Fetch, calls: seq<Call>, k: Call, t0: Time
        | Good(opening) && Timely(calls + [k]) && (forall x <- calls + [k] :: opening.at <= x.now)
          && Healthy(calls + [k], k.kid, t0) && k.now >= t0 + COOLDOWN && !Blank(k.kid)
        ensures Answer(life, After(life, Opened(life, opening), calls), k).Key?
      {
        Serves(life, opening, calls, k, t0);
      }
    } else {
      NotAlways(life);
    }
  }

  lemma NotAlways(life: int)
    requires life > MAX_STALE
    ensures !AlwaysServes(life)
  {
    var doc := SampleDocument();
    hide KeysOf, Answer, Attempts;
    var opening, late := Served(doc, 0), MAX_STALE + 1;
    var k := Call("a", late, Served(doc, late));
    StaleBeforeExpiry(life, opening, k);
    var calls: seq<Call> := [];
    assert calls + [k] == [k];
    assert Healthy(calls + [k], k.kid, 0);
    assert After(life, Opened(life, opening), calls) == Opened(life, opening);
  }

  function TwoToThe(k: nat): nat {
    if k == 0 then 1 else 2 * TwoToThe(k - 1)
  }

  lemma {:induction false} BitLenOfPower(k: nat)
    ensures BitLen(TwoToThe(k)) == k + 1
  {
    if k > 0 {
      BitLenOfPower(k - 1);
      assert TwoToThe(k) / 2 == TwoToThe(k - 1);
    } else {
      assert BitLen(1) == 1 + BitLen(0);
    }
  }

  lemma SampleKey() returns (key: RsaKey)
    ensures Publishable("a", key)
  {
    hide BitLen, TwoToThe;
    BitLenOfPower(2047);
    key := RsaKey(TwoToThe(2047), 3);
    assert "a"[0] == 'a' && !IsSpace('a');
  }

  lemma SampleDocument() returns (doc: seq<Jwk>)
    ensures KeysOf(doc).Ok? && "a" in KeysOf(doc).value && !Blank("a")
  {
    hide Parse, JwkOf, Strong, ParseAll;
    var key := SampleKey();
    EntryRoundTrip("a", key);
    KidOf("a", key);
    doc := [JwkOf("a", key)];
    ParseAllExactly(doc);
    assert JwkOf("a", key) in doc;
  }
}
