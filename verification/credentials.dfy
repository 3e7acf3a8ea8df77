/** The access-token manager: an in-process token, a key-value cache injected into it
    (or created lazily over the system temp directory), a cache key derived from a prefix
    and the app ID, and two hooks a concrete subclass supplies: one that asks the
    authority's server for a token and one that rejects an erroneous reply. */
module Credentials {
  import opened Php

  /** The default time-to-live `setToken` passes to the cache: one day, in seconds. */
  const OneDay := 86400

  /** One call of the cache's `save(key, value, ttl)`. */
  datatype SaveCall = SaveCall(key: string, value: Scalar, ttl: Scalar)

  /** What the cache's `fetch` yields: the stored value, or false on a miss. */
  function Lookup(entries: map<string, Scalar>, key: string): Scalar {
    if key in entries then entries[key] else Bool(false)
  }

  /** The key-value cache the manager talks to. `entries` is what it holds; `saves` records
      every `save` call made on it, in order. Expiry of entries is not modelled. */
  class Cache {
    var entries: map<string, Scalar>
    var saves: seq<SaveCall>

    constructor (initial: map<string, Scalar>)
      ensures entries == initial && saves == []
    {
      entries := initial;
      saves := [];
    }

    function Fetch(key: string): Scalar
      reads this
    {
      Lookup(entries, key)
    }

    method Save(key: string, value: Scalar, ttl: Scalar)
      modifies this
      ensures entries == old(entries)[key := value]
      ensures saves == old(saves) + [SaveCall(key, value, ttl)]
    {
      entries := entries[key := value];
      saves := saves + [SaveCall(key, value, ttl)];
    }
  }

  /** The two abstract hooks, in the order `getToken` calls them. */
  datatype Hook = GetTokenFromServer | CheckTokenResponse

  /** What the server hook does: return the decoded reply, or throw. */
  datatype ServerReply = Response(fields: map<string, Scalar>) | ServerError(message: string)

  /** How a call of `getToken` ends: it returns a value, or an exception propagates out of it. */
  datatype Outcome = Returned(value: Scalar) | Threw(message: string)

  /** The state `setToken` and `getToken` act on: the cache's entries and its save log,
      and the in-process `token` field. */
  datatype Snapshot = Snapshot(entries: map<string, Scalar>, saves: seq<SaveCall>, token: Scalar)

  /** The configuration `getToken` reads: the cache key and the names of the reply's token
      and expiry fields (the expiry name may be unset). */
  datatype Settings = Settings(key: string, tokenJsonKey: string, expiresJsonKey: Option<string>)

  /** The effect of one `getToken` call: the state after it, the hooks it called, its outcome. */
  datatype Run = Run(after: Snapshot, calls: seq<Hook>, outcome: Outcome)

  /** `getCacheKey`: the explicit key when one is set, otherwise prefix followed by app ID. */
  function CacheKeyOf(prefix: Option<string>, appId: Option<string>, cacheKey: Option<string>): string {
    if cacheKey.None? then Text(prefix) + Text(appId) else cacheKey.value
  }

  /** A field of the reply: a missing field reads as null (PHP raises only a notice). */
  function Field(fields: map<string, Scalar>, name: string): Scalar {
    if name in fields then fields[name] else Null
  }

  /** Whether an expiry field is configured: `getToken` tests the field NAME for truthiness. */
  predicate ExpiryKeySet(name: Option<string>) {
    name.Some? && Truthy(Str(name.value))
  }

  /** The value `getToken` resolves first: the cache entry when truthy, else the in-process token. */
  function Resolved(s: Snapshot, key: string): Scalar {
    Elvis(Lookup(s.entries, key), s.token)
  }

  /** `setToken(t, expires)` on the state `s` with cache key `key`. */
  function Stored(s: Snapshot, key: string, t: Scalar, expires: Scalar): Snapshot {
    if Truthy(expires) then Snapshot(s.entries[key := t], s.saves + [SaveCall(key, t, expires)], t)
    else s.(token := t)
  }

  /** `getToken(force)` on the state `s`, with the server hook behaving as `reply` and the
      validation hook as `check` (None: it accepts, Some(m): it throws m). */
  function TokenRun(cfg: Settings, s: Snapshot, force: bool, reply: ServerReply,
                    check: map<string, Scalar> -> Option<string>): Run {
    if !force && Truthy(Resolved(s, cfg.key)) then
      // the cache-hit path has no return statement
      Run(s, [], Returned(Null))
    else
      match reply
      case ServerError(m) => Run(s, [GetTokenFromServer], Threw(m))
      case Response(fields) =>
        match check(fields)
        case Some(m) => Run(s, [GetTokenFromServer, CheckTokenResponse], Threw(m))
        case None =>
          var t := Field(fields, cfg.tokenJsonKey);
          var e := if ExpiryKeySet(cfg.expiresJsonKey) then Field(fields, cfg.expiresJsonKey.value) else Null;
          Run(Stored(s, cfg.key, t, e), [GetTokenFromServer, CheckTokenResponse], Returned(t))
  }

  /** The abstract access-token manager. The constants are the properties a concrete
      subclass fixes; `tempDir` is what a cache over the system temp directory holds when
      it is first opened. */
  class AccessToken {
    var appId: Option<string>
    var secret: Option<string>
    var cache: Cache?
    var token: Scalar
    const prefix: Option<string>
    const cacheKey: Option<string>
    const tokenJsonKey: string
    const expiresJsonKey: Option<string>
    const tempDir: map<string, Scalar>

    constructor (prefix: Option<string>, cacheKey: Option<string>, tokenJsonKey: string,
                 expiresJsonKey: Option<string>, tempDir: map<string, Scalar>)
      ensures this.prefix == prefix && this.cacheKey == cacheKey
      ensures this.tokenJsonKey == tokenJsonKey && this.expiresJsonKey == expiresJsonKey
      ensures this.tempDir == tempDir
      ensures appId == None && secret == None && cache == null && token == Null
    {
      this.prefix := prefix;
      this.cacheKey := cacheKey;
      this.tokenJsonKey := tokenJsonKey;
      this.expiresJsonKey := expiresJsonKey;
      this.tempDir := tempDir;
      appId := None;
      secret := None;
      cache := null;
      token := Null;
    }

    /** The cache state seen through `getCache()`: a cache not yet created is the one that
        would be opened over the temp directory. */
    function Snap(): Snapshot
      reads this, cache
    {
      if cache == null then Snapshot(tempDir, [], token)
      else Snapshot(cache.entries, cache.saves, token)
    }

    function GetCacheKey(): string
      reads this
    {
      CacheKeyOf(prefix, appId, cacheKey)
    }

    function Config(): Settings
      reads this
    {
      Settings(GetCacheKey(), tokenJsonKey, expiresJsonKey)
    }

    function GetAppId(): Option<string>
      reads this
    {
      appId
    }

    function GetSecret(): Option<string>
      reads this
    {
      secret
    }

    method SetAppId(id: Option<string>)
      modifies this`appId
      ensures GetAppId() == id
      ensures GetCacheKey() == CacheKeyOf(prefix, id, cacheKey)
    {
      appId := id;
    }

    method SetSecret(s: Option<string>)
      modifies this`secret
      ensures GetSecret() == s
      ensures GetCacheKey() == old(GetCacheKey())
    {
      secret := s;
    }

    method SetCache(c: Cache)
      modifies this`cache
      ensures cache == c
      ensures Snap() == Snapshot(c.entries, c.saves, token)
    {
      cache := c;
    }

    /** The injected cache, or one opened over the temp directory on first use and kept. */
    method GetCache() returns (c: Cache)
      modifies this`cache
      ensures cache == c
      ensures old(cache) != null ==> c == old(cache)
      ensures old(cache) == null ==> fresh(c)
      ensures Snap() == old(Snap())
    {
      if cache == null {
        cache := new Cache(tempDir);
      }
      c := cache;
    }

    method SetToken(t: Scalar, expires: Scalar := Int(OneDay))
      modifies this, cache
      ensures Snap() == Stored(old(Snap()), old(GetCacheKey()), t, expires)
      ensures appId == old(appId) && secret == old(secret)
      ensures old(cache) != null ==> cache == old(cache)
      ensures old(cache) == null ==> cache == null || fresh(cache)
      ensures !Truthy(expires) ==> cache == old(cache)
    {
      if Truthy(expires) {
        var c := GetCache();
        c.Save(GetCacheKey(), t, expires);
      }
      token := t;
    }

    /** `getToken(forceRefresh)`; `calls` lists the hooks it called, in order. */
    method GetToken(force: bool := false, reply: ServerReply, check: map<string, Scalar> -> Option<string>)
      returns (r: Outcome, calls: seq<Hook>)
      modifies this, cache
      ensures var run := TokenRun(old(Config()), old(Snap()), force, reply, check);
              Snap() == run.after && calls == run.calls && r == run.outcome
      ensures appId == old(appId) && secret == old(secret)
      ensures cache != null
      ensures old(cache) != null ==> cache == old(cache)
      ensures old(cache) == null ==> fresh(cache)
    {
      var c := GetCache();
      var resolved := Elvis(c.Fetch(GetCacheKey()), token);
      if force || !Truthy(resolved) {
        calls := [GetTokenFromServer];
        match reply
        case ServerError(m) =>
          r := Threw(m);
        case Response(fields) =>
          calls := calls + [CheckTokenResponse];
          var verdict := check(fields);
          if verdict.Some? {
            r := Threw(verdict.value);
          } else {
            var t := Field(fields, tokenJsonKey);
            var e := if ExpiryKeySet(expiresJsonKey) then Field(fields, expiresJsonKey.value) else Null;
            SetToken(t, e);
            r := Returned(t);
          }
      } else {
        calls := [];
        r := Returned(Null);
      }
    }
  }

  /** `getToken` as evidently intended: the cache-hit path returns the value it resolved. */
  function TokenRunCorrected(cfg: Settings, s: Snapshot, force: bool, reply: ServerReply,
                             check: map<string, Scalar> -> Option<string>): Run {
    if !force && Truthy(Resolved(s, cfg.key)) then Run(s, [], Returned(Resolved(s, cfg.key)))
    else TokenRun(cfg, s, force, reply, check)
  }

  // ---- cache key ----

  /** Without an explicit key, the derived key starts with the prefix and ends with the app ID. */
  lemma DerivedKeyShape(prefix: Option<string>, appId: Option<string>)
    ensures var k := CacheKeyOf(prefix, appId, None);
            |k| == |Text(prefix)| + |Text(appId)| &&
            k[..|Text(prefix)|] == Text(prefix) && k[|Text(prefix)|..] == Text(appId)
  {
  }

  /** Two app IDs under one prefix never share a derived cache key. */
  lemma DistinctAppsDistinctKeys(prefix: Option<string>, a: Option<string>, b: Option<string>)
    requires Text(a) != Text(b)
    ensures CacheKeyOf(prefix, a, None) != CacheKeyOf(prefix, b, None)
  {
    var p := Text(prefix);
    assert (p + Text(a))[|p|..] == Text(a);
    assert (p + Text(b))[|p|..] == Text(b);
  }

  /** An explicit cache key is used verbatim, whatever the prefix and the app ID. */
  lemma ExplicitKeyWins(prefix: Option<string>, appId: Option<string>, key: string)
    ensures CacheKeyOf(prefix, appId, Some(key)) == key
  {
  }

  // ---- setToken ----

  /** `setToken` saves exactly once, under the cache key and with the given TTL, exactly when
      the TTL is truthy; it always sets the in-process token. */
  lemma StoredSavesIffTruthyTtl(s: Snapshot, key: string, t: Scalar, expires: Scalar)
    ensures var a := Stored(s, key, t, expires);
            a.token == t &&
            (|a.saves| == |s.saves| + 1 <==> Truthy(expires)) &&
            (Truthy(expires) ==> a.saves == s.saves + [SaveCall(key, t, expires)] &&
                                 a.entries == s.entries[key := t]) &&
            (!Truthy(expires) ==> a.saves == s.saves && a.entries == s.entries)
  {
  }

  /** After `setToken(t, e)` with a truthy `t`, `t` is what `getToken` resolves, unless `e` is
      falsy and the cache already holds a truthy entry under the key. */
  lemma StoredTokenResolves(s: Snapshot, key: string, t: Scalar, expires: Scalar)
    requires Truthy(t)
    ensures Truthy(expires) || !Truthy(Lookup(s.entries, key)) ==> Resolved(Stored(s, key, t, expires), key) == t
    ensures !Truthy(expires) && Truthy(Lookup(s.entries, key)) ==>
              Resolved(Stored(s, key, t, expires), key) == Lookup(s.entries, key)
  {
  }

  // ---- getToken ----

  /** The hooks run exactly when the call is forced or the resolved value is empty; the
      server hook runs once and first, and validation runs only on a reply. */
  lemma HooksRunIffForcedOrEmpty(cfg: Settings, s: Snapshot, force: bool, reply: ServerReply,
                                 check: map<string, Scalar> -> Option<string>)
    ensures var run := TokenRun(cfg, s, force, reply, check);
            (run.calls != [] <==> force || !Truthy(Resolved(s, cfg.key))) &&
            (run.calls != [] ==> run.calls[0] == GetTokenFromServer && run.calls <= [GetTokenFromServer, CheckTokenResponse]) &&
            (CheckTokenResponse in run.calls <==> run.calls != [] && reply.Response?)
  {
  }

  /** A cache hit calls no hook, changes nothing and returns null. */
  lemma HitReturnsNull(cfg: Settings, s: Snapshot, reply: ServerReply,
                       check: map<string, Scalar> -> Option<string>)
    requires Truthy(Resolved(s, cfg.key))
    ensures TokenRun(cfg, s, false, reply, check) == Run(s, [], Returned(Null))
  {
  }

  /** An accepted refresh returns the reply's token field and leaves it in the in-process token;
      it is saved under the cache key, with the expiry field as TTL, exactly when an expiry
      field name is configured and the reply's value for it is truthy. */
  lemma AcceptedRefreshStoresToken(cfg: Settings, s: Snapshot, force: bool, fields: map<string, Scalar>,
                                   check: map<string, Scalar> -> Option<string>)
    requires force || !Truthy(Resolved(s, cfg.key))
    requires check(fields).None?
    ensures var run := TokenRun(cfg, s, force, Response(fields), check);
            var t := Field(fields, cfg.tokenJsonKey);
            run.outcome == Returned(t) && run.after.token == t &&
            run.calls == [GetTokenFromServer, CheckTokenResponse] &&
            (if ExpiryKeySet(cfg.expiresJsonKey) && Truthy(Field(fields, cfg.expiresJsonKey.value))
             then run.after.entries == s.entries[cfg.key := t] &&
                  run.after.saves == s.saves + [SaveCall(cfg.key, t, Field(fields, cfg.expiresJsonKey.value))]
             else run.after.entries == s.entries && run.after.saves == s.saves)
  {
  }

  /** When the server hook throws or validation rejects the reply, the exception propagates
      and neither the cache nor the in-process token changes. */
  lemma FailedRefreshChangesNothing(cfg: Settings, s: Snapshot, force: bool, reply: ServerReply,
                                    check: map<string, Scalar> -> Option<string>)
    requires force || !Truthy(Resolved(s, cfg.key))
    requires reply.ServerError? || check(reply.fields).Some?
    ensures var run := TokenRun(cfg, s, force, reply, check);
            run.after == s && run.outcome.Threw?
  {
  }

  /** Without an expiry field name, a refresh never touches the cache. */
  lemma NoExpiryKeyStaysInProcess(cfg: Settings, s: Snapshot, force: bool, reply: ServerReply,
                                  check: map<string, Scalar> -> Option<string>)
    requires !ExpiryKeySet(cfg.expiresJsonKey)
    ensures var run := TokenRun(cfg, s, force, reply, check);
            run.after.entries == s.entries && run.after.saves == s.saves
  {
  }

  /** With nothing truthy to resolve, an unforced call behaves exactly as a forced one. */
  lemma ColdCallIsForcedCall(cfg: Settings, s: Snapshot, reply: ServerReply,
                             check: map<string, Scalar> -> Option<string>)
    requires !Truthy(Resolved(s, cfg.key))
    ensures TokenRun(cfg, s, false, reply, check) == TokenRun(cfg, s, true, reply, check)
  {
  }

  // ---- the cache-hit return ----

  /** As written: `setToken(t, e)` followed by an unforced `getToken` returns null, not `t`. */
  lemma SetThenGetReturnsNull(cfg: Settings, s: Snapshot, t: Scalar, expires: Scalar, reply: ServerReply,
                              check: map<string, Scalar> -> Option<string>)
    requires Truthy(t)
    ensures TokenRun(cfg, Stored(s, cfg.key, t, expires), false, reply, check).outcome == Returned(Null)
  {
  }

  /** Corrected: an unforced call returns a truthy value without calling a hook when one is
      resolved, and otherwise whatever a refresh returns. */
  lemma CorrectedHitReturnsResolved(cfg: Settings, s: Snapshot, force: bool, reply: ServerReply,
                                    check: map<string, Scalar> -> Option<string>)
    ensures var run := TokenRunCorrected(cfg, s, force, reply, check);
            (!force && Truthy(Resolved(s, cfg.key)) ==>
               run == Run(s, [], Returned(Resolved(s, cfg.key))) && Truthy(run.outcome.value)) &&
            (force || !Truthy(Resolved(s, cfg.key)) ==> run == TokenRun(cfg, s, force, reply, check))
  {
  }

  /** Corrected: `setToken(t, e)` followed by an unforced `getToken` returns `t` without a
      server round trip, unless a falsy `e` left an older truthy cache entry in place. */
  lemma CorrectedSetThenGetReturnsToken(cfg: Settings, s: Snapshot, t: Scalar, expires: Scalar,
                                        reply: ServerReply, check: map<string, Scalar> -> Option<string>)
    requires Truthy(t)
    requires Truthy(expires) || !Truthy(Lookup(s.entries, cfg.key))
    ensures var run := TokenRunCorrected(cfg, Stored(s, cfg.key, t, expires), false, reply, check);
            run.outcome == Returned(t) && run.calls == []
  {
  }

  // ---- scenarios on the class ----

  /** A validation hook that accepts every reply. */
  function AcceptAll(fields: map<string, Scalar>): Option<string> {
    None
  }

  /** A validation hook that rejects any reply carrying an `errcode` field. */
  function RejectErrcode(fields: map<string, Scalar>): Option<string> {
    if "errcode" in fields then Some("invalid credential response") else None
  }

  /** App "app1" under prefix "tok:", a server replying {access_token: "XYZ", expires_in: 3600}:
      `getToken()` returns "XYZ" and the cache holds it under "tok:app1" with TTL 3600. */
  method RefreshScenario() returns (r: Outcome, calls: seq<Hook>, saves: seq<SaveCall>)
    ensures r == Returned(Str("XYZ"))
    ensures calls == [GetTokenFromServer, CheckTokenResponse]
    ensures saves == [SaveCall("tok:app1", Str("XYZ"), Int(3600))]
  {
    var store := new Cache(map[]);
    var m := new AccessToken(Some("tok:"), None, "access_token", Some("expires_in"), map[]);
    m.SetAppId(Some("app1"));
    m.SetCache(store);
    assert m.GetCacheKey() == "tok:" + "app1" == "tok:app1";
    var reply := Response(map["access_token" := Str("XYZ"), "expires_in" := Int(3600)]);
    r, calls := m.GetToken(false, reply, AcceptAll);
    saves := store.saves;
  }

  /** A server replying {errcode: 40001}: validation throws, `getToken` propagates it, and the
      cache and the in-process token keep what they held. */
  method RejectedScenario(before: map<string, Scalar>, t: Scalar) returns (r: Outcome, after: map<string, Scalar>, kept: Scalar)
    ensures r.Threw?
    ensures after == before && kept == t
  {
    var store := new Cache(before);
    var m := new AccessToken(Some("tok:"), None, "access_token", Some("expires_in"), map[]);
    m.SetCache(store);
    m.SetToken(t, Int(0));
    var calls;
    r, calls := m.GetToken(true, Response(map["errcode" := Int(40001)]), RejectErrcode);
    after := store.entries;
    kept := m.token;
  }

  /** `setToken(t, e)` with a truthy `t` on a fresh manager, then `getToken()`: no hook runs
      and null comes back (the cache-hit path has no return statement). */
  method SetThenGetScenario(t: Scalar, expires: Scalar, reply: ServerReply) returns (r: Outcome, calls: seq<Hook>)
    requires Truthy(t)
    ensures r == Returned(Null) && calls == []
  {
    var m := new AccessToken(Some("tok:"), None, "access_token", Some("expires_in"), map[]);
    m.SetToken(t, expires);
    r, calls := m.GetToken(false, reply, AcceptAll);
  }
}
