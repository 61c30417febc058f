/**
 * pkg/tokens/cache_manager.go: the token revocation store.  Every live token has
 * an item "token:<token>" holding its owner in JSON, and every user a sorted set
 * "user_tokens:<user>" of their tokens scored by expiry.  The backing cache is the
 * memory cache; instants are nanoseconds and `now` is the clock reading of the call.
 */
module TokensStore {
  import opened Wrappers
  import opened Durations
  import opened CacheTypes
  import opened SortedSet
  import opened MemoryCache

  /**
   * The JSON coding of tokenData {"user_id": …}: encode is json.Marshal, decode
   * json.Unmarshal (an error message, or the user id read back).
   */
  datatype TokenCodec = TokenCodec(encode: string -> string, decode: string -> Result<string, string>)

  /** What encoding/json guarantees for a struct with one string field. */
  ghost predicate RoundTrips(c: TokenCodec) {
    forall u :: c.decode(c.encode(u)) == Ok(u)
  }

  function TokenKey(token: string): (k: string)
    ensures |k| == 6 + |token| && k[0] == 't' && k[5] == ':'
    ensures k[6..] == token
  {
    "token:" + token
  }

  function UserTokensKey(userID: string): (k: string)
    ensures |k| == 12 + |userID| && k[0] == 'u' && k[11] == ':'
    ensures k[12..] == userID
  {
    "user_tokens:" + userID
  }

  /** A token key and a user-set key never coincide, and token keys tell tokens apart. */
  lemma KeysDistinct(token: string, userID: string, other: string)
    ensures TokenKey(token) != UserTokensKey(userID)
    ensures TokenKey(token) == TokenKey(other) ==> token == other
  {
    if TokenKey(token) == TokenKey(other) {
      assert token == TokenKey(token)[6..];
      assert other == TokenKey(other)[6..];
    }
  }

  /** The token keys of a list of tokens. */
  function TokenKeys(tokens: seq<string>): (ks: set<string>)
    ensures forall t :: t in tokens ==> TokenKey(t) in ks
    ensures forall k :: k in ks ==> exists t :: t in tokens && k == TokenKey(t)
  {
    set t | t in tokens :: TokenKey(t)
  }

  class CacheManager {
    const cache: MemoryCache
    const codec: TokenCodec

    ghost predicate Valid()
      reads this, cache
    {
      cache.Valid()
    }

    /** NewCacheManager. */
    constructor (cache: MemoryCache, codec: TokenCodec)
      ensures this.cache == cache && this.codec == codec
    {
      this.cache := cache;
      this.codec := codec;
    }

    /**
     * AddToken: the token item lives until expiresAt, the token joins its owner's
     * set scored by the expiry in Unix seconds, and the owner key's expiry is
     * pushed to a day after the token's.
     */
    method AddToken(token: string, userID: string, expiresAt: int, now: int) returns (err: Option<string>)
      requires Valid()
      requires token == "" || userID == "" || expiresAt <= now || cache.items.Some?
      modifies cache
      ensures Valid()
      ensures token == "" || userID == "" ==>
        err == Some("token and userID cannot be empty") && unchanged(cache)
      ensures token != "" && userID != "" && expiresAt <= now ==>
        err == Some("token already expired") && unchanged(cache)
      ensures token != "" && userID != "" && expiresAt > now ==> (err.None?
        && cache.items == Some(Reexpired(
             Stored(old(cache.ItemMap()), TokenKey(token), Str(codec.encode(userID)), expiresAt - now, now),
             UserTokensKey(userID), expiresAt - now + Day, now))
        && cache.sortedSets == SetsAfterAdd(old(cache.sortedSets), UserTokensKey(userID), UnixSeconds(expiresAt), token)
        && cache.closed == old(cache.closed))
    {
      if token == "" || userID == "" {
        return Some("token and userID cannot be empty");
      }
      var ttl := expiresAt - now;
      if ttl <= 0 {
        return Some("token already expired");
      }
      var tokenKey := TokenKey(token);
      cache.Set(tokenKey, Str(codec.encode(userID)), ttl, now);
      var userKey := UserTokensKey(userID);
      var _ := cache.ZAdd(userKey, UnixSeconds(expiresAt), token);
      var _ := cache.Expire(userKey, ttl + Day, now);
      err := None;
    }

    /** TokenExists: a visible token item whose text decodes. */
    method TokenExists(token: string, now: int) returns (r: Result<bool, string>)
      ensures token == "" ==> r == Ok(false)
      ensures token != "" ==> r == Exists(codec, cache.ItemMap(), token, now)
    {
      if token == "" {
        return Ok(false);
      }
      var data := cache.Get(TokenKey(token), now);
      if data.Err? {
        if data.error == ErrKeyNotFound {
          return Ok(false);
        }
        return Err("failed to get token data: " + Message(data.error));
      }
      var decoded := codec.decode(data.value);
      if decoded.Err? {
        return Err("failed to unmarshal token data: " + decoded.error);
      }
      r := Ok(true);
    }

    /**
     * RemoveToken: an empty or unknown token is not an error and changes nothing;
     * otherwise the token leaves its owner's set and its item is deleted.
     */
    method RemoveToken(token: string, now: int) returns (err: Option<string>)
      requires Valid()
      modifies cache
      ensures Valid()
      ensures token == "" || Lookup(old(cache.ItemMap()), TokenKey(token), now) == Err(ErrKeyNotFound) ==>
        err.None? && unchanged(cache)
      ensures token != "" && Lookup(old(cache.ItemMap()), TokenKey(token), now) == Err(ErrInvalidType) ==>
        err == Some("failed to get token data: " + Message(ErrInvalidType)) && unchanged(cache)
      ensures token != "" && Lookup(old(cache.ItemMap()), TokenKey(token), now).Ok? ==>
        var owner := codec.decode(Lookup(old(cache.ItemMap()), TokenKey(token), now).value);
        (owner.Err? ==> err == Some("failed to unmarshal token data: " + owner.error) && unchanged(cache))
        && (owner.Ok? ==> (err.None?
          && cache.items == Some(old(cache.ItemMap()) - {TokenKey(token)})
          && cache.sortedSets == WithoutMember(old(cache.sortedSets), UserTokensKey(owner.value), token)
          && cache.closed == old(cache.closed)))
    {
      if token == "" {
        return None;
      }
      var tokenKey := TokenKey(token);
      var data := cache.Get(tokenKey, now);
      if data.Err? {
        if data.error == ErrKeyNotFound {
          return None;
        }
        return Some("failed to get token data: " + Message(data.error));
      }
      var owner := codec.decode(data.value);
      if owner.Err? {
        return Some("failed to unmarshal token data: " + owner.error);
      }
      var _ := cache.ZRem(UserTokensKey(owner.value), token);
      KeysDistinct(token, owner.value, token);
      var _ := cache.Delete(tokenKey);
      err := None;
    }

    /**
     * InvalidateAllUserTokens: every token in the user's set loses its item and
     * leaves the set, so the set itself disappears.
     */
    method InvalidateAllUserTokens(userID: string) returns (err: Option<string>)
      requires Valid()
      modifies cache
      ensures Valid()
      ensures userID == "" ==> err == Some("userID cannot be empty") && unchanged(cache)
      ensures userID != "" ==> (err.None?
        && cache.items == (if old(cache.items).None? then None
           else Some(old(cache.ItemMap()) - TokenKeys(UserTokens(old(cache.sortedSets), userID))))
        && cache.sortedSets == old(cache.sortedSets) - {UserTokensKey(userID)}
        && cache.closed == old(cache.closed))
    {
      if userID == "" {
        return Some("userID cannot be empty");
      }
      var userKey := UserTokensKey(userID);
      var tokens := cache.ZRange(userKey, 0, -1);
      ghost var zset: seq<ZItem> := if userKey in cache.sortedSets then cache.sortedSets[userKey] else [];
      ghost var items0 := cache.items;
      ghost var sets0 := cache.sortedSets;
      DropTokens(userKey, tokens.value);
      if userKey in cache.sortedSets {
        AllMembersRemoved(zset, tokens.value);
        EmptyScores(cache.sortedSets[userKey]);
      }
      MapMinusKey(cache.sortedSets, sets0, userKey);
      SameNil(items0, cache.items, TokenKeys(tokens.value));
      err := None;
    }

    /** The loop of InvalidateAllUserTokens: every listed token loses its item and leaves the set under userKey. */
    method DropTokens(userKey: string, tokens: seq<string>)
      requires Valid() && userKey != ""
      modifies cache
      ensures Valid() && cache.closed == old(cache.closed)
      ensures cache.items.None? <==> old(cache.items).None?
      ensures cache.ItemMap() == old(cache.ItemMap()) - TokenKeys(tokens)
      ensures cache.sortedSets - {userKey} == old(cache.sortedSets) - {userKey}
      ensures userKey in cache.sortedSets ==>
        (userKey in old(cache.sortedSets) && Scores(cache.sortedSets[userKey]) == Scores(old(cache.sortedSets)[userKey]) - Done(tokens))
    {
      ghost var items0 := cache.ItemMap();
      ghost var sets0 := cache.sortedSets;
      ghost var zs := if userKey in sets0 then Scores(sets0[userKey]) else map[];
      var i := 0;
      while i < |tokens|
        invariant 0 <= i <= |tokens|
        invariant Valid() && cache.closed == old(cache.closed)
        invariant cache.items.None? <==> old(cache.items).None?
        invariant cache.ItemMap() == items0 - TokenKeys(tokens[..i])
        invariant cache.sortedSets - {userKey} == sets0 - {userKey}
        invariant userKey in cache.sortedSets ==>
          (userKey in sets0 && Scores(cache.sortedSets[userKey]) == zs - Done(tokens[..i]))
      {
        var t := tokens[i];
        assert tokens[..i + 1] == tokens[..i] + [t];
        ghost var itemsBefore := cache.ItemMap();
        var _ := cache.Delete(TokenKey(t));
        ItemsStep(items0, itemsBefore, cache.ItemMap(), tokens[..i], t);
        ghost var setsBefore := cache.sortedSets;
        var _ := cache.ZRem(userKey, t);
        ZRemStep(setsBefore, cache.sortedSets, userKey, t, zs, tokens[..i]);
        i := i + 1;
      }
      assert tokens[..i] == tokens;
    }
  }

  /** TokenExists on an item map. */
  function Exists(codec: TokenCodec, items: Items, token: string, now: int): (r: Result<bool, string>)
    ensures r == Ok(true) <==> Lookup(items, TokenKey(token), now).Ok? && codec.decode(Lookup(items, TokenKey(token), now).value).Ok?
    ensures r == Ok(false) <==> !Visible(items, TokenKey(token), now)
  {
    match Lookup(items, TokenKey(token), now)
      case Err(e) =>
        if e == ErrKeyNotFound then Ok(false) else Err("failed to get token data: " + Message(e))
      case Ok(s) =>
        match codec.decode(s)
          case Err(m) => Err("failed to unmarshal token data: " + m)
          case Ok(_) => Ok(true)
  }

  /** The tokens in a user's set, in score order. */
  function UserTokens(sets: map<string, seq<ZItem>>, userID: string): seq<string> {
    var key := UserTokensKey(userID);
    if key in sets then Members(sets[key]) else []
  }

  /** The tokens already handled, as a set. */
  function Done(tokens: seq<string>): set<string> {
    set t | t in tokens
  }

  lemma ItemsStep(items0: Items, cur: Items, next: Items, done: seq<string>, t: string)
    requires cur == items0 - TokenKeys(done)
    requires next == cur - {TokenKey(t)}
    ensures next == items0 - TokenKeys(done + [t])
  {
    assert TokenKeys(done + [t]) == TokenKeys(done) + {TokenKey(t)};
  }

  lemma ScoresStep(zs: map<string, int>, cur: map<string, int>, next: map<string, int>, done: seq<string>, t: string)
    requires cur == zs - Done(done)
    requires next == cur - {t}
    ensures next == zs - Done(done + [t])
  {
    assert Done(done + [t]) == Done(done) + {t};
  }

  lemma SameNil(before: Option<Items>, after: Option<Items>, gone: set<string>)
    requires after.None? <==> before.None?
    requires (if after.Some? then after.value else map[]) == (if before.Some? then before.value else map[]) - gone
    ensures after == (if before.None? then None else Some((if before.Some? then before.value else map[]) - gone))
  {
  }

  lemma ZRemStep(before: map<string, seq<ZItem>>, after: map<string, seq<ZItem>>, key: string, t: string,
                 zs: map<string, int>, done: seq<string>)
    requires ValidSets(before) && after == WithoutMember(before, key, t)
    requires key in before ==> Scores(before[key]) == zs - Done(done)
    ensures after - {key} == before - {key}
    ensures key in after ==> key in before && Scores(after[key]) == zs - Done(done + [t])
  {
    if key in before {
      SetsAfterRemoveSpec(before, key, t);
      if key in after {
        ScoresStep(zs, Scores(before[key]), Scores(after[key]), done, t);
      }
    }
  }

  lemma MapMinusKey(a: map<string, seq<ZItem>>, b: map<string, seq<ZItem>>, key: string)
    requires key !in a && a - {key} == b - {key}
    ensures a == b - {key}
  {
    assert a - {key} == a;
  }

  lemma AllMembersRemoved(s: seq<ZItem>, tokens: seq<string>)
    requires UniqueMembers(s) && tokens == Members(s)
    ensures Scores(s) - Done(tokens) == map[]
  {
    forall m | m in Scores(s) ensures m in tokens {
      var i := ScoresHasIndex(s, m);
    }
  }

  /** The item map AddToken leaves behind (its state after a successful call). */
  function AfterAdd(codec: TokenCodec, items: Items, token: string, userID: string, expiresAt: int, now: int): Items {
    Reexpired(Stored(items, TokenKey(token), Str(codec.encode(userID)), expiresAt - now, now),
              UserTokensKey(userID), expiresAt - now + Day, now)
  }

  /** A token just added exists until its expiry instant, and reading it back names its owner. */
  lemma AddThenExists(codec: TokenCodec, items: Items, token: string, userID: string, expiresAt: int, now: int, t: int)
    requires RoundTrips(codec) && now < expiresAt && now <= t <= expiresAt
    ensures Exists(codec, AfterAdd(codec, items, token, userID, expiresAt, now), token, t) == Ok(true)
    ensures codec.decode(Lookup(AfterAdd(codec, items, token, userID, expiresAt, now), TokenKey(token), t).value) == Ok(userID)
  {
    KeysDistinct(token, userID, token);
    var stored := Stored(items, TokenKey(token), Str(codec.encode(userID)), expiresAt - now, now);
    assert stored[TokenKey(token)] == Entry(Str(codec.encode(userID)), Some(expiresAt));
    assert AfterAdd(codec, items, token, userID, expiresAt, now)[TokenKey(token)] == stored[TokenKey(token)];
  }

  /** A token just added is listed in its owner's set, with its expiry in Unix seconds as score. */
  lemma AddThenListed(sets: map<string, seq<ZItem>>, token: string, userID: string, expiresAt: int)
    requires ValidSets(sets)
    ensures var r := SetsAfterAdd(sets, UserTokensKey(userID), UnixSeconds(expiresAt), token);
      ValidSets(r) && token in UserTokens(r, userID)
      && Scores(r[UserTokensKey(userID)])[token] == UnixSeconds(expiresAt)
  {
    var key := UserTokensKey(userID);
    var r := SetsAfterAdd(sets, key, UnixSeconds(expiresAt), token);
    SetsAfterAddSpec(sets, key, UnixSeconds(expiresAt), token);
    MembersAreScored(r[key], token);
  }

  /** After RemoveToken the token no longer exists and its owner's set no longer lists it. */
  lemma RemoveThenGone(codec: TokenCodec, items: Items, sets: map<string, seq<ZItem>>, token: string, userID: string, t: int)
    requires ValidSets(sets)
    ensures Exists(codec, items - {TokenKey(token)}, token, t) == Ok(false)
    ensures var r := WithoutMember(sets, UserTokensKey(userID), token);
      ValidSets(r) && token !in UserTokens(r, userID)
  {
    var key := UserTokensKey(userID);
    var r := WithoutMember(sets, key, token);
    if key in sets {
      SetsAfterRemoveSpec(sets, key, token);
      if key in r {
        MembersAreScored(r[key], token);
      }
    }
  }

  /** Removing a token right after adding it leaves its owner's set with the other tokens it had. */
  lemma AddThenRemove(sets: map<string, seq<ZItem>>, token: string, userID: string, expiresAt: int)
    requires ValidSets(sets)
    ensures var key := UserTokensKey(userID);
      var r := WithoutMember(SetsAfterAdd(sets, key, UnixSeconds(expiresAt), token), key, token);
      ValidSets(r) && r - {key} == sets - {key}
      && (key in r <==> key in sets && Scores(sets[key]) - {token} != map[])
      && (key in r ==> Scores(r[key]) == Scores(sets[key]) - {token})
  {
    AddThenRemoveAt(sets, UserTokensKey(userID), UnixSeconds(expiresAt), token);
  }

  lemma AddThenRemoveAt(sets: map<string, seq<ZItem>>, key: string, score: int, member: string)
    requires ValidSets(sets)
    ensures var r := WithoutMember(SetsAfterAdd(sets, key, score, member), key, member);
      ValidSets(r) && r - {key} == sets - {key}
      && (key in r <==> key in sets && Scores(sets[key]) - {member} != map[])
      && (key in r ==> Scores(r[key]) == Scores(sets[key]) - {member})
  {
    var added := SetsAfterAdd(sets, key, score, member);
    SetsAfterAddSpec(sets, key, score, member);
    SetsAfterRemoveSpec(added, key, member);
    var before: map<string, int> := if key in sets then Scores(sets[key]) else map[];
    UpdateThenRemove(before, member, score);
  }

  lemma UpdateThenRemove(m: map<string, int>, k: string, v: int)
    ensures m[k := v] - {k} == m - {k}
  {
  }

  /** After InvalidateAllUserTokens none of the user's former tokens exists. */
  lemma InvalidatedTokensGone(codec: TokenCodec, items: Items, sets: map<string, seq<ZItem>>, userID: string, token: string, t: int)
    requires token in UserTokens(sets, userID)
    ensures Exists(codec, items - TokenKeys(UserTokens(sets, userID)), token, t) == Ok(false)
  {
  }
}
