/**
 * pkg/cache/memory.go: the in-process Cache.  An item map from keys to values with
 * an optional expiry instant, and a separate map from keys to sorted sets.  Times
 * are integer nanoseconds; "now" is a parameter of every operation that reads the clock.
 */
module MemoryCache {
  import opened Wrappers
  import opened Text
  import opened CacheTypes
  import opened SortedSet

  /** A stored value; None for the zero time.Time, which never expires. */
  datatype Entry = Entry(value: Value, expiration: Option<int>)

  type Items = map<string, Entry>

  const ErrEmptyKey := Failure("key cannot be empty")
  const ErrNotANumber := Failure("value is not a number")
  const ErrClosed := Failure("cache is closed")
  const ErrNilItems := Failure("cache items map is nil")

  function ErrMissing(key: string): CacheError {
    Failure("key " + key + " not found")
  }

  /** The expiry Set, MSet and Expire compute: a positive ttl counts from now; otherwise none. */
  function ExpiryFor(ttl: int, now: int): (e: Option<int>)
    ensures e.Some? <==> ttl > 0
    ensures e.Some? ==> e.value - now == ttl
  {
    if ttl > 0 then Some(now + ttl) else None
  }

  /** An entry is expired once its expiry lies strictly before now (time.Before). */
  predicate Expired(e: Entry, now: int) {
    e.expiration.Some? && e.expiration.value < now
  }

  predicate Visible(items: Items, key: string, now: int) {
    key in items && !Expired(items[key], now)
  }

  /** Get on an item map. */
  function Lookup(items: Items, key: string, now: int): (r: Result<string, CacheError>)
    ensures r.Ok? <==> Visible(items, key, now) && items[key].value.Str?
    ensures r.Ok? ==> r.value == items[key].value.s
    ensures r.Err? ==> r.error == (if Visible(items, key, now) then ErrInvalidType else ErrKeyNotFound)
  {
    if key !in items || Expired(items[key], now) then Err(ErrKeyNotFound)
    else match items[key].value
      case Str(s) => Ok(s)
      case _ => Err(ErrInvalidType)
  }

  /** Set on an item map. */
  function Stored(items: Items, key: string, value: Value, ttl: int, now: int): (r: Items)
    ensures r.Keys == items.Keys + {key}
    ensures forall k | k in items && k != key :: r[k] == items[k]
    ensures r[key].value == value && r[key].expiration == ExpiryFor(ttl, now)
  {
    items[key := Entry(value, ExpiryFor(ttl, now))]
  }

  /** Expire on an item map: a non-positive ttl deletes the key, a positive one moves its expiry; a missing key is ignored. */
  function Reexpired(items: Items, key: string, ttl: int, now: int): (r: Items)
    ensures key !in items ==> r == items
    ensures key in items && ttl <= 0 ==> r == items - {key}
    ensures key in items && ttl > 0 ==> r.Keys == items.Keys && r[key] == Entry(items[key].value, Some(now + ttl))
    ensures forall k | k in items && k != key :: k in r && r[k] == items[k]
  {
    if key !in items then items
    else if ttl <= 0 then items - {key}
    else items[key := Entry(items[key].value, Some(now + ttl))]
  }

  /** TTL on an item map: the time left, 0 for no expiry, not-found once nothing is left. */
  function Remaining(items: Items, key: string, now: int): (r: Result<int, CacheError>)
    ensures r.Ok? <==> key in items && (items[key].expiration.None? || items[key].expiration.value > now)
    ensures r.Ok? && items[key].expiration.None? ==> r.value == 0
    ensures r.Ok? && items[key].expiration.Some? ==> r.value == items[key].expiration.value - now > 0
    ensures r.Err? ==> r.error == ErrKeyNotFound
  {
    if key !in items then Err(ErrKeyNotFound)
    else match items[key].expiration
      case None => Ok(0)
      case Some(exp) => if exp - now <= 0 then Err(ErrKeyNotFound) else Ok(exp - now)
  }

  /** What fmt's %v prints for a stored value. */
  function Format(v: Value): string {
    match v
      case Str(s) => s
      case GoInt(i) => IntToString(i as int)
      case Int64(i) => IntToString(i as int)
      case Other(repr) => repr
  }

  /** One slot of MGet's answer: "" for a missing or expired key, otherwise the value as text. */
  function MGetValue(items: Items, key: string, now: int): (r: string)
    ensures !Visible(items, key, now) ==> r == ""
    ensures Visible(items, key, now) && items[key].value.Str? ==> r == items[key].value.s
    ensures Visible(items, key, now) && items[key].value.Int64? ==> r == IntToString(items[key].value.i as int)
    ensures Visible(items, key, now) && items[key].value.GoInt? ==> r == IntToString(items[key].value.i as int)
    ensures Visible(items, key, now) && items[key].value.Other? ==> r == items[key].value.repr
  {
    if Visible(items, key, now) then Format(items[key].value) else ""
  }

  /** Increment's arithmetic on a stored value: the new number and the value to store back. */
  function Incremented(v: Value, delta: int64): (r: Result<(int64, Value), CacheError>)
    ensures r.Err? <==> NumberOf(v).None?
    ensures r.Err? ==> r.error == ErrNotANumber
    ensures r.Ok? ==> r.value.0 as int == AddInt64(NumberOf(v).value, delta as int)
    ensures r.Ok? ==> NumberOf(r.value.1) == Some(r.value.0 as int)
    ensures r.Ok? ==> SameKind(v, r.value.1)
  {
    match v
      case GoInt(i) =>
        var res := AddInt64(i as int, delta as int) as int64; Ok((res, GoInt(res)))
      case Int64(i) =>
        var res := AddInt64(i as int, delta as int) as int64; Ok((res, Int64(res)))
      case Str(s) =>
        (match IncrementedText(s, delta)
          case Some((res, text)) => Ok((res, Str(text)))
          case None => Err(ErrNotANumber))
      case Other(_) => Err(ErrNotANumber)
  }

  /** The string case: parse as int64, add with wrap-around, format back in decimal. */
  function IncrementedText(s: string, delta: int64): (r: Option<(int64, string)>)
    ensures r.Some? <==> ParseInt(s).Some?
    ensures r.Some? ==> r.value.0 as int == AddInt64(ParseInt(s).value, delta as int)
    ensures r.Some? ==> ParseInt(r.value.1) == Some(r.value.0 as int)
  {
    match ParseInt(s)
      case Some(n) =>
        var res := AddInt64(n, delta as int);
        ParseIntOfIntToString(res);
        Some((res as int64, IntToString(res)))
      case None => None
  }

  /** The number a value holds for Increment: an integer, or a string that parses as an int64. */
  function NumberOf(v: Value): Option<int> {
    match v
      case GoInt(i) => Some(i as int)
      case Int64(i) => Some(i as int)
      case Str(s) => ParseInt(s)
      case Other(_) => None
  }

  predicate SameKind(a: Value, b: Value) {
    (a.Str? && b.Str?) || (a.GoInt? && b.GoInt?) || (a.Int64? && b.Int64?) || (a.Other? && b.Other?)
  }

  /** Go's unary minus on int64: the negation of the minimum wraps to the minimum. */
  function Negate(d: int64): (r: int64)
    ensures r as int == NegInt64(d as int)
  {
    NegInt64(d as int) as int64
  }

  /** What cleanup leaves: the entries that have not expired. */
  function Unexpired(items: Items, now: int): (r: Items)
    ensures forall k :: k in r <==> Visible(items, k, now)
    ensures forall k | k in r :: k in items && r[k] == items[k]
  {
    map k | k in items && !Expired(items[k], now) :: items[k]
  }

  predicate ValidSets(sets: map<string, seq<ZItem>>) {
    forall k | k in sets :: ValidSet(sets[k])
  }

  lemma ValidSetsUpdate(sets: map<string, seq<ZItem>>, key: string, s: seq<ZItem>)
    requires ValidSets(sets) && ValidSet(s)
    ensures ValidSets(sets[key := s])
  {
  }

  lemma ValidSetsRemove(sets: map<string, seq<ZItem>>, key: string)
    requires ValidSets(sets)
    ensures ValidSets(sets - {key})
  {
  }

  /** ZAdd on the sorted-set map. */
  function SetsAfterAdd(sets: map<string, seq<ZItem>>, key: string, score: int, member: string): map<string, seq<ZItem>> {
    sets[key := Add(if key in sets then sets[key] else [], score, member)]
  }

  lemma SetsAfterAddSpec(sets: map<string, seq<ZItem>>, key: string, score: int, member: string)
    requires ValidSets(sets)
    ensures var r := SetsAfterAdd(sets, key, score, member);
      ValidSets(r) && key in r
      && Scores(r[key]) == (if key in sets then Scores(sets[key]) else map[])[member := score]
      && r - {key} == sets - {key}
  {
    var s := if key in sets then sets[key] else [];
    AddSpec(s, score, member);
    ValidSetsUpdate(sets, key, Add(s, score, member));
  }

  /** ZRem on the sorted-set map, for a key that holds a set. */
  function SetsAfterRemove(sets: map<string, seq<ZItem>>, key: string, member: string): map<string, seq<ZItem>>
    requires key in sets
  {
    var rest := Remove(sets[key], member);
    if |rest| == 0 then sets - {key} else sets[key := rest]
  }

  lemma SetsAfterRemoveSpec(sets: map<string, seq<ZItem>>, key: string, member: string)
    requires ValidSets(sets) && key in sets
    ensures var r := SetsAfterRemove(sets, key, member);
      ValidSets(r)
      && r - {key} == sets - {key}
      && (key in r <==> Scores(sets[key]) - {member} != map[])
      && (key in r ==> Scores(r[key]) == Scores(sets[key]) - {member})
  {
    var rest := Remove(sets[key], member);
    RemoveSpec(sets[key], member);
    EmptyScores(rest);
    var left := Scores(sets[key]) - {member};
    assert Scores(rest) == left;
    if |rest| == 0 {
      RemovedLast(sets, key);
      assert left == map[];
    } else {
      var r := sets[key := rest];
      ValidSetsUpdate(sets, key, rest);
      assert r - {key} == sets - {key};
      assert key in r && r[key] == rest && left != map[];
    }
  }

  /** ZRem on the sorted-set map, for any key: a key without a set is left alone. */
  function WithoutMember(sets: map<string, seq<ZItem>>, key: string, member: string): map<string, seq<ZItem>> {
    if key in sets then SetsAfterRemove(sets, key, member) else sets
  }

  lemma RemovedLast(sets: map<string, seq<ZItem>>, key: string)
    requires ValidSets(sets)
    ensures ValidSets(sets - {key}) && (sets - {key}) - {key} == sets - {key} && key !in sets - {key}
  {
    ValidSetsRemove(sets, key);
  }

  class MemoryCache {
    /** None once Close has dropped the map (a nil Go map). */
    var items: Option<Items>
    var sortedSets: map<string, seq<ZItem>>
    var closed: bool

    /** Every stored sorted set is non-empty, ordered by score and without repeated members. */
    ghost predicate Valid()
      reads this
    {
      ValidSets(sortedSets)
    }

    /** The items as reads see them: a nil map reads as an empty one. */
    function ItemMap(): Items
      reads this
    {
      if items.Some? then items.value else map[]
    }

    /** NewMemoryCache: empty maps, open. */
    constructor ()
      ensures Valid() && items == Some(map[]) && sortedSets == map[] && !closed
    {
      items := Some(map[]);
      sortedSets := map[];
      closed := false;
    }

    method Get(key: string, now: int) returns (r: Result<string, CacheError>)
      ensures r == Lookup(ItemMap(), key, now)
    {
      var m := ItemMap();
      if key !in m {
        return Err(ErrKeyNotFound);
      }
      var e := m[key];
      if e.expiration.Some? && e.expiration.value < now {
        return Err(ErrKeyNotFound);
      }
      match e.value {
        case Str(s) => r := Ok(s);
        case _ => r := Err(ErrInvalidType);
      }
    }

    /** Writing to the nil map of a closed cache panics in Go, so Set needs the map. */
    method Set(key: string, value: Value, ttl: int, now: int)
      requires Valid() && items.Some?
      modifies this
      ensures Valid()
      ensures items == Some(Stored(old(items.value), key, value, ttl, now))
      ensures sortedSets == old(sortedSets) && closed == old(closed)
    {
      var exp: Option<int> := None;
      if ttl > 0 {
        exp := Some(now + ttl);
      }
      items := Some(items.value[key := Entry(value, exp)]);
    }

    method Delete(key: string) returns (err: Option<CacheError>)
      requires Valid()
      modifies this
      ensures Valid()
      ensures err.None? <==> key in old(ItemMap())
      ensures err.Some? ==> err.value == ErrKeyNotFound && items == old(items)
      ensures err.None? ==> items == Some(old(ItemMap()) - {key})
      ensures ItemMap() == old(ItemMap()) - {key}
      ensures sortedSets == old(sortedSets) && closed == old(closed)
    {
      if key !in ItemMap() {
        assert ItemMap() - {key} == ItemMap();
        return Some(ErrKeyNotFound);
      }
      items := Some(items.value - {key});
      err := None;
    }

    method Exists(key: string, now: int) returns (b: bool)
      ensures b <==> Visible(ItemMap(), key, now)
    {
      var m := ItemMap();
      b := key in m && !(m[key].expiration.Some? && m[key].expiration.value < now);
    }

    /** Only item entries are seen: a key holding only a sorted set reports false. */
    method Expire(key: string, ttl: int, now: int) returns (b: bool)
      requires Valid()
      modifies this
      ensures Valid()
      ensures b <==> key in old(ItemMap())
      ensures !b ==> items == old(items)
      ensures b ==> items == Some(Reexpired(old(ItemMap()), key, ttl, now))
      ensures sortedSets == old(sortedSets) && closed == old(closed)
    {
      if key !in ItemMap() {
        return false;
      }
      var e := items.value[key];
      if ttl <= 0 {
        items := Some(items.value - {key});
        return true;
      }
      items := Some(items.value[key := Entry(e.value, Some(now + ttl))]);
      b := true;
    }

    method TTL(key: string, now: int) returns (r: Result<int, CacheError>)
      ensures r == Remaining(ItemMap(), key, now)
    {
      var m := ItemMap();
      if key !in m {
        return Err(ErrKeyNotFound);
      }
      match m[key].expiration {
        case None => r := Ok(0);
        case Some(exp) =>
          var ttl := exp - now;
          if ttl <= 0 {
            r := Err(ErrKeyNotFound);
          } else {
            r := Ok(ttl);
          }
      }
    }

    /** A fresh item map, also after Close; sorted sets are kept. */
    method Flush()
      requires Valid()
      modifies this
      ensures Valid()
      ensures items == Some(map[]) && sortedSets == old(sortedSets) && closed == old(closed)
    {
      items := Some(map[]);
    }

    /** Idempotent: the second call changes nothing. */
    method Close()
      requires Valid()
      modifies this
      ensures Valid() && closed
      ensures old(closed) ==> items == old(items)
      ensures !old(closed) ==> items.None?
      ensures sortedSets == old(sortedSets)
    {
      if closed {
        return;
      }
      items := None;
      closed := true;
    }

    /**
     * Adds delta to a stored number.  Expiry is not consulted.  Go ints are 64-bit,
     * so the source's int overflow check never fires and both integer kinds wrap.
     */
    method Increment(key: string, delta: int64) returns (r: Result<int64, CacheError>)
      requires Valid()
      modifies this
      ensures Valid()
      ensures key !in old(ItemMap()) ==> r == Err(ErrMissing(key)) && items == old(items)
      ensures key in old(ItemMap()) ==>
        var e := old(ItemMap())[key];
        match Incremented(e.value, delta)
          case Ok((n, v)) => r == Ok(n) && items == Some(old(ItemMap())[key := Entry(v, e.expiration)])
          case Err(error) => r == Err(error) && items == old(items)
      ensures sortedSets == old(sortedSets) && closed == old(closed)
    {
      if key !in ItemMap() {
        return Err(ErrMissing(key));
      }
      var e := items.value[key];
      var next := Incremented(e.value, delta);
      match next {
        case Ok((n, v)) =>
          items := Some(items.value[key := Entry(v, e.expiration)]);
          r := Ok(n);
        case Err(error) =>
          r := Err(error);
      }
    }

    /** Increment by the int64 negation of delta (which wraps for the minimum). */
    method Decrement(key: string, delta: int64) returns (r: Result<int64, CacheError>)
      requires Valid()
      modifies this
      ensures Valid()
      ensures key !in old(ItemMap()) ==> r == Err(ErrMissing(key)) && items == old(items)
      ensures key in old(ItemMap()) ==>
        var e := old(ItemMap())[key];
        match Incremented(e.value, Negate(delta))
          case Ok((n, v)) => r == Ok(n) && items == Some(old(ItemMap())[key := Entry(v, e.expiration)])
          case Err(error) => r == Err(error) && items == old(items)
      ensures sortedSets == old(sortedSets) && closed == old(closed)
    {
      r := Increment(key, Negate(delta));
    }

    method MGet(keys: seq<string>, now: int) returns (r: seq<string>)
      ensures |r| == |keys|
      ensures forall i :: 0 <= i < |keys| ==> r[i] == MGetValue(ItemMap(), keys[i], now)
    {
      var m := ItemMap();
      r := [];
      var i := 0;
      while i < |keys|
        invariant 0 <= i <= |keys| && |r| == i
        invariant forall j :: 0 <= j < i ==> r[j] == MGetValue(m, keys[j], now)
      {
        var key := keys[i];
        if key !in m || (m[key].expiration.Some? && m[key].expiration.value < now) {
          r := r + [""];
        } else {
          r := r + [Format(m[key].value)];
        }
        i := i + 1;
      }
    }

    /** Every value gets the same expiry; an empty batch does not touch the map. */
    method MSet(values: map<string, Value>, ttl: int, now: int)
      requires Valid() && (values == map[] || items.Some?)
      modifies this
      ensures Valid()
      ensures values == map[] ==> items == old(items)
      ensures values != map[] ==> items == Some(old(ItemMap()) + map k | k in values :: Entry(values[k], ExpiryFor(ttl, now)))
      ensures sortedSets == old(sortedSets) && closed == old(closed)
    {
      if values == map[] {
        return;
      }
      var exp := ExpiryFor(ttl, now);
      ghost var start := items.value;
      var pending := values.Keys;
      while pending != {}
        invariant items.Some? && Valid()
        invariant pending <= values.Keys
        invariant items.value == start + map k | k in values && k !in pending :: Entry(values[k], exp)
        invariant sortedSets == old(sortedSets) && closed == old(closed)
        decreases pending
      {
        var k :| k in pending;
        items := Some(items.value[k := Entry(values[k], exp)]);
        pending := pending - {k};
      }
      assert (map k | k in values && k !in pending :: Entry(values[k], exp)) == map k | k in values :: Entry(values[k], ExpiryFor(ttl, now));
    }

    /** Adds the member, or moves it to its new score; the set is created when missing. */
    method ZAdd(key: string, score: int, member: string) returns (err: Option<CacheError>)
      requires Valid()
      modifies this
      ensures Valid()
      ensures err.Some? <==> key == ""
      ensures err.Some? ==> err.value == ErrEmptyKey && sortedSets == old(sortedSets)
      ensures err.None? ==> (key in sortedSets
        && Scores(sortedSets[key]) == (if key in old(sortedSets) then Scores(old(sortedSets)[key]) else map[])[member := score]
        && sortedSets - {key} == old(sortedSets) - {key})
      ensures err.None? ==> sortedSets == SetsAfterAdd(old(sortedSets), key, score, member)
      ensures items == old(items) && closed == old(closed)
    {
      if key == "" {
        return Some(ErrEmptyKey);
      }
      var zset: seq<ZItem> := if key in sortedSets then sortedSets[key] else [];
      var i := 0;
      while i < |zset| && zset[i].member != member
        invariant 0 <= i <= |zset|
        invariant forall k :: 0 <= k < i ==> zset[k].member != member
      {
        i := i + 1;
      }
      var rest := if i < |zset| then RemoveAt(zset, i) else zset;
      FindFromFirst(zset, member, i);
      SetsAfterAddSpec(sortedSets, key, score, member);
      sortedSets := sortedSets[key := Insert(rest, ZItem(score, member))];
      err := None;
    }

    /** Removes the member; a set left empty is deleted. */
    method ZRem(key: string, member: string) returns (err: Option<CacheError>)
      requires Valid()
      modifies this
      ensures Valid()
      ensures err.Some? <==> key == ""
      ensures err.Some? ==> err.value == ErrEmptyKey && sortedSets == old(sortedSets)
      ensures err.None? && key !in old(sortedSets) ==> sortedSets == old(sortedSets)
      ensures err.None? && key in old(sortedSets) ==> (
        sortedSets - {key} == old(sortedSets) - {key}
        && (key in sortedSets <==> Scores(old(sortedSets)[key]) - {member} != map[])
        && (key in sortedSets ==> Scores(sortedSets[key]) == Scores(old(sortedSets)[key]) - {member}))
      ensures err.None? ==> sortedSets == WithoutMember(old(sortedSets), key, member)
      ensures items == old(items) && closed == old(closed)
    {
      if key == "" {
        return Some(ErrEmptyKey);
      }
      if key !in sortedSets {
        return None;
      }
      var zset := sortedSets[key];
      var i := 0;
      while i < |zset| && zset[i].member != member
        invariant 0 <= i <= |zset|
        invariant forall k :: 0 <= k < i ==> zset[k].member != member
      {
        i := i + 1;
      }
      var rest := if i < |zset| then RemoveAt(zset, i) else zset;
      FindFromFirst(zset, member, i);
      assert rest == Remove(zset, member);
      SetsAfterRemoveSpec(sortedSets, key, member);
      if |rest| == 0 {
        sortedSets := sortedSets - {key};
      } else {
        sortedSets := sortedSets[key := rest];
      }
      assert sortedSets == SetsAfterRemove(old(sortedSets), key, member);
      err := None;
    }

    method ZRange(key: string, start: int, stop: int) returns (r: Result<seq<string>, CacheError>)
      requires Valid()
      ensures r.Err? <==> key == ""
      ensures r.Err? ==> r.error == ErrEmptyKey
      ensures r.Ok? && key !in sortedSets ==> r.value == []
      ensures r.Ok? && key in sortedSets ==>
        match Window(|sortedSets[key]|, start, stop)
          case None => r.value == []
          case Some((lo, hi)) => r.value == Members(sortedSets[key])[lo..hi + 1]
      ensures r.Ok? && start == 0 && stop == -1 ==> r.value == (if key in sortedSets then Members(sortedSets[key]) else [])
    {
      if key == "" {
        return Err(ErrEmptyKey);
      }
      if key !in sortedSets {
        return Ok([]);
      }
      var zset := sortedSets[key];
      var window := Window(|zset|, start, stop);
      if window.None? {
        return Ok([]);
      }
      var (lo, hi) := window.value;
      var result := [];
      var i := lo;
      while i <= hi
        invariant lo <= i <= hi + 1 && |result| == i - lo
        invariant forall k :: 0 <= k < |result| ==> result[k] == zset[lo + k].member
      {
        result := result + [zset[i].member];
        i := i + 1;
      }
      assert result == Members(zset)[lo..hi + 1];
      if start == 0 && stop == -1 {
        WholeWindow(|zset|);
        assert Members(zset)[0..|zset|] == Members(zset);
      }
      r := Ok(result);
    }

    /** The periodic sweep: drops every item whose expiry lies before now. */
    method Cleanup(now: int) returns (err: Option<CacheError>)
      requires Valid()
      modifies this
      ensures Valid()
      ensures old(closed) ==> err == Some(ErrClosed) && items == old(items)
      ensures !old(closed) && old(items).None? ==> err == Some(ErrNilItems) && items == old(items)
      ensures !old(closed) && old(items).Some? ==> err.None? && items == Some(Unexpired(old(items.value), now))
      ensures sortedSets == old(sortedSets) && closed == old(closed)
    {
      if closed {
        return Some(ErrClosed);
      }
      if items.None? {
        return Some(ErrNilItems);
      }
      ghost var start := items.value;
      var pending := items.value.Keys;
      while pending != {}
        invariant items.Some? && Valid()
        invariant pending <= start.Keys
        invariant items.value == map k | k in start && (k in pending || !Expired(start[k], now)) :: start[k]
        invariant sortedSets == old(sortedSets) && closed == old(closed)
        decreases pending
      {
        var k :| k in pending;
        var e := items.value[k];
        if e.expiration.Some? && e.expiration.value < now {
          items := Some(items.value - {k});
        }
        pending := pending - {k};
      }
      assert items.value == Unexpired(start, now);
      err := None;
    }
  }

  /** A string Set at time t is read back by Get until its expiry has passed. */
  lemma SetThenGet(items: Items, key: string, s: string, ttl: int, t: int, now: int)
    requires t <= now && (ttl <= 0 || now <= t + ttl)
    ensures Lookup(Stored(items, key, Str(s), ttl, t), key, now) == Ok(s)
  {
  }

  /** After the expiry instant the entry is gone for Get, Exists, TTL and MGet alike. */
  lemma SetThenExpired(items: Items, key: string, v: Value, ttl: int, t: int, now: int)
    requires ttl > 0 && now > t + ttl
    ensures Lookup(Stored(items, key, v, ttl, t), key, now) == Err(ErrKeyNotFound)
    ensures Remaining(Stored(items, key, v, ttl, t), key, now) == Err(ErrKeyNotFound)
    ensures MGetValue(Stored(items, key, v, ttl, t), key, now) == ""
  {
  }

  /** TTL after Set reports the time left, never more than the ttl that was set. */
  lemma SetThenTTL(items: Items, key: string, v: Value, ttl: int, t: int, now: int)
    requires ttl > 0 && t <= now < t + ttl
    ensures Remaining(Stored(items, key, v, ttl, t), key, now) == Ok(t + ttl - now)
    ensures 0 < t + ttl - now <= ttl
  {
  }

  /** A zero or negative ttl stores an entry that never expires and whose TTL is 0. */
  lemma SetWithoutTTL(items: Items, key: string, v: Value, ttl: int, t: int, now: int)
    requires ttl <= 0
    ensures Visible(Stored(items, key, v, ttl, t), key, now)
    ensures Remaining(Stored(items, key, v, ttl, t), key, now) == Ok(0)
  {
  }

  /**
   * At the expiry instant itself Get still returns the value (time.Before is strict)
   * while TTL already reports the key as not found (time.Until is not positive).
   */
  lemma GetAndTTLAtExpiry(items: Items, key: string, s: string, ttl: int, t: int)
    requires ttl > 0
    ensures Lookup(Stored(items, key, Str(s), ttl, t), key, t + ttl) == Ok(s)
    ensures Remaining(Stored(items, key, Str(s), ttl, t), key, t + ttl) == Err(ErrKeyNotFound)
  {
  }

  /** Exists answers true exactly when Get does not report a missing key. */
  lemma ExistsAgreesWithGet(items: Items, key: string, now: int)
    ensures Visible(items, key, now) <==> Lookup(items, key, now) != Err(ErrKeyNotFound)
  {
  }

  /** MGet's slot is Get's string, and "" where Get reports a missing key. */
  lemma MGetAgreesWithGet(items: Items, key: string, now: int)
    ensures Lookup(items, key, now).Ok? ==> MGetValue(items, key, now) == Lookup(items, key, now).value
    ensures Lookup(items, key, now) == Err(ErrKeyNotFound) ==> MGetValue(items, key, now) == ""
  {
  }

  /** The sweep cannot be observed: Get and TTL answer the same at any later time. */
  lemma CleanupUnobservable(items: Items, now: int, later: int, key: string)
    requires now <= later
    ensures Lookup(Unexpired(items, now), key, later) == Lookup(items, key, later)
    ensures Remaining(Unexpired(items, now), key, later) == Remaining(items, key, later)
    ensures MGetValue(Unexpired(items, now), key, later) == MGetValue(items, key, later)
  {
  }

  lemma NumberInRange(v: Value)
    requires NumberOf(v).Some?
    ensures InInt64(NumberOf(v).value)
  {
    if v.Str? {
      assert ParseInt(v.s) == NumberOf(v);
    }
  }

  lemma IncrementedNumber(v: Value, d: int64) returns (n: int64, w: Value)
    requires NumberOf(v).Some?
    ensures Incremented(v, d) == Ok((n, w))
    ensures SameKind(v, w) && n as int == AddInt64(NumberOf(v).value, d as int) && NumberOf(w) == Some(n as int)
  {
    n, w := Incremented(v, d).value.0, Incremented(v, d).value.1;
  }

  /** Decrement by d undoes Increment by d, with int64 wrap-around on both steps. */
  lemma IncrementThenDecrement(v: Value, d: int64) returns (n: int64, w: Value, back: int64, w2: Value)
    requires NumberOf(v).Some?
    ensures Incremented(v, d) == Ok((n, w))
    ensures Incremented(w, Negate(d)) == Ok((back, w2))
    ensures back as int == NumberOf(v).value && SameKind(w2, v)
  {
    NumberInRange(v);
    n, w := IncrementedNumber(v, d);
    back, w2 := IncrementedNumber(w, Negate(d));
    NegateUndoes(NumberOf(v).value, d);
  }

  lemma NegateUndoes(x: int, d: int64)
    requires InInt64(x)
    ensures AddInt64(AddInt64(x, d as int), Negate(d) as int) == x
  {
    AddThenNegate(x, d as int);
  }

  /** A member is listed by ZRange(0, -1) exactly when it has a score in the set. */
  lemma MembersAreScored(s: seq<ZItem>, m: string)
    requires UniqueMembers(s)
    ensures m in Members(s) <==> m in Scores(s)
  {
    if m in Scores(s) {
      var i := ScoresHasIndex(s, m);
      assert Members(s)[i] == m;
    }
    if m in Members(s) {
      var i :| 0 <= i < |s| && Members(s)[i] == m;
      ScoresOfIndex(s, i);
    }
  }

  /** The index a search loop stops at is the one FindFrom names. */
  lemma FindFromFirst(s: seq<ZItem>, m: string, i: int)
    requires 0 <= i <= |s| && (i < |s| ==> s[i].member == m)
    requires forall k :: 0 <= k < i ==> s[k].member != m
    ensures FindFrom(s, m, 0) == i
  {
  }

  lemma EmptyScores(s: seq<ZItem>)
    requires UniqueMembers(s)
    ensures |s| == 0 <==> Scores(s) == map[]
  {
    if |s| > 0 {
      ScoresOfIndex(s, 0);
    }
  }
}
