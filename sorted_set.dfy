/**
 * The sorted sets of pkg/cache/memory.go: a slice of (score, member) items kept
 * ordered by score, with each member at most once.  Scores are whole numbers here.
 */
module SortedSet {
  import opened Wrappers

  datatype ZItem = ZItem(score: int, member: string)

  predicate Sorted(s: seq<ZItem>) {
    forall i, j :: 0 <= i < j < |s| ==> s[i].score <= s[j].score
  }

  predicate UniqueMembers(s: seq<ZItem>) {
    forall i, j :: 0 <= i < j < |s| ==> s[i].member != s[j].member
  }

  /** What the memory cache keeps for every key of its sorted-set map. */
  predicate ValidSet(s: seq<ZItem>) {
    |s| > 0 && Sorted(s) && UniqueMembers(s)
  }

  /** The members in slice order, as ZRange hands them out. */
  function Members(s: seq<ZItem>): (r: seq<string>)
    ensures |r| == |s|
    ensures forall i :: 0 <= i < |s| ==> r[i] == s[i].member
  {
    seq(|s|, i requires 0 <= i < |s| => s[i].member)
  }

  /** The abstract content of a set: each member with its score. */
  function Scores(s: seq<ZItem>): map<string, int>
    requires UniqueMembers(s)
  {
    map i | 0 <= i < |s| :: s[i].member := s[i].score
  }

  lemma ScoresOfIndex(s: seq<ZItem>, i: int)
    requires UniqueMembers(s) && 0 <= i < |s|
    ensures s[i].member in Scores(s) && Scores(s)[s[i].member] == s[i].score
  {
  }

  lemma ScoresHasIndex(s: seq<ZItem>, m: string) returns (i: int)
    requires UniqueMembers(s) && m in Scores(s)
    ensures 0 <= i < |s| && s[i].member == m && Scores(s)[m] == s[i].score
  {
    i :| 0 <= i < |s| && s[i].member == m;
  }

  /** The first index, from `from` on, whose member is m, or |s| when there is none. */
  function FindFrom(s: seq<ZItem>, m: string, from: nat): (i: nat)
    requires from <= |s|
    ensures from <= i <= |s|
    ensures i < |s| ==> s[i].member == m
    ensures forall k :: from <= k < i ==> s[k].member != m
    decreases |s| - from
  {
    if from == |s| || s[from].member == m then from else FindFrom(s, m, from + 1)
  }

  /** The first index at which an item scores strictly more than `score`. */
  function InsertPosition(s: seq<ZItem>, score: int, from: nat): (p: nat)
    requires from <= |s|
    ensures from <= p <= |s|
    ensures forall k :: from <= k < p ==> s[k].score <= score
    ensures p < |s| ==> s[p].score > score
    decreases |s| - from
  {
    if from == |s| || s[from].score > score then from else InsertPosition(s, score, from + 1)
  }

  /** Put x after every item that does not score more than it. */
  function Insert(s: seq<ZItem>, x: ZItem): seq<ZItem> {
    var p := InsertPosition(s, x.score, 0);
    s[..p] + [x] + s[p..]
  }

  function RemoveAt(s: seq<ZItem>, i: nat): seq<ZItem>
    requires i < |s|
  {
    s[..i] + s[i + 1..]
  }

  lemma InsertKeepsOrder(s: seq<ZItem>, x: ZItem)
    requires Sorted(s)
    ensures Sorted(Insert(s, x))
  {
    var p := InsertPosition(s, x.score, 0);
    var r := Insert(s, x);
    forall i, j | 0 <= i < j < |r| ensures r[i].score <= r[j].score {
      if j < p {
      } else if j == p {
      } else if i == p {
        assert r[j] == s[j - 1];
      } else if i < p {
        assert r[j] == s[j - 1];
      } else {
        assert r[i] == s[i - 1] && r[j] == s[j - 1];
      }
    }
  }

  lemma InsertIndex(s: seq<ZItem>, x: ZItem, j: int)
    requires 0 <= j <= |s|
    ensures |Insert(s, x)| == |s| + 1
    ensures Insert(s, x)[j] == (var p := InsertPosition(s, x.score, 0); if j < p then s[j] else if j == p then x else s[j - 1])
  {
  }

  lemma InsertUnique(s: seq<ZItem>, x: ZItem)
    requires UniqueMembers(s)
    requires forall k :: 0 <= k < |s| ==> s[k].member != x.member
    ensures UniqueMembers(Insert(s, x))
  {
    var r := Insert(s, x);
    forall i, j | 0 <= i < j < |r| ensures r[i].member != r[j].member {
      InsertIndex(s, x, i);
      InsertIndex(s, x, j);
    }
  }

  lemma MapEq(a: map<string, int>, b: map<string, int>)
    requires forall m | m in a :: m in b && b[m] == a[m]
    requires forall m | m in b :: m in a
    ensures a == b
  {
  }

  lemma InsertContents(s: seq<ZItem>, x: ZItem)
    requires UniqueMembers(s)
    requires forall k :: 0 <= k < |s| ==> s[k].member != x.member
    ensures UniqueMembers(Insert(s, x))
    ensures Scores(Insert(s, x)) == Scores(s)[x.member := x.score]
  {
    InsertUnique(s, x);
    var p := InsertPosition(s, x.score, 0);
    var r := Insert(s, x);
    var have := Scores(r);
    var want := Scores(s)[x.member := x.score];
    forall m | m in have ensures m in want && want[m] == have[m] {
      var j := ScoresHasIndex(r, m);
      InsertIndex(s, x, j);
      if j < p {
        ScoresOfIndex(s, j);
      } else if j > p {
        ScoresOfIndex(s, j - 1);
      }
    }
    forall m | m in want ensures m in have {
      if m == x.member {
        InsertIndex(s, x, p);
        ScoresOfIndex(r, p);
      } else {
        var k := ScoresHasIndex(s, m);
        if k < p {
          InsertIndex(s, x, k);
          ScoresOfIndex(r, k);
        } else {
          InsertIndex(s, x, k + 1);
          ScoresOfIndex(r, k + 1);
        }
      }
    }
    MapEq(have, want);
  }

  lemma RemoveAtKeepsOrder(s: seq<ZItem>, i: nat)
    requires i < |s| && Sorted(s)
    ensures Sorted(RemoveAt(s, i))
  {
    var r := RemoveAt(s, i);
    forall a, b | 0 <= a < b < |r| ensures r[a].score <= r[b].score {
      assert r[a] == (if a < i then s[a] else s[a + 1]);
      assert r[b] == (if b < i then s[b] else s[b + 1]);
    }
  }

  lemma RemoveAtIndex(s: seq<ZItem>, i: nat, a: int)
    requires i < |s| && 0 <= a < |s| - 1
    ensures |RemoveAt(s, i)| == |s| - 1
    ensures RemoveAt(s, i)[a] == (if a < i then s[a] else s[a + 1])
  {
  }

  lemma RemoveAtUnique(s: seq<ZItem>, i: nat)
    requires i < |s| && UniqueMembers(s)
    ensures UniqueMembers(RemoveAt(s, i))
  {
    var r := RemoveAt(s, i);
    forall a, b | 0 <= a < b < |r| ensures r[a].member != r[b].member {
      RemoveAtIndex(s, i, a);
      RemoveAtIndex(s, i, b);
    }
  }

  lemma RemoveAtContents(s: seq<ZItem>, i: nat)
    requires i < |s| && UniqueMembers(s)
    ensures UniqueMembers(RemoveAt(s, i))
    ensures Scores(RemoveAt(s, i)) == Scores(s) - {s[i].member}
  {
    RemoveAtUnique(s, i);
    var r := RemoveAt(s, i);
    var have := Scores(r);
    var want := Scores(s) - {s[i].member};
    forall m | m in have ensures m in want && want[m] == have[m] {
      var a := ScoresHasIndex(r, m);
      RemoveAtIndex(s, i, a);
      if a < i {
        ScoresOfIndex(s, a);
      } else {
        ScoresOfIndex(s, a + 1);
      }
    }
    forall m | m in want ensures m in have {
      var k := ScoresHasIndex(s, m);
      if k < i {
        RemoveAtIndex(s, i, k);
        ScoresOfIndex(r, k);
      } else if k > i {
        RemoveAtIndex(s, i, k - 1);
        ScoresOfIndex(r, k - 1);
      }
    }
    MapEq(have, want);
  }

  /**
   * ZAdd's effect on the set stored under a key (None: no set yet): the member is
   * taken out if present and put back with its new score at its place in score order.
   * Go's sort.Slice is not stable, so among equal scores any order is possible there;
   * this function picks one of them.
   */
  function Add(s: seq<ZItem>, score: int, member: string): seq<ZItem> {
    Insert(Remove(s, member), ZItem(score, member))
  }

  /**
   * ZRem's effect: the first item with the member is cut out, and the set is left
   * as it is when the member is not there.
   */
  function Remove(s: seq<ZItem>, member: string): seq<ZItem> {
    var i := FindFrom(s, member, 0);
    if i < |s| then RemoveAt(s, i) else s
  }

  lemma RemoveSpec(s: seq<ZItem>, member: string)
    requires Sorted(s) && UniqueMembers(s)
    ensures Sorted(Remove(s, member)) && UniqueMembers(Remove(s, member))
    ensures Scores(Remove(s, member)) == Scores(s) - {member}
    ensures forall k :: 0 <= k < |Remove(s, member)| ==> Remove(s, member)[k].member != member
  {
    var i := FindFrom(s, member, 0);
    var r := Remove(s, member);
    if i < |s| {
      RemoveAtKeepsOrder(s, i);
      RemoveAtContents(s, i);
      forall k | 0 <= k < |r| ensures r[k].member != member {
        RemoveAtIndex(s, i, k);
      }
    } else {
      forall m | m in Scores(s) ensures m != member {
        var k := ScoresHasIndex(s, m);
      }
    }
  }

  lemma AddSpec(s: seq<ZItem>, score: int, member: string)
    requires Sorted(s) && UniqueMembers(s)
    ensures ValidSet(Add(s, score, member))
    ensures Scores(Add(s, score, member)) == Scores(s)[member := score]
  {
    var rest := Remove(s, member);
    RemoveSpec(s, member);
    InsertKeepsOrder(rest, ZItem(score, member));
    InsertContents(rest, ZItem(score, member));
    UpdateAfterRemove(Scores(s), member, score);
  }

  lemma UpdateAfterRemove(m: map<string, int>, k: string, v: int)
    ensures (m - {k})[k := v] == m[k := v]
  {
  }

  /** A Redis-style index: a negative one counts from the end. */
  function FromEnd(size: int, i: int): int {
    if i < 0 then size + i else i
  }

  /**
   * ZRange's index arithmetic: the inclusive window (lo, hi) of a set of `size`
   * items, or None when the range selects nothing.
   */
  function Window(size: int, start: int, stop: int): (w: Option<(int, int)>)
    requires size > 0
    ensures w.Some? <==> var lo, hi := FromEnd(size, start), FromEnd(size, stop); lo <= hi && lo < size && 0 <= hi
    ensures w.Some? ==> 0 <= w.value.0 <= w.value.1 < size
    ensures w.Some? ==> w.value.0 == (if FromEnd(size, start) < 0 then 0 else FromEnd(size, start))
    ensures w.Some? ==> w.value.1 == (if FromEnd(size, stop) >= size then size - 1 else FromEnd(size, stop))
  {
    var start1 := if start < 0 then size + start else start;
    var stop1 := if stop < 0 then size + stop else stop;
    var start2 := if start1 < 0 then 0 else start1;
    var stop2 := if stop1 >= size then size - 1 else stop1;
    if start2 > stop2 || start2 >= size || stop2 < 0 then None else Some((start2, stop2))
  }

  /** (0, -1) selects the whole set, in order. */
  lemma WholeWindow(size: int)
    requires size > 0
    ensures Window(size, 0, -1) == Some((0, size - 1))
  {
  }

  /** (-n, -1) selects the last n items, or all of them when there are fewer. */
  lemma TailWindow(size: int, n: int)
    requires size > 0 && n > 0
    ensures Window(size, -n, -1) == Some((if n >= size then 0 else size - n, size - 1))
  {
  }
}
