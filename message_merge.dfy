/**
 * Backward pagination: a page of older messages arrives newest first, is
 * reversed to oldest first, loses every message whose id the list already
 * holds, and what is left goes in front of the list. Both chat views use this
 * same updater.
 */
module MessageMerge {
  import opened ChatTypes

  /** `s.slice().reverse()` */
  function Reverse(s: seq<Message>): (r: seq<Message>)
    ensures |r| == |s|
    ensures forall k :: 0 <= k < |s| ==> r[k] == s[|s| - 1 - k]
  {
    if s == [] then [] else Reverse(s[1..]) + [s[0]]
  }

  /** `s.filter((m) => !ids.has(m.id))` */
  function FilterOutIds(s: seq<Message>, ids: set<int>): (r: seq<Message>)
    ensures |r| <= |s|
    ensures forall m :: m in r ==> m in s && m.id !in ids
    ensures forall m :: m in s && m.id !in ids ==> m in r
  {
    if s == [] then []
    else (if s[0].id in ids then [] else [s[0]]) + FilterOutIds(s[1..], ids)
  }

  /** The list after a page of older messages has been merged in front of it. */
  function PrependOlder(prev: seq<Message>, page: seq<Message>): (r: seq<Message>)
    ensures |prev| <= |r| && r[|r| - |prev|..] == prev
    ensures forall m :: m in r[..|r| - |prev|] ==> m in page && m.id !in Ids(prev)
    ensures forall m :: m in page && m.id !in Ids(prev) ==> m in r[..|r| - |prev|]
  {
    var olderAsc := Reverse(page);
    var filtered := FilterOutIds(olderAsc, Ids(prev));
    assert forall m :: m in page <==> m in olderAsc by {
      forall m | m in page ensures m in olderAsc {
        var k :| 0 <= k < |page| && page[k] == m;
        assert olderAsc[|page| - 1 - k] == m;
      }
    }
    var r := if |filtered| > 0 then filtered + prev else prev;
    assert r[..|r| - |prev|] == filtered;
    r
  }

  /** The merge is the reversed page without known ids, followed by the old
      list; the shortcut for an empty filter result gives the same list. */
  lemma PrependedPart(prev: seq<Message>, page: seq<Message>)
    ensures PrependOlder(prev, page) == FilterOutIds(Reverse(page), Ids(prev)) + prev
  {
  }

  /** Filtering a one-entry sequence keeps the entry exactly when its id is
      not excluded. */
  lemma FilterOutIdsSingle(m: Message, ids: set<int>)
    ensures FilterOutIds([m], ids) == if m.id in ids then [] else [m]
  {
    assert [m][1..] == [];
  }

  /** Filtering distributes over concatenation. With `FilterOutIdsSingle` this
      pins the result down entry by entry: kept entries stay in their order
      and keep their multiplicity, as `Array.prototype.filter` does. */
  lemma {:induction false} FilterOutIdsConcat(a: seq<Message>, b: seq<Message>, ids: set<int>)
    ensures FilterOutIds(a + b, ids) == FilterOutIds(a, ids) + FilterOutIds(b, ids)
  {
    if a != [] {
      assert (a + b)[0] == a[0];
      assert (a + b)[1..] == a[1..] + b;
      FilterOutIdsConcat(a[1..], b, ids);
    } else {
      assert a + b == b;
    }
  }

  /** Reversing a concatenation reverses and swaps its parts. */
  lemma ReverseConcat(a: seq<Message>, b: seq<Message>)
    ensures Reverse(a + b) == Reverse(b) + Reverse(a)
  {
    var l, r := Reverse(a + b), Reverse(b) + Reverse(a);
    forall k | 0 <= k < |l| ensures l[k] == r[k] {
      assert l[k] == (a + b)[|a| + |b| - 1 - k];
    }
  }

  /** Filtering commutes with reversal. */
  lemma {:induction false} FilterOutIdsReverse(s: seq<Message>, ids: set<int>)
    ensures FilterOutIds(Reverse(s), ids) == Reverse(FilterOutIds(s, ids))
  {
    if s != [] {
      var head := [s[0]];
      assert s == head + s[1..];
      assert Reverse(s) == Reverse(s[1..]) + head;
      FilterOutIdsConcat(Reverse(s[1..]), head, ids);
      FilterOutIdsReverse(s[1..], ids);
      FilterOutIdsConcat(head, s[1..], ids);
      FilterOutIdsSingle(s[0], ids);
      ReverseConcat(FilterOutIds(head, ids), FilterOutIds(s[1..], ids));
      assert Reverse(FilterOutIds(head, ids)) == FilterOutIds(head, ids);
    }
  }

  /** What a merge puts in front of the list is the page's messages with new
      ids, in the reverse of the page's order (oldest first for a page served
      newest first), each as often as the page holds it. */
  lemma PrependOlderFront(prev: seq<Message>, page: seq<Message>)
    ensures PrependOlder(prev, page) == Reverse(FilterOutIds(page, Ids(prev))) + prev
  {
    FilterOutIdsReverse(page, Ids(prev));
  }

  /** A one-message page is put in front exactly when its id is new. */
  lemma PrependOlderSingle(prev: seq<Message>, m: Message)
    ensures PrependOlder(prev, [m]) == if m.id in Ids(prev) then prev else [m] + prev
  {
    PrependOlderFront(prev, [m]);
    FilterOutIdsSingle(m, Ids(prev));
  }

  /** Filtering out every id a sequence holds leaves nothing. */
  lemma {:induction false} FilterOfExcludedIsEmpty(s: seq<Message>, ids: set<int>)
    requires forall m :: m in s ==> m.id in ids
    ensures FilterOutIds(s, ids) == []
  {
    if s != [] {
      assert s[0] in s;
      FilterOfExcludedIsEmpty(s[1..], ids);
    }
  }

  /** A filtered sequence keeps the relative order of what it keeps. */
  lemma {:induction false} FilterKeepsAscending(s: seq<Message>, ids: set<int>)
    requires AscendingByTime(s)
    ensures AscendingByTime(FilterOutIds(s, ids))
  {
    if s != [] {
      FilterKeepsAscending(s[1..], ids);
      var rest := FilterOutIds(s[1..], ids);
      forall m | m in rest ensures s[0].createdAt <= m.createdAt {
        var k :| 0 <= k < |s[1..]| && s[1..][k] == m;
        assert s[k + 1] == m;
      }
    }
  }

  /** No id occurs twice in a filtered sequence of distinct ids, and none of
      the excluded ids occurs at all. */
  lemma {:induction false} FilterKeepsUniqueIds(s: seq<Message>, ids: set<int>)
    requires UniqueIds(s)
    ensures UniqueIds(FilterOutIds(s, ids))
    ensures Ids(FilterOutIds(s, ids)) !! ids
  {
    if s != [] {
      FilterKeepsUniqueIds(s[1..], ids);
      var rest := FilterOutIds(s[1..], ids);
      forall m | m in rest ensures m.id != s[0].id {
        var k :| 0 <= k < |s[1..]| && s[1..][k] == m;
        assert s[k + 1] == m;
      }
    }
  }

  /** Merging a page keeps the list free of duplicate ids, provided the page
      itself holds each id at most once: ids already in the list are never
      added again. */
  lemma PrependKeepsUniqueIds(prev: seq<Message>, page: seq<Message>)
    requires UniqueIds(prev) && UniqueIds(page)
    ensures UniqueIds(PrependOlder(prev, page))
  {
    var olderAsc := Reverse(page);
    assert UniqueIds(olderAsc) by {
      forall i, j | 0 <= i < j < |olderAsc| ensures olderAsc[i].id != olderAsc[j].id {
        assert olderAsc[i] == page[|page| - 1 - i];
        assert olderAsc[j] == page[|page| - 1 - j];
      }
    }
    var filtered := FilterOutIds(olderAsc, Ids(prev));
    FilterKeepsUniqueIds(olderAsc, Ids(prev));
    PrependedPart(prev, page);
    var r := filtered + prev;
    forall i, j | 0 <= i < j < |r| ensures r[i].id != r[j].id {
      if j >= |filtered| && i < |filtered| {
        assert r[i] in filtered;
        assert r[j] in prev;
        assert r[j].id in Ids(prev);
        assert r[i].id in Ids(filtered);
      }
    }
  }

  /** A page served newest first, whose messages with new ids are no newer
      than the oldest one in an ascending list, leaves the list ascending once
      merged. The page may overlap the list: messages it shares with the list
      (by id) are dropped, whatever their times. */
  lemma PrependKeepsAscending(prev: seq<Message>, page: seq<Message>)
    requires AscendingByTime(prev) && DescendingByTime(page)
    requires forall m, n :: m in page && m.id !in Ids(prev) && n in prev ==> m.createdAt <= n.createdAt
    ensures AscendingByTime(PrependOlder(prev, page))
  {
    var olderAsc := Reverse(page);
    assert AscendingByTime(olderAsc) by {
      forall i, j | 0 <= i < j < |olderAsc| ensures olderAsc[i].createdAt <= olderAsc[j].createdAt {
        assert olderAsc[i] == page[|page| - 1 - i];
        assert olderAsc[j] == page[|page| - 1 - j];
      }
    }
    var filtered := FilterOutIds(olderAsc, Ids(prev));
    FilterKeepsAscending(olderAsc, Ids(prev));
    PrependedPart(prev, page);
    var r := filtered + prev;
    forall i, j | 0 <= i < j < |r| ensures r[i].createdAt <= r[j].createdAt {
      if j >= |filtered| && i < |filtered| {
        assert r[i] in filtered;
        assert r[j] in prev;
      }
    }
  }

  /** Merging the same page a second time adds nothing: every message of the
      page is by then present by id. */
  lemma PrependIdempotent(prev: seq<Message>, page: seq<Message>)
    ensures PrependOlder(PrependOlder(prev, page), page) == PrependOlder(prev, page)
  {
    var once := PrependOlder(prev, page);
    var olderAsc := Reverse(page);
    forall m | m in olderAsc ensures m.id in Ids(once) {
      var k :| 0 <= k < |olderAsc| && olderAsc[k] == m;
      assert m == page[|page| - 1 - k];
      if m.id in Ids(prev) {
        var n :| n in prev && n.id == m.id;
        assert n in once[|once| - |prev|..];
      } else {
        assert m in once[..|once| - |prev|];
      }
    }
    FilterOfExcludedIsEmpty(olderAsc, Ids(once));
    PrependedPart(once, page);
    assert [] + once == once;
  }
}
