// Keyset pagination over a set of rows in a strict total order: a page is the
// first `limit` rows after the cursor, as ORDER BY ... LIMIT returns them.
module Paging {
  import opened Common

  ghost predicate StrictOrder<T(!new)>(less: (T, T) -> bool) {
    && (forall x :: !less(x, x))
    && (forall x, y, z :: less(x, y) && less(y, z) ==> less(x, z))
    && (forall x, y :: x == y || less(x, y) || less(y, x))
  }

  predicate Ascending<T>(s: seq<T>, less: (T, T) -> bool) {
    forall i, j :: 0 <= i < j < |s| ==> less(s[i], s[j])
  }

  // `s` is the ordered listing of exactly the rows.
  ghost predicate Lists<T(!new)>(s: seq<T>, rows: set<T>, less: (T, T) -> bool) {
    Ascending(s, less) && forall x :: x in s <==> x in rows
  }

  lemma {:induction false} LeastExists<T(!new)>(rows: set<T>, less: (T, T) -> bool)
    requires StrictOrder(less) && rows != {}
    ensures exists m :: m in rows && forall x | x in rows :: x == m || less(m, x)
    decreases |rows|
  {
    var a :| a in rows;
    var rest := rows - {a};
    if rest == {} {
      assert rows == {a};
    } else {
      LeastExists(rest, less);
      var m :| m in rest && forall x | x in rest :: x == m || less(m, x);
      var least := if less(m, a) then m else a;
      assert forall x | x in rows :: x == a || x in rest;
      assert forall x | x in rows :: x == least || less(least, x);
    }
  }

  function Sorted<T(!new, ==)>(rows: set<T>, less: (T, T) -> bool): (s: seq<T>)
    requires StrictOrder(less)
    ensures Lists(s, rows, less)
    decreases |rows|
  {
    if rows == {} then []
    else
      LeastExists(rows, less);
      var m :| m in rows && forall x | x in rows :: x == m || less(m, x);
      var rest := Sorted(rows - {m}, less);
      SortedCons(m, rest, rows, less);
      [m] + rest
  }

  lemma SortedCons<T(!new)>(m: T, rest: seq<T>, rows: set<T>, less: (T, T) -> bool)
    requires m in rows && (forall x | x in rows :: x == m || less(m, x)) && Lists(rest, rows - {m}, less)
    ensures Lists([m] + rest, rows, less)
  {
    var s := [m] + rest;
    forall i, j | 0 <= i < j < |s| ensures less(s[i], s[j]) {
      assert s[j] == rest[j - 1] && rest[j - 1] in rest;
    }
    forall x ensures x in s <==> x in rows {
      assert x in s <==> x == m || x in rest;
    }
  }

  lemma {:induction false} ListingIsUnique<T(!new)>(s: seq<T>, t: seq<T>, rows: set<T>, less: (T, T) -> bool)
    requires StrictOrder(less) && Lists(s, rows, less) && Lists(t, rows, less)
    ensures s == t
    decreases |s|
  {
    assert s != [] ==> s[0] in rows;
    assert t != [] ==> t[0] in rows;
    if s != [] && t != [] {
      assert s[0] in t && t[0] in s;
      assert s[0] == t[0];
      TailLists(s, rows, less);
      TailLists(t, rows, less);
      ListingIsUnique(s[1..], t[1..], rows - {s[0]}, less);
      assert s == [s[0]] + s[1..] && t == [t[0]] + t[1..];
    }
  }

  lemma TailLists<T(!new)>(s: seq<T>, rows: set<T>, less: (T, T) -> bool)
    requires StrictOrder(less) && Lists(s, rows, less) && s != []
    ensures Lists(s[1..], rows - {s[0]}, less)
  {
    forall x ensures x in s[1..] <==> x in rows - {s[0]} {
      assert x in s <==> x == s[0] || x in s[1..];
    }
  }

  function After<T(!new, ==)>(rows: set<T>, cursor: Option<T>, less: (T, T) -> bool): set<T> {
    set x | x in rows && (cursor.Some? ==> less(cursor.value, x))
  }

  function Page<T(!new, ==)>(rows: set<T>, cursor: Option<T>, limit: nat, less: (T, T) -> bool): (page: seq<T>)
    requires StrictOrder(less)
    ensures |page| <= limit && Ascending(page, less) && forall x | x in page :: x in After(rows, cursor, less)
    ensures |page| < limit ==> Lists(page, After(rows, cursor, less), less)
    ensures forall x, p | x in After(rows, cursor, less) && x !in page && p in page :: less(p, x)
  {
    var all := Sorted(After(rows, cursor, less), less);
    if |all| <= limit then all else all[..limit]
  }

  // Everything after the k-th row of the listing is the rest of the listing.
  lemma AfterIsSuffix<T(!new)>(rows: set<T>, less: (T, T) -> bool, k: nat)
    requires StrictOrder(less) && 0 < k <= |Sorted(rows, less)|
    ensures var s := Sorted(rows, less); Sorted(After(rows, Some(s[k - 1]), less), less) == s[k..]
  {
    var s := Sorted(rows, less);
    var rest := After(rows, Some(s[k - 1]), less);
    forall x ensures x in s[k..] <==> x in rest {
      if x in s[k..] {
        var j :| k <= j < |s| && s[j] == x;
      }
      if x in rest {
        var j :| 0 <= j < |s| && s[j] == x;
        assert j >= k;
        assert s[k..][j - k] == x;
      }
    }
    ListingIsUnique(Sorted(rest, less), s[k..], rest, less);
  }

  // Following the cursor from page to page until a short page.
  function Pages<T(!new, ==)>(rows: set<T>, cursor: Option<T>, limit: nat, less: (T, T) -> bool): (all: seq<T>)
    requires StrictOrder(less) && limit > 0
    decreases |After(rows, cursor, less)|
  {
    var page := Page(rows, cursor, limit, less);
    if |page| < limit then page
    else
      var last := page[|page| - 1];
      AfterShrinks(rows, cursor, last, less);
      page + Pages(rows, Some(last), limit, less)
  }

  lemma AfterShrinks<T(!new)>(rows: set<T>, cursor: Option<T>, next: T, less: (T, T) -> bool)
    requires StrictOrder(less) && next in After(rows, cursor, less)
    ensures After(rows, Some(next), less) < After(rows, cursor, less)
    ensures |After(rows, Some(next), less)| < |After(rows, cursor, less)|
  {
    assert After(rows, Some(next), less) <= After(rows, cursor, less);
    SmallerSet(After(rows, Some(next), less), After(rows, cursor, less));
  }

  lemma {:induction false} SmallerSet<T>(a: set<T>, b: set<T>)
    requires a < b
    ensures |a| < |b|
    decreases |b|
  {
    if a != {} {
      var x :| x in a;
      var y :| y in b && y !in a;
      assert y in b - {x} && y !in a - {x};
      SmallerSet(a - {x}, b - {x});
    }
  }

  lemma AfterNarrows<T(!new)>(rows: set<T>, cursor: Option<T>, next: T, less: (T, T) -> bool)
    requires StrictOrder(less) && next in After(rows, cursor, less)
    ensures After(rows, Some(next), less) == After(After(rows, cursor, less), Some(next), less)
  {
  }

  lemma FullPageIsPrefix<T(!new)>(rows: set<T>, cursor: Option<T>, limit: nat, less: (T, T) -> bool)
    requires StrictOrder(less) && |Page(rows, cursor, limit, less)| == limit
    ensures var all := Sorted(After(rows, cursor, less), less);
            limit <= |all| && Page(rows, cursor, limit, less) == all[..limit]
  {
  }

  lemma SplitListing<T(!new)>(rest: set<T>, limit: nat, less: (T, T) -> bool)
    requires StrictOrder(less) && 0 < limit <= |Sorted(rest, less)|
    ensures var all := Sorted(rest, less);
            all[limit - 1] in rest && all == all[..limit] + Sorted(After(rest, Some(all[limit - 1]), less), less)
  {
    AfterIsSuffix(rest, less, limit);
    assert Sorted(rest, less)[limit - 1] in Sorted(rest, less);
  }

  // The first rows after a cursor, followed by the rows after the last of them.
  lemma PrefixThenRest<T(!new)>(rows: set<T>, cursor: Option<T>, limit: nat, less: (T, T) -> bool)
    requires StrictOrder(less) && 0 < limit <= |Sorted(After(rows, cursor, less), less)|
    ensures var all := Sorted(After(rows, cursor, less), less);
            && all[limit - 1] in After(rows, cursor, less)
            && all == all[..limit] + Sorted(After(rows, Some(all[limit - 1]), less), less)
  {
    SplitListing(After(rows, cursor, less), limit, less);
    AfterNarrows(rows, cursor, Sorted(After(rows, cursor, less), less)[limit - 1], less);
  }

  lemma FullPageThenRest<T(!new)>(rows: set<T>, cursor: Option<T>, limit: nat, less: (T, T) -> bool)
    requires StrictOrder(less) && limit > 0 && |Page(rows, cursor, limit, less)| == limit
    ensures var page := Page(rows, cursor, limit, less);
            Sorted(After(rows, cursor, less), less) == page + Sorted(After(rows, Some(page[limit - 1]), less), less)
  {
    FullPageIsPrefix(rows, cursor, limit, less);
    PrefixThenRest(rows, cursor, limit, less);
  }

  // Paging visits every row once, in order.
  lemma {:induction false} PagesListAll<T(!new)>(rows: set<T>, cursor: Option<T>, limit: nat, less: (T, T) -> bool)
    requires StrictOrder(less) && limit > 0
    ensures Pages(rows, cursor, limit, less) == Sorted(After(rows, cursor, less), less)
    decreases |After(rows, cursor, less)|
  {
    var page := Page(rows, cursor, limit, less);
    if |page| == limit {
      var last := page[limit - 1];
      assert last in page;
      AfterShrinks(rows, cursor, last, less);
      PagesListAll(rows, Some(last), limit, less);
      FullPageThenRest(rows, cursor, limit, less);
    } else {
      ListingIsUnique(page, Sorted(After(rows, cursor, less), less), After(rows, cursor, less), less);
    }
  }
}
