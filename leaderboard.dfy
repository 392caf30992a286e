/**
 * The ordering of `generate_leaderboards` (wiki_app/data/db.py): Python's
 * `list.sort(key=points, reverse=True)`, a stable sort by points, highest
 * first, in which members with equal points keep their original order.
 */
module Leaderboard {

  /** One leaderboard row, as sent to the frontend. */
  datatype Entry = Entry(name: string, isAdmin: bool, points: int)

  /** Points never increase along the board. */
  predicate SortedByPoints(s: seq<Entry>) {
    forall i, j :: 0 <= i < j < |s| ==> s[i].points >= s[j].points
  }

  /** The entries with exactly `k` points, in their order in `s`. */
  function WithPoints(s: seq<Entry>, k: int): (r: seq<Entry>)
    ensures |r| <= |s|
    ensures forall i :: 0 <= i < |r| ==> r[i].points == k
  {
    if s == [] then []
    else (if s[0].points == k then [s[0]] else []) + WithPoints(s[1..], k)
  }

  /** Places `x` before the first entry with no more points than `x`. */
  function Insert(x: Entry, s: seq<Entry>): seq<Entry> {
    if s == [] then [x]
    else if s[0].points <= x.points then [x] + s
    else [s[0]] + Insert(x, s[1..])
  }

  /** Stable insertion sort by points, descending. */
  function SortByPoints(s: seq<Entry>): seq<Entry> {
    if s == [] then [] else Insert(s[0], SortByPoints(s[1..]))
  }

  lemma {:induction false} InsertPermutes(x: Entry, s: seq<Entry>)
    ensures multiset(Insert(x, s)) == multiset(s) + multiset{x}
  {
    if s != [] && s[0].points > x.points {
      InsertPermutes(x, s[1..]);
      assert s == [s[0]] + s[1..];
    }
  }

  /** Inserting an entry under a bound into entries under it stays under it. */
  lemma {:induction false} InsertBounded(x: Entry, s: seq<Entry>, b: int)
    requires x.points <= b && forall i :: 0 <= i < |s| ==> s[i].points <= b
    ensures forall i :: 0 <= i < |Insert(x, s)| ==> Insert(x, s)[i].points <= b
    ensures |Insert(x, s)| == |s| + 1
  {
    if s != [] && s[0].points > x.points {
      InsertBounded(x, s[1..], b);
      var t := Insert(x, s[1..]);
      assert forall i :: 1 <= i < |t| + 1 ==> ([s[0]] + t)[i] == t[i - 1];
    }
  }

  lemma {:induction false} InsertSorted(x: Entry, s: seq<Entry>)
    requires SortedByPoints(s)
    ensures SortedByPoints(Insert(x, s))
    ensures |Insert(x, s)| == |s| + 1
  {
    if s != [] && s[0].points > x.points {
      InsertSorted(x, s[1..]);
      InsertBounded(x, s[1..], s[0].points);
      var t := Insert(x, s[1..]);
      assert forall i :: 1 <= i < |t| + 1 ==> ([s[0]] + t)[i] == t[i - 1];
    }
  }

  lemma {:induction false} InsertKeepsTies(x: Entry, s: seq<Entry>, k: int)
    requires SortedByPoints(s)
    ensures WithPoints(Insert(x, s), k) == WithPoints([x] + s, k)
  {
    if s == [] {
    } else if s[0].points <= x.points {
    } else {
      InsertKeepsTies(x, s[1..], k);
      assert ([s[0]] + Insert(x, s[1..]))[1..] == Insert(x, s[1..]);
      assert ([x] + s)[1..] == s;
      assert ([x] + s[1..])[1..] == s[1..];
      assert (s[0].points == k ==> x.points != k);
    }
  }

  /** The board is ordered by points, highest first. */
  lemma {:induction false} SortIsSorted(s: seq<Entry>)
    ensures SortedByPoints(SortByPoints(s))
    ensures |SortByPoints(s)| == |s|
  {
    if s != [] {
      SortIsSorted(s[1..]);
      InsertSorted(s[0], SortByPoints(s[1..]));
    }
  }

  /** The board holds exactly the input entries. */
  lemma {:induction false} SortPermutes(s: seq<Entry>)
    ensures multiset(SortByPoints(s)) == multiset(s)
  {
    if s != [] {
      SortPermutes(s[1..]);
      InsertPermutes(s[0], SortByPoints(s[1..]));
      assert s == [s[0]] + s[1..];
    }
  }

  /** Stability: entries with equal points keep their input order. */
  lemma {:induction false} SortIsStable(s: seq<Entry>, k: int)
    ensures WithPoints(SortByPoints(s), k) == WithPoints(s, k)
  {
    if s != [] {
      SortIsStable(s[1..], k);
      SortIsSorted(s[1..]);
      InsertKeepsTies(s[0], SortByPoints(s[1..]), k);
      assert ([s[0]] + SortByPoints(s[1..]))[1..] == SortByPoints(s[1..]);
    }
  }

  /** A sorted sequence is determined by its ties: the three lemmas above pin the board down. */
  lemma {:induction false} SortedTiesDetermine(a: seq<Entry>, b: seq<Entry>)
    requires SortedByPoints(a) && SortedByPoints(b)
    requires forall k :: WithPoints(a, k) == WithPoints(b, k)
    ensures a == b
    decreases |a| + |b|
  {
    HeadHasKey(a);
    HeadHasKey(b);
    if a != [] && b != [] {
      // the head of either has the largest key, so both heads share it
      MaxKey(a, b[0].points);
      MaxKey(b, a[0].points);
      var k0 := a[0].points;
      assert WithPoints(a, k0)[0] == a[0] && WithPoints(b, k0)[0] == b[0];
      forall k ensures WithPoints(a[1..], k) == WithPoints(b[1..], k) {
        assert WithPoints(a, k) == (if k == k0 then [a[0]] else []) + WithPoints(a[1..], k);
        assert WithPoints(b, k) == (if k == k0 then [b[0]] else []) + WithPoints(b[1..], k);
        if k == k0 {
          assert ([a[0]] + WithPoints(a[1..], k))[1..] == WithPoints(a[1..], k);
          assert ([b[0]] + WithPoints(b[1..], k))[1..] == WithPoints(b[1..], k);
        } else {
          assert [] + WithPoints(a[1..], k) == WithPoints(a[1..], k);
          assert [] + WithPoints(b[1..], k) == WithPoints(b[1..], k);
        }
      }
      SortedTiesDetermine(a[1..], b[1..]);
      assert a == [a[0]] + a[1..] && b == [b[0]] + b[1..];
    } else if a != [] {
      assert false;
    } else if b != [] {
      assert false;
    }
  }

  lemma HeadHasKey(s: seq<Entry>)
    ensures s != [] ==> WithPoints(s, s[0].points) != [] && WithPoints(s, s[0].points)[0] == s[0]
  {
  }

  /** In a sorted sequence no entry has more points than the head. */
  lemma {:induction false} MaxKey(s: seq<Entry>, k: int)
    requires SortedByPoints(s)
    ensures s != [] && WithPoints(s, k) != [] ==> k <= s[0].points
    decreases |s|
  {
    if |s| > 1 {
      MaxKey(s[1..], k);
    }
  }

  /** The number of rows marked as the host's. */
  function AdminCount(s: seq<Entry>): nat {
    if s == [] then 0 else (if s[0].isAdmin then 1 else 0) + AdminCount(s[1..])
  }

  lemma {:induction false} InsertAdminCount(x: Entry, s: seq<Entry>)
    ensures AdminCount(Insert(x, s)) == AdminCount(s) + (if x.isAdmin then 1 else 0)
  {
    if s != [] && s[0].points > x.points {
      InsertAdminCount(x, s[1..]);
      assert ([s[0]] + Insert(x, s[1..]))[1..] == Insert(x, s[1..]);
    } else if s != [] {
      assert ([x] + s)[1..] == s;
    }
  }

  /** Sorting neither adds nor drops a host mark. */
  lemma {:induction false} SortAdminCount(s: seq<Entry>)
    ensures AdminCount(SortByPoints(s)) == AdminCount(s)
  {
    if s != [] {
      SortAdminCount(s[1..]);
      InsertAdminCount(s[0], SortByPoints(s[1..]));
    }
  }

  /** A sequence in which exactly position `j0` is marked has one mark. */
  lemma {:induction false} OneAdminCount(s: seq<Entry>, j0: nat)
    requires j0 < |s| && s[j0].isAdmin
    requires forall j :: 0 <= j < |s| && j != j0 ==> !s[j].isAdmin
    ensures AdminCount(s) == 1
  {
    if j0 == 0 {
      NoAdminCount(s[1..]);
    } else {
      OneAdminCount(s[1..], j0 - 1);
    }
  }

  lemma {:induction false} NoAdminCount(s: seq<Entry>)
    requires forall j :: 0 <= j < |s| ==> !s[j].isAdmin
    ensures AdminCount(s) == 0
  {
    if s != [] {
      NoAdminCount(s[1..]);
    }
  }
}
