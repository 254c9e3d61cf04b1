/**
 * The order in which the store hands back rows: a scan by primary key
 * returns them in ascending id order, and
 * `order_by(Booking.booking_date, Booking.booking_hour)` sorts them by slot,
 * keeping id order between equal slots.
 */
module TableScan {
  import opened Calendar
  import opened Models

  predicate StrictlyIncreasing(s: seq<int>) {
    forall i, j :: 0 <= i < j < |s| ==> s[i] < s[j]
  }

  /** `m` is the least element of `s`. */
  predicate IsLeast(m: int, s: set<int>) {
    m in s && forall x :: x in s ==> m <= x
  }

  lemma NonEmptyHasElement(s: set<int>)
    requires s != {}
    ensures exists y :: y in s
  {
    if forall e :: e !in s {
      assert false;
    }
  }

  /** A finite non-empty set of integers has a least element. */
  lemma {:induction false} LeastExists(s: set<int>)
    requires s != {}
    ensures exists m :: IsLeast(m, s)
    decreases |s|
  {
    NonEmptyHasElement(s);
    var y :| y in s;
    var rest := s - {y};
    if rest == {} {
      forall x | x in s ensures y <= x {
        assert x in rest || x == y;
      }
      assert IsLeast(y, s);
    } else {
      LeastExists(rest);
      var m :| IsLeast(m, rest);
      var least := if y < m then y else m;
      forall x | x in s ensures least <= x {
        assert x in rest || x == y;
      }
      assert IsLeast(least, s);
    }
  }

  lemma LeastIsUnique(s: set<int>)
    ensures forall a, b :: IsLeast(a, s) && IsLeast(b, s) ==> a == b
  {
  }

  /** The keys of `s` in ascending order. */
  function AscendingKeys(s: set<int>): (r: seq<int>)
    ensures |r| == |s|
    ensures forall k :: k in r <==> k in s
    ensures forall i :: 0 <= i < |r| ==> r[i] in s
    ensures StrictlyIncreasing(r)
    decreases |s|
  {
    if s == {} then []
    else
      LeastExists(s);
      LeastIsUnique(s);
      var m :| IsLeast(m, s);
      var rest := AscendingKeys(s - {m});
      LeastThenIncreasing(m, s, rest);
      [m] + rest
  }

  /** The least key followed by the others in ascending order is ascending and holds exactly the keys. */
  lemma LeastThenIncreasing(m: int, s: set<int>, rest: seq<int>)
    requires IsLeast(m, s)
    requires StrictlyIncreasing(rest)
    requires forall k :: k in rest <==> k in s - {m}
    ensures StrictlyIncreasing([m] + rest)
    ensures forall k :: k in [m] + rest <==> k in s
  {
    forall i | 0 <= i < |rest| ensures m < rest[i] {
      assert rest[i] in rest;
    }
  }

  /** The row `.first()` returns from a filter without ORDER BY: the lowest matching id. */
  function Least(s: set<int>): (m: int)
    requires s != {}
    ensures IsLeast(m, s)
  {
    LeastExists(s);
    LeastIsUnique(s);
    var m :| IsLeast(m, s);
    m
  }

  /**
   * The id SQLite gives a new row of an `INTEGER PRIMARY KEY` table: one
   * more than the largest id in the table, or 1 in an empty table.
   */
  function NextKey(s: set<int>): (r: int)
    ensures forall k :: k in s ==> k < r
    ensures r !in s
    ensures (forall k :: k in s ==> k >= 0) ==> r >= 1
  {
    var ks := AscendingKeys(s);
    if ks == [] then 1
    else
      assert forall k :: k in s ==> k <= ks[|ks| - 1] by {
        forall k | k in s ensures k <= ks[|ks| - 1] {
          assert k in ks;
          var i :| 0 <= i < |ks| && ks[i] == k;
        }
      }
      assert ks[0] in s;
      ks[|ks| - 1] + 1
  }

  /** Two lists with the same elements are empty together. */
  lemma EmptyTogether(a: seq<int>, b: seq<int>)
    requires forall k :: k in a <==> k in b
    ensures a == [] <==> b == []
  {
    if a != [] {
      var x := a[0];
      assert x in a;
      assert x in b;
    }
    if b != [] {
      var y := b[0];
      assert y in b;
      assert y in a;
    }
  }

  /** Two non-empty ascending lists with the same elements share their head, and their tails have the same elements. */
  lemma SameHeadSameTail(a: seq<int>, b: seq<int>)
    requires StrictlyIncreasing(a) && StrictlyIncreasing(b)
    requires a != [] && b != []
    requires forall k :: k in a <==> k in b
    ensures a[0] == b[0]
    ensures forall k :: k in a[1..] <==> k in b[1..]
  {
    assert a[0] in a && b[0] in b;
    var i :| 0 <= i < |b| && b[i] == a[0];
    var j :| 0 <= j < |a| && a[j] == b[0];
    assert a[0] <= a[j];
    assert b[0] <= b[i];
    forall k ensures k in a[1..] <==> k in b[1..] {
      if k in a[1..] {
        var p :| 1 <= p < |a| && a[p] == k;
        assert k in a;
        var q :| 0 <= q < |b| && b[q] == k;
        assert q != 0;
      }
      if k in b[1..] {
        var q :| 1 <= q < |b| && b[q] == k;
        assert k in b;
        var p :| 0 <= p < |a| && a[p] == k;
        assert p != 0;
      }
    }
  }

  /** A strictly increasing sequence is determined by its elements. */
  lemma {:induction false} IncreasingIsDeterminedByElements(a: seq<int>, b: seq<int>)
    requires StrictlyIncreasing(a) && StrictlyIncreasing(b)
    requires forall k :: k in a <==> k in b
    ensures a == b
    decreases |a|
  {
    EmptyTogether(a, b);
    if a != [] {
      SameHeadSameTail(a, b);
      IncreasingIsDeterminedByElements(a[1..], b[1..]);
      assert a == [a[0]] + a[1..] && b == [b[0]] + b[1..];
    }
  }

  /** The rows stored under the keys `ks`, in that order. */
  function Rows(m: map<int, Booking>, ks: seq<int>): (r: seq<Booking>)
    requires forall i :: 0 <= i < |ks| ==> ks[i] in m
    ensures |r| == |ks|
    ensures forall i :: 0 <= i < |ks| ==> r[i] == m[ks[i]]
  {
    if ks == [] then [] else [m[ks[0]]] + Rows(m, ks[1..])
  }

  /** The rows under keys `ks` are exactly the rows stored under some key of `ks`. */
  lemma RowsMembership(m: map<int, Booking>, ks: seq<int>)
    requires forall i :: 0 <= i < |ks| ==> ks[i] in m
    ensures forall b :: b in Rows(m, ks) <==> exists k :: k in ks && k in m && m[k] == b
  {
    var rows := Rows(m, ks);
    forall b ensures b in rows <==> exists k :: k in ks && k in m && m[k] == b {
      if b in rows {
        var i :| 0 <= i < |rows| && rows[i] == b;
        assert ks[i] in ks;
      }
      if exists k :: k in ks && k in m && m[k] == b {
        var k :| k in ks && k in m && m[k] == b;
        var i :| 0 <= i < |ks| && ks[i] == k;
        assert rows[i] == b;
      }
    }
  }

  /** Sorting keeps the elements and their number. */
  lemma SortKeepsElements(s: seq<Booking>)
    ensures |SortBySlot(s)| == |s|
    ensures forall b :: b in SortBySlot(s) <==> b in s
  {
    var r := SortBySlot(s);
    assert |r| == |multiset(r)| == |multiset(s)| == |s|;
    forall b ensures b in r <==> b in s {
      assert b in r <==> b in multiset(r);
      assert b in s <==> b in multiset(s);
    }
  }

  /** Ascending (date, hour) order. */
  predicate SlotLe(a: Booking, b: Booking) {
    Before(a.bookingDate, b.bookingDate) || (a.bookingDate == b.bookingDate && a.bookingHour <= b.bookingHour)
  }

  lemma SlotLeIsTotalPreorder(a: Booking, b: Booking, c: Booking)
    ensures SlotLe(a, a)
    ensures SlotLe(a, b) || SlotLe(b, a)
    ensures SlotLe(a, b) && SlotLe(b, c) ==> SlotLe(a, c)
  {
    BeforeIsStrictTotalOrder(a.bookingDate, b.bookingDate, c.bookingDate);
  }

  predicate SortedBySlot(s: seq<Booking>) {
    forall i, j :: 0 <= i < j < |s| ==> SlotLe(s[i], s[j])
  }

  /** Puts `x` before the first element of `s` that is not before it. */
  function InsertBySlot(x: Booking, s: seq<Booking>): (r: seq<Booking>)
    requires SortedBySlot(s)
    ensures SortedBySlot(r)
    ensures multiset(r) == multiset(s) + multiset{x}
  {
    if s == [] then [x]
    else if SlotLe(x, s[0]) then
      InsertAtHead(x, s);
      [x] + s
    else
      var rest := InsertBySlot(x, s[1..]);
      InsertAfterHead(x, s, rest);
      [s[0]] + rest
  }

  /** An element no later than the head of a sorted list may go in front of it. */
  lemma InsertAtHead(x: Booking, s: seq<Booking>)
    requires SortedBySlot(s) && s != [] && SlotLe(x, s[0])
    ensures SortedBySlot([x] + s)
  {
    forall j | 0 < j < |s| ensures SlotLe(x, s[j]) {
      SlotLeIsTotalPreorder(x, s[0], s[j]);
    }
  }

  /** An element later than the head goes into the tail, and the head stays in front. */
  lemma InsertAfterHead(x: Booking, s: seq<Booking>, rest: seq<Booking>)
    requires SortedBySlot(s) && s != [] && !SlotLe(x, s[0])
    requires SortedBySlot(rest) && multiset(rest) == multiset(s[1..]) + multiset{x}
    ensures SortedBySlot([s[0]] + rest)
    ensures multiset([s[0]] + rest) == multiset(s) + multiset{x}
  {
    SlotLeIsTotalPreorder(x, s[0], x);
    forall i | 0 <= i < |rest| ensures SlotLe(s[0], rest[i]) {
      var y := rest[i];
      assert y in multiset(rest);
      if y != x {
        assert y in multiset(s[1..]);
        var j :| 0 <= j < |s[1..]| && s[1..][j] == y;
        assert s[j + 1] == y;
      }
    }
    assert s == [s[0]] + s[1..];
  }

  /** Insertion sort by slot: `order_by(booking_date, booking_hour)`. */
  function SortBySlot(s: seq<Booking>): (r: seq<Booking>)
    ensures SortedBySlot(r)
    ensures multiset(r) == multiset(s)
  {
    if s == [] then []
    else
      assert s == [s[0]] + s[1..];
      InsertBySlot(s[0], SortBySlot(s[1..]))
  }
}
