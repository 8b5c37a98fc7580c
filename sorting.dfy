/** Order on calendar-day strings and the stable sort the pipeline applies to
    its dated series.

    The source sorts with the comparator `new Date(a) - new Date(b)`. For
    calendar days written in the one fixed form `YYYY-MM-DD` that comparator
    orders exactly as the lexicographic order on the text, so dates are
    compared here as strings. Mixed forms (a day against a date-time,
    fractional seconds, time-zone offsets) do not order lexicographically
    and are outside this model. Array.prototype.sort is stable, so the
    sorted series is uniquely determined: Insert/SortByDay below is an
    insertion sort that keeps entries of the same day in input order. */
module Sorting {
  import opened Records

  /** Lexicographic order on date strings: a is not later than b. */
  predicate DateLe(a: string, b: string) {
    |a| == 0 || (|b| > 0 && (a[0] < b[0] || (a[0] == b[0] && DateLe(a[1..], b[1..]))))
  }

  lemma {:induction false} DateLeReflexive(a: string)
    ensures DateLe(a, a)
  {
    if |a| > 0 {
      DateLeReflexive(a[1..]);
    }
  }

  lemma {:induction false} DateLeTotal(a: string, b: string)
    ensures DateLe(a, b) || DateLe(b, a)
  {
    if |a| > 0 && |b| > 0 && a[0] == b[0] {
      DateLeTotal(a[1..], b[1..]);
    }
  }

  lemma {:induction false} DateLeTransitive(a: string, b: string, c: string)
    requires DateLe(a, b) && DateLe(b, c)
    ensures DateLe(a, c)
  {
    if |a| > 0 && a[0] == b[0] && b[0] == c[0] {
      DateLeTransitive(a[1..], b[1..], c[1..]);
    }
  }

  lemma {:induction false} DateLeAntisymmetric(a: string, b: string)
    requires DateLe(a, b) && DateLe(b, a)
    ensures a == b
  {
    if |a| > 0 {
      DateLeAntisymmetric(a[1..], b[1..]);
      assert a == [a[0]] + a[1..] && b == [b[0]] + b[1..];
    }
  }

  /** Dates that agree up to some point compare as their remainders do. */
  lemma {:induction false} DateLeCommonPrefix(p: string, a: string, b: string)
    ensures DateLe(p + a, p + b) == DateLe(a, b)
  {
    if |p| > 0 {
      assert (p + a)[0] == p[0] == (p + b)[0];
      assert (p + a)[1..] == p[1..] + a && (p + b)[1..] == p[1..] + b;
      DateLeCommonPrefix(p[1..], a, b);
    } else {
      assert p + a == a && p + b == b;
    }
  }

  /** A sanity check of the order on two concrete days: two days of the
      same month compare by their day of the month. */
  lemma DateLeExample()
    ensures DateLe("2024-01-01", "2024-01-03") && !DateLe("2024-01-03", "2024-01-01")
  {
    assert "2024-01-03" == "2024-01-0" + "3" && "2024-01-01" == "2024-01-0" + "1";
    DateLeCommonPrefix("2024-01-0", "3", "1");
    DateLeCommonPrefix("2024-01-0", "1", "3");
  }

  /** s is in non-decreasing order of day. */
  ghost predicate SortedByDay(s: seq<Dated>) {
    forall i, j :: 0 <= i < j < |s| ==> DateLe(s[i].Day(), s[j].Day())
  }

  /** x put in front of the first entry of s whose day is not earlier than
      its own. */
  function Insert(x: Dated, s: seq<Dated>): (r: seq<Dated>)
    ensures |r| == |s| + 1
  {
    if |s| == 0 then [x]
    else if DateLe(x.Day(), s[0].Day()) then [x] + s
    else [s[0]] + Insert(x, s[1..])
  }

  /** The stable sort of s by day, earliest first. */
  function SortByDay(s: seq<Dated>): (r: seq<Dated>)
    ensures |r| == |s|
  {
    if |s| == 0 then [] else Insert(s[0], SortByDay(s[1..]))
  }

  /** Inserting adds exactly the one entry. */
  lemma {:induction false} InsertPermutes(x: Dated, s: seq<Dated>)
    ensures multiset(Insert(x, s)) == multiset(s) + multiset{x}
  {
    if |s| > 0 {
      assert s == [s[0]] + s[1..];
      if !DateLe(x.Day(), s[0].Day()) {
        InsertPermutes(x, s[1..]);
      }
    }
  }

  /** The sort is a permutation: every entry occurs in the result as often
      as in the input. */
  lemma {:induction false} SortByDayPermutes(s: seq<Dated>)
    ensures multiset(SortByDay(s)) == multiset(s)
  {
    if |s| > 0 {
      assert s == [s[0]] + s[1..];
      SortByDayPermutes(s[1..]);
      InsertPermutes(s[0], SortByDay(s[1..]));
    }
  }

  lemma {:induction false} InsertSorted(x: Dated, s: seq<Dated>)
    requires SortedByDay(s)
    ensures SortedByDay(Insert(x, s))
  {
    if |s| > 0 {
      if DateLe(x.Day(), s[0].Day()) {
        forall j | 0 < j < |s| ensures DateLe(x.Day(), s[j].Day()) {
          DateLeTransitive(x.Day(), s[0].Day(), s[j].Day());
        }
      } else {
        DateLeTotal(x.Day(), s[0].Day());
        InsertSorted(x, s[1..]);
        InsertPermutes(x, s[1..]);
        var t := Insert(x, s[1..]);
        forall j | 0 <= j < |t| ensures DateLe(s[0].Day(), t[j].Day()) {
          assert t[j] in multiset(s[1..]) + multiset{x};
          if t[j] != x {
            var m :| 0 <= m < |s[1..]| && s[1..][m] == t[j];
            assert s[1 + m] == t[j];
          }
        }
      }
    }
  }

  /** The sort's result is ordered. */
  lemma {:induction false} SortByDaySorted(s: seq<Dated>)
    ensures SortedByDay(SortByDay(s))
  {
    if |s| > 0 {
      SortByDaySorted(s[1..]);
      InsertSorted(s[0], SortByDay(s[1..]));
    }
  }

  /** Sorting a series that is already in order leaves it as it is. */
  lemma {:induction false} SortByDayOfSorted(s: seq<Dated>)
    requires SortedByDay(s)
    ensures SortByDay(s) == s
  {
    if |s| > 0 {
      SortByDayOfSorted(s[1..]);
      assert SortByDay(s[1..]) == s[1..];
      if |s| > 1 {
        assert DateLe(s[0].Day(), s[1..][0].Day());
      }
      assert s == [s[0]] + s[1..];
    }
  }

  /** Sorting twice gives the same series as sorting once. */
  lemma SortByDayIdempotent(s: seq<Dated>)
    ensures SortByDay(SortByDay(s)) == SortByDay(s)
  {
    SortByDaySorted(s);
    SortByDayOfSorted(SortByDay(s));
  }

  /** The entries of s dated day, in the order of s. */
  function OnDay(s: seq<Dated>, day: string): (r: seq<Dated>)
    ensures |r| <= |s|
  {
    if |s| == 0 then []
    else if s[0].Day() == day then [s[0]] + OnDay(s[1..], day)
    else OnDay(s[1..], day)
  }

  lemma {:induction false} OnDayInsert(x: Dated, s: seq<Dated>, day: string)
    requires SortedByDay(s)
    ensures OnDay(Insert(x, s), day)
         == if x.Day() == day then [x] + OnDay(s, day) else OnDay(s, day)
  {
    if |s| > 0 {
      if DateLe(x.Day(), s[0].Day()) {
        assert ([x] + s)[1..] == s;
      } else {
        DateLeTotal(x.Day(), s[0].Day());
        if s[0].Day() == day && x.Day() == day {
          DateLeReflexive(day);
        }
        OnDayInsert(x, s[1..], day);
        assert ([s[0]] + Insert(x, s[1..]))[1..] == Insert(x, s[1..]);
      }
    }
  }

  /** Stability: among entries of the same day the sort keeps input order. */
  lemma {:induction false} SortByDayStable(s: seq<Dated>, day: string)
    ensures OnDay(SortByDay(s), day) == OnDay(s, day)
  {
    if |s| > 0 {
      SortByDayStable(s[1..], day);
      SortByDaySorted(s[1..]);
      OnDayInsert(s[0], SortByDay(s[1..]), day);
    }
  }

  /** `points.map(item => item.price)`: the price column of a series. */
  function Prices(s: seq<Dated>): (r: seq<real>)
    ensures |r| == |s|
  {
    if |s| == 0 then [] else [s[0].Price()] + Prices(s[1..])
  }

  lemma PricesCons(x: Dated, s: seq<Dated>)
    ensures Prices([x] + s) == [x.Price()] + Prices(s)
  {
    assert ([x] + s)[1..] == s;
  }

  /** Inserting an entry adds its price to the price column. */
  lemma {:induction false} PricesInsert(x: Dated, s: seq<Dated>)
    ensures multiset(Prices(Insert(x, s))) == multiset(Prices(s)) + multiset{x.Price()}
  {
    if |s| > 0 {
      if DateLe(x.Day(), s[0].Day()) {
        assert Insert(x, s) == [x] + s;
        PricesCons(x, s);
      } else {
        PricesInsert(x, s[1..]);
        PricesInsertAfterHead(x, s);
      }
    }
  }

  lemma PricesInsertAfterHead(x: Dated, s: seq<Dated>)
    requires |s| > 0 && !DateLe(x.Day(), s[0].Day())
    requires multiset(Prices(Insert(x, s[1..]))) == multiset(Prices(s[1..])) + multiset{x.Price()}
    ensures multiset(Prices(Insert(x, s))) == multiset(Prices(s)) + multiset{x.Price()}
  {
    var t, a := Insert(x, s[1..]), [s[0].Price()];
    assert Insert(x, s) == [s[0]] + t;
    PricesCons(s[0], t);
    assert Prices(s) == a + Prices(s[1..]);
  }

  /** Sorting permutes the price column the way it permutes the series. */
  lemma {:induction false} PricesSortPermutation(s: seq<Dated>)
    ensures multiset(Prices(SortByDay(s))) == multiset(Prices(s))
  {
    if |s| > 0 {
      PricesSortPermutation(s[1..]);
      PricesInsert(s[0], SortByDay(s[1..]));
      PricesCons(s[0], s[1..]);
      assert s == [s[0]] + s[1..];
    }
  }
}
