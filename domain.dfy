/** The x-domain unifier: the `xValues` computation of the chart component
    (packages/toolpad-components/src/Chart.tsx, lines 42-52). */
module Domain {
  import opened ChartTypes

  /** No value occurs twice. */
  ghost predicate NoDup(s: seq<Val>)
  {
    forall i, j :: 0 <= i < j < |s| ==> s[i] != s[j]
  }

  ghost predicate AllNumbers(s: seq<Val>)
  {
    forall i :: 0 <= i < |s| ==> s[i].Num?
  }

  ghost predicate NoNumbers(s: seq<Val>)
  {
    forall i :: 0 <= i < |s| ==> !s[i].Num?
  }

  /** A sequence of numbers in strictly ascending order. */
  ghost predicate StrictlyAscending(s: seq<Val>)
  {
    AllNumbers(s) && forall i, j :: 0 <= i < j < |s| ==> s[i].n < s[j].n
  }

  /** A sequence of numbers in non-decreasing order. */
  ghost predicate Ascending(s: seq<Val>)
  {
    AllNumbers(s) && forall i, j :: 0 <= i < j < |s| ==> s[i].n <= s[j].n
  }

  // ---------------------------------------------------------------------
  // Collecting: every record's x-value, series by series

  /** The x-values of one series' records, in record order. */
  function SeriesXValues(s: Series): seq<Val>
  {
    seq(|Points(s)|, j requires 0 <= j < |Points(s)| => XOf(s, Points(s)[j]))
  }

  /** `allXValues`: the x-values of every record of every series, series by
      series and record by record. */
  function AllXValues(chart: ChartData): seq<Val>
  {
    if chart == [] then [] else SeriesXValues(chart[0]) + AllXValues(chart[1..])
  }

  /** Some record `j` of some series `i` has x-value `v`. */
  ghost predicate CollectedFrom(chart: ChartData, v: Val)
  {
    exists i, j :: 0 <= i < |chart| && 0 <= j < |Points(chart[i])| && XOf(chart[i], Points(chart[i])[j]) == v
  }

  /** The collected values are exactly the x-values of the records; a series
      without `data` contributes none. */
  lemma {:induction false} AllXValuesFrom(chart: ChartData, v: Val)
    ensures v in AllXValues(chart) <==> CollectedFrom(chart, v)
    decreases |chart|
  {
    if chart != [] {
      var head, rest := SeriesXValues(chart[0]), chart[1..];
      AllXValuesFrom(rest, v);
      if v in head {
        var j :| 0 <= j < |head| && head[j] == v;
        assert XOf(chart[0], Points(chart[0])[j]) == v;
      } else if v in AllXValues(rest) {
        var i, j :| 0 <= i < |rest| && 0 <= j < |Points(rest[i])| && XOf(rest[i], Points(rest[i])[j]) == v;
        assert XOf(chart[i + 1], Points(chart[i + 1])[j]) == v;
      }
      if CollectedFrom(chart, v) {
        var i, j :| 0 <= i < |chart| && 0 <= j < |Points(chart[i])| && XOf(chart[i], Points(chart[i])[j]) == v;
        if i == 0 {
          assert head[j] == v;
        } else {
          assert rest[i - 1] == chart[i];
        }
      }
    }
  }

  // ---------------------------------------------------------------------
  // Deduplicating: keep each value at the index where it first occurs

  /** `s.indexOf(v)`: the first position holding `v` (strict equality), or -1. */
  function IndexOf(s: seq<Val>, v: Val): (k: int)
    ensures -1 <= k < |s|
    ensures k >= 0 ==> s[k] == v && v !in s[..k]
    ensures k == -1 <==> v !in s
  {
    if s == [] then -1
    else if s[0] == v then 0
    else
      var k := IndexOf(s[1..], v);
      if k == -1 then -1
      else
        assert s[..k + 1] == [s[0]] + s[1..][..k];
        k + 1
  }

  /** The filter applied to the first `n` values of `all`: the value at
      position i is kept when `all.indexOf(all[i]) === i`. The result holds
      each value of `all[..n]` once, in the order of first occurrence. */
  function KeepFirst(all: seq<Val>, n: nat): (d: seq<Val>)
    requires n <= |all|
    ensures NoDup(d)
    ensures forall v :: v in d <==> v in all[..n]
    ensures forall a, b :: 0 <= a < b < |d| ==> IndexOf(all, d[a]) < IndexOf(all, d[b])
    ensures forall a :: 0 <= a < |d| ==> IndexOf(all, d[a]) < n
  {
    if n == 0 then []
    else
      var d := KeepFirst(all, n - 1);
      assert all[..n] == all[..n - 1] + [all[n - 1]];
      if IndexOf(all, all[n - 1]) == n - 1 then
        assert all[..n - 1] == all[..IndexOf(all, all[n - 1])];
        d + [all[n - 1]]
      else
        assert all[n - 1] in all[..n - 1] by {
          var k := IndexOf(all, all[n - 1]);
          assert all[k] == all[n - 1] && k < n - 1;
          assert all[..n - 1][k] == all[k];
        }
        d
  }

  /** The deduplicated list of `all`. */
  function Dedup(all: seq<Val>): seq<Val>
  {
    KeepFirst(all, |all|)
  }

  // ---------------------------------------------------------------------
  // Ordering: numbers by difference, every other pair a tie

  /** The comparator the source hands to `sort`: numbers against numbers by
      difference, every other pair a tie. */
  function Compare(a: Val, b: Val): int
  {
    if a.Num? && b.Num? then a.n - b.n else 0
  }

  /** Stable insertion: `x` goes before the first element it compares below. */
  function Insert(x: Val, s: seq<Val>): seq<Val>
  {
    if s == [] then [x]
    else if Compare(x, s[0]) < 0 then [x] + s
    else [s[0]] + Insert(x, s[1..])
  }

  /** A stable sort by Compare of values that are not `undefined`. */
  function CmpSort(s: seq<Val>): seq<Val>
  {
    if s == [] then [] else Insert(s[|s| - 1], CmpSort(s[..|s| - 1]))
  }

  /** The values of `s` that are not `undefined`, in order. */
  function Defined(s: seq<Val>): (r: seq<Val>)
    ensures Undef !in r
  {
    if s == [] then [] else (if s[0] == Undef then [] else [s[0]]) + Defined(s[1..])
  }

  /** The `undefined` values of `s`. */
  function Undefineds(s: seq<Val>): (r: seq<Val>)
    ensures forall i :: 0 <= i < |r| ==> r[i] == Undef
  {
    if s == [] then [] else (if s[0] == Undef then [Undef] else []) + Undefineds(s[1..])
  }

  /** Insertion adds `x` and keeps everything else. */
  lemma {:induction false} InsertPermutes(x: Val, s: seq<Val>)
    ensures multiset(Insert(x, s)) == multiset(s) + multiset{x}
  {
    if s != [] && Compare(x, s[0]) >= 0 {
      var t := s[1..];
      InsertPermutes(x, t);
      assert s == [s[0]] + t;
      assert Insert(x, s) == [s[0]] + Insert(x, t);
    }
  }

  /** The comparator sort is a permutation. */
  lemma {:induction false} CmpSortPermutes(s: seq<Val>)
    ensures multiset(CmpSort(s)) == multiset(s)
  {
    if s != [] {
      var p, x := s[..|s| - 1], s[|s| - 1];
      CmpSortPermutes(p);
      InsertPermutes(x, CmpSort(p));
      assert s == p + [x];
      assert CmpSort(s) == Insert(x, CmpSort(p));
    }
  }

  /** There are as many `undefined` values as `s` holds. */
  lemma {:induction false} UndefinedsCount(s: seq<Val>)
    ensures |Undefineds(s)| == multiset(s)[Undef]
  {
    if s != [] {
      var t := s[1..];
      UndefinedsCount(t);
      assert s == [s[0]] + t;
      assert multiset(s) == multiset{s[0]} + multiset(t);
      assert Undefineds(s) == (if s[0] == Undef then [Undef] else []) + Undefineds(t);
    }
  }

  /** Splitting off the `undefined` values loses and adds nothing. */
  lemma {:induction false} DefinedUndefinedsSplit(s: seq<Val>)
    ensures multiset(Defined(s)) + multiset(Undefineds(s)) == multiset(s)
  {
    if s != [] {
      var t := s[1..];
      DefinedUndefinedsSplit(t);
      assert s == [s[0]] + t;
      assert multiset(s) == multiset{s[0]} + multiset(t);
      if s[0] == Undef {
        assert Defined(s) == Defined(t);
        assert Undefineds(s) == [Undef] + Undefineds(t);
        assert multiset(Undefineds(s)) == multiset{Undef} + multiset(Undefineds(t));
      } else {
        assert Defined(s) == [s[0]] + Defined(t);
        assert multiset(Defined(s)) == multiset{s[0]} + multiset(Defined(t));
        assert Undefineds(s) == Undefineds(t);
      }
    }
  }

  /** `Array.prototype.sort` with the source's comparator. ECMAScript's
      sort never shows `undefined` to the comparator: every `undefined`
      element moves to the end, and the rest are sorted stably. */
  function JsSort(s: seq<Val>): seq<Val>
  {
    CmpSort(Defined(s)) + Undefineds(s)
  }

  /** `xValues`: the canonical x-domain of a chart. */
  function XDomain(chart: ChartData): seq<Val>
  {
    JsSort(Dedup(AllXValues(chart)))
  }

  // ---------------------------------------------------------------------
  // Facts about the sort

  lemma JsSortPermutes(s: seq<Val>)
    ensures multiset(JsSort(s)) == multiset(s)
  {
    DefinedUndefinedsSplit(s);
    CmpSortPermutes(Defined(s));
  }

  /** No value occurs twice exactly when every multiplicity is at most one. */
  lemma {:induction false} NoDupMultiplicity(s: seq<Val>)
    ensures NoDup(s) <==> forall v :: multiset(s)[v] <= 1
  {
    if NoDup(s) {
      forall v ensures multiset(s)[v] <= 1 {
        NoDupCount(s, v);
      }
    }
    if !NoDup(s) {
      var i, j :| 0 <= i < j < |s| && s[i] == s[j];
      assert s == s[..j] + [s[j]] + s[j + 1..];
      assert s[..j][i] == s[i];
      assert multiset(s)[s[j]] >= multiset(s[..j])[s[j]] + 1;
    }
  }

  lemma {:induction false} NoDupCount(s: seq<Val>, v: Val)
    requires NoDup(s)
    ensures multiset(s)[v] <= 1
  {
    if s != [] {
      assert s == [s[0]] + s[1..];
      assert NoDup(s[1..]) by {
        forall i, j | 0 <= i < j < |s[1..]| ensures s[1..][i] != s[1..][j] {
          assert s[1..][i] == s[i + 1] && s[1..][j] == s[j + 1];
        }
      }
      NoDupCount(s[1..], v);
      if s[0] == v {
        assert v !in s[1..] by {
          forall k | 0 <= k < |s[1..]| ensures s[1..][k] != v {
            assert s[1..][k] == s[k + 1];
          }
        }
      }
    }
  }

  /** A permutation of a duplicate-free list is duplicate-free. */
  lemma PermutationKeepsNoDup(a: seq<Val>, b: seq<Val>)
    requires multiset(a) == multiset(b) && NoDup(a)
    ensures NoDup(b)
  {
    NoDupMultiplicity(a);
    NoDupMultiplicity(b);
  }

  /** Inserting a number into an ascending list of numbers keeps it ascending. */
  lemma {:induction false} InsertAscending(x: Val, s: seq<Val>)
    requires x.Num? && Ascending(s)
    ensures Ascending(Insert(x, s))
  {
    if s != [] && Compare(x, s[0]) >= 0 {
      var t := s[1..];
      assert Ascending(t) by {
        forall i | 0 <= i < |t| ensures t[i] == s[i + 1] { }
      }
      InsertAscending(x, t);
      var r := Insert(x, t);
      InsertPermutes(x, t);
      assert Insert(x, s) == [s[0]] + r;
      forall k | 0 <= k < |r| ensures s[0].n <= r[k].n {
        assert r[k] in multiset(r);
        if r[k] != x {
          assert r[k] in t;
          var m :| 0 <= m < |t| && t[m] == r[k];
          assert s[m + 1] == r[k];
        }
      }
    }
  }

  /** Sorting numbers puts them in ascending order. */
  lemma {:induction false} CmpSortAscending(s: seq<Val>)
    requires AllNumbers(s)
    ensures Ascending(CmpSort(s))
  {
    if s != [] {
      var p := s[..|s| - 1];
      assert AllNumbers(p) by {
        forall i | 0 <= i < |p| ensures p[i] == s[i] { }
      }
      CmpSortAscending(p);
      InsertAscending(s[|s| - 1], CmpSort(p));
    }
  }

  /** A non-number only ever ties under Compare, so it is inserted last. */
  lemma {:induction false} InsertNonNumber(x: Val, s: seq<Val>)
    requires !x.Num?
    ensures Insert(x, s) == s + [x]
  {
    if s != [] {
      var t := s[1..];
      InsertNonNumber(x, t);
      assert Compare(x, s[0]) == 0;
      assert Insert(x, s) == [s[0]] + (t + [x]);
      assert s == [s[0]] + t;
    }
  }

  /** With no numbers the comparator always ties, and the stable sort keeps
      the order it was given. */
  lemma {:induction false} CmpSortNoNumbers(s: seq<Val>)
    requires NoNumbers(s)
    ensures CmpSort(s) == s
  {
    if s != [] {
      var p := s[..|s| - 1];
      assert NoNumbers(p) by {
        forall i | 0 <= i < |p| ensures p[i] == s[i] { }
      }
      CmpSortNoNumbers(p);
      InsertNonNumber(s[|s| - 1], p);
      assert CmpSort(s) == Insert(s[|s| - 1], CmpSort(p));
      assert s == p + [s[|s| - 1]];
    }
  }

  lemma {:induction false} DefinedOfDefined(s: seq<Val>)
    requires Undef !in s
    ensures Defined(s) == s && Undefineds(s) == []
  {
    if s != [] {
      var t := s[1..];
      assert s == [s[0]] + t;
      assert s[0] != Undef && Undef !in t;
      DefinedOfDefined(t);
      assert Defined(s) == [s[0]] + Defined(t);
      assert Undefineds(s) == Undefineds(t);
    }
  }

  lemma {:induction false} DefinedNoNumbers(s: seq<Val>)
    requires NoNumbers(s)
    ensures NoNumbers(Defined(s))
  {
    if s != [] {
      assert NoNumbers(s[1..]) by {
        forall i | 0 <= i < |s[1..]| ensures s[1..][i] == s[i + 1] { }
      }
      DefinedNoNumbers(s[1..]);
    }
  }

  /** In a duplicate-free list, the `undefined` values are at most one. */
  lemma UndefinedsOfNoDup(s: seq<Val>)
    requires NoDup(s)
    ensures Undefineds(s) == if Undef in s then [Undef] else []
  {
    NoDupMultiplicity(s);
    UndefinedsCount(s);
    var u := Undefineds(s);
    assert Undef in s <==> multiset(s)[Undef] > 0;
    if |u| == 1 {
      assert u == [u[0]];
    }
  }

  // ---------------------------------------------------------------------
  // Facts about the domain

  /** The domain holds no value twice. */
  lemma XDomainNoDup(chart: ChartData)
    ensures NoDup(XDomain(chart))
  {
    var d := Dedup(AllXValues(chart));
    JsSortPermutes(d);
    PermutationKeepsNoDup(d, XDomain(chart));
  }

  /** The domain is a rearrangement of the deduplicated values. */
  lemma XDomainPermutation(chart: ChartData)
    ensures multiset(XDomain(chart)) == multiset(Dedup(AllXValues(chart)))
  {
    JsSortPermutes(Dedup(AllXValues(chart)));
  }

  /** Its elements are exactly the x-values of the records of the series. */
  lemma XDomainElements(chart: ChartData, v: Val)
    ensures v in XDomain(chart) <==> CollectedFrom(chart, v)
  {
    var all := AllXValues(chart);
    XDomainPermutation(chart);
    assert all[..|all|] == all;
    assert v in XDomain(chart) <==> v in multiset(Dedup(all));
    AllXValuesFrom(chart, v);
  }

  /** When every collected x-value is a number, the domain is ascending. */
  lemma XDomainAscending(chart: ChartData)
    requires AllNumbers(AllXValues(chart))
    ensures StrictlyAscending(XDomain(chart))
  {
    var all := AllXValues(chart);
    var d := Dedup(all);
    assert all[..|all|] == all;
    assert AllNumbers(d) by {
      forall i | 0 <= i < |d| ensures d[i].Num? {
        assert d[i] in all;
      }
    }
    DefinedOfDefined(d);
    CmpSortAscending(d);
    XDomainNoDup(chart);
  }

  /** When no collected x-value is a number, the comparator ties every pair
      and the domain is the first-occurrence order of the distinct values,
      except that `undefined`, if some record lacks its x field, comes last. */
  lemma XDomainFirstSeen(chart: ChartData)
    requires NoNumbers(AllXValues(chart))
    ensures XDomain(chart) == Defined(Dedup(AllXValues(chart)))
                              + (if Undef in AllXValues(chart) then [Undef] else [])
  {
    var all := AllXValues(chart);
    var d := Dedup(all);
    assert all[..|all|] == all;
    assert NoNumbers(d) by {
      forall i | 0 <= i < |d| ensures !d[i].Num? {
        assert d[i] in all;
      }
    }
    DefinedNoNumbers(d);
    CmpSortNoNumbers(Defined(d));
    UndefinedsOfNoDup(d);
  }

  /** In particular, string x-values that every record has keep the order in
      which they first occur, and are not sorted alphabetically. */
  lemma XDomainFirstSeenStrings(chart: ChartData)
    requires NoNumbers(AllXValues(chart)) && Undef !in AllXValues(chart)
    ensures XDomain(chart) == Dedup(AllXValues(chart))
  {
    var all := AllXValues(chart);
    assert all[..|all|] == all;
    XDomainFirstSeen(chart);
    DefinedOfDefined(Dedup(all));
  }
}
