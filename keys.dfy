/** Field and element keys derived from a series and its position:
    `getBarChartDataSeriesNormalizedYKey` and the React key of a mark
    (packages/toolpad-components/src/Chart.tsx, lines 32-34 and 105). */
module Keys {
  import opened ChartTypes

  /** The decimal digit for `d`. */
  function DigitChar(d: nat): char
    requires d < 10
  {
    ('0' as int + d) as char
  }

  /** The numeric value of a decimal digit (0 for any other character). */
  function DigitValue(c: char): nat
  {
    if '0' <= c <= '9' then c as int - '0' as int else 0
  }

  /** How a template literal `${index}` writes a non-negative integer:
      decimal digits, most significant first, no leading zeros. */
  function Decimal(n: nat): (s: string)
    ensures |s| > 0
    ensures forall k :: 0 <= k < |s| ==> '0' <= s[k] <= '9'
    decreases n
  {
    if n < 10 then [DigitChar(n)] else Decimal(n / 10) + [DigitChar(n % 10)]
  }

  /** Reads a string of decimal digits back as a number. */
  function ParseDecimal(s: string): nat
  {
    if s == [] then 0 else ParseDecimal(s[..|s| - 1]) * 10 + DigitValue(s[|s| - 1])
  }

  /** Decimal writing is undone by ParseDecimal, so it is injective. */
  lemma {:induction false} ParseDecimalOfDecimal(n: nat)
    ensures ParseDecimal(Decimal(n)) == n
    decreases n
  {
    if n >= 10 {
      var s := Decimal(n);
      assert s[..|s| - 1] == Decimal(n / 10);
      ParseDecimalOfDecimal(n / 10);
    }
  }

  /** The text after the last `-` of `s` (all of `s` when it has none). */
  function AfterLastDash(s: string): (t: string)
    ensures |t| <= |s| && t == s[|s| - |t|..]
    ensures '-' !in t
  {
    if s == [] then []
    else if s[|s| - 1] == '-' then []
    else AfterLastDash(s[..|s| - 1]) + [s[|s| - 1]]
  }

  /** Joining with a final `-` makes the joined tail the last segment. */
  lemma {:induction false} AfterLastDashOfJoin(p: string, t: string)
    requires '-' !in t
    ensures AfterLastDash(p + "-" + t) == t
    decreases |t|
  {
    var s := p + "-" + t;
    if t != [] {
      var t' := t[..|t| - 1];
      assert s[..|s| - 1] == p + "-" + t';
      assert s[|s| - 1] == t[|t| - 1];
      AfterLastDashOfJoin(p, t');
      assert t == t' + [t[|t| - 1]];
    }
  }

  /** `${dataSeries.label}-${dataSeries.yKey}-${index}`: the field that
      holds a bar series' value in the composed rows. */
  function NormalizedYKey(s: Series, index: nat): string
  {
    s.caption + "-" + s.yKey + "-" + Decimal(index)
  }

  /** `${dataSeries.label}-${index}`: the React key of a series' mark. */
  function MarkKey(s: Series, index: nat): string
  {
    s.caption + "-" + Decimal(index)
  }

  /** The series index can be read back from the normalized key: it is the
      text after the last dash, whatever dashes the label and yKey hold. */
  lemma NormalizedYKeyIndex(s: Series, index: nat)
    ensures ParseDecimal(AfterLastDash(NormalizedYKey(s, index))) == index
  {
    AfterLastDashOfJoin(s.caption + "-" + s.yKey, Decimal(index));
    ParseDecimalOfDecimal(index);
  }

  /** Normalized keys of series at different positions never collide, even
      for series with the same label and yKey; none is the row's `x` field. */
  lemma NormalizedYKeysDiffer(s1: Series, i: nat, s2: Series, j: nat)
    ensures i != j ==> NormalizedYKey(s1, i) != NormalizedYKey(s2, j)
    ensures NormalizedYKey(s1, i) != "x"
  {
    NormalizedYKeyIndex(s1, i);
    NormalizedYKeyIndex(s2, j);
  }

  /** The same holds of the mark keys. */
  lemma MarkKeysDiffer(s1: Series, i: nat, s2: Series, j: nat)
    ensures i != j ==> MarkKey(s1, i) != MarkKey(s2, j)
  {
    AfterLastDashOfJoin(s1.caption, Decimal(i));
    AfterLastDashOfJoin(s2.caption, Decimal(j));
    ParseDecimalOfDecimal(i);
    ParseDecimalOfDecimal(j);
  }
}
