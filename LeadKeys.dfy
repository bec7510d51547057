/**
 * Lead keys of the ECG sample store: the dictionary keys "lead_1" … "lead_12"
 * are built with an f-string and read back with `int(key.split('_')[1])`.
 * This module models the decimal rendering of an integer, Python's
 * `str.split` on one separator character (with `str.join` as its inverse),
 * Python's `int()` on decimal text, and proves that parsing a generated key
 * gives back its lead number.
 */
module LeadKeys {

  datatype Option<T> = None | Some(value: T)

  /** Number of leads: `range(1, 13)`. */
  const LeadCount: nat := 12

  predicate IsDigit(c: char) {
    '0' <= c <= '9'
  }

  predicate AllDigits(s: string) {
    forall k :: 0 <= k < |s| ==> IsDigit(s[k])
  }

  function DigitChar(d: nat): (c: char)
    requires d < 10
    ensures IsDigit(c) && c as int - '0' as int == d
  {
    ('0' as int + d) as char
  }

  /** Decimal text of a natural number, as `str(n)` or `f"{n}"` writes it. */
  function Decimal(n: nat): (s: string)
    ensures |s| > 0 && AllDigits(s)
    ensures s[0] == '0' <==> n == 0
    decreases n
  {
    if n < 10 then [DigitChar(n)] else Decimal(n / 10) + [DigitChar(n % 10)]
  }

  /** Value of a string of decimal digits, most significant first. */
  function DigitsValue(s: string): nat
    requires AllDigits(s)
    decreases |s|
  {
    if |s| == 0 then 0
    else DigitsValue(s[..|s| - 1]) * 10 + (s[|s| - 1] as int - '0' as int)
  }

  /**
   * Python's `int()` on text: an optional sign followed by one or more
   * decimal digits; anything else is a ValueError, modelled as None.
   */
  function ParseInt(s: string): (r: Option<int>)
    ensures r.Some? ==> |s| > 0
    ensures |s| > 0 && AllDigits(s) ==> r == Some(DigitsValue(s))
  {
    if |s| > 0 && (s[0] == '-' || s[0] == '+') then
      if |s| > 1 && AllDigits(s[1..]) then
        Some(if s[0] == '-' then 0 - DigitsValue(s[1..]) as int else DigitsValue(s[1..]))
      else None
    else if |s| > 0 && AllDigits(s) then Some(DigitsValue(s))
    else None
  }

  /** Number of occurrences of `c` in `s`. */
  function Occurrences(s: string, c: char): nat
    decreases |s|
  {
    if |s| == 0 then 0 else (if s[0] == c then 1 else 0) + Occurrences(s[1..], c)
  }

  /**
   * Python's `s.split(sep)` for a one-character separator: the pieces between
   * separators, including empty ones, so there is always at least one piece.
   */
  function Split(s: string, sep: char): (parts: seq<string>)
    ensures |parts| == Occurrences(s, sep) + 1
    ensures forall k :: 0 <= k < |parts| ==> sep !in parts[k]
    decreases |s|
  {
    if |s| == 0 then [""]
    else
      var rest := Split(s[1..], sep);
      if s[0] == sep then [""] + rest
      else [[s[0]] + rest[0]] + rest[1..]
  }

  /** Python's `sep.join(parts)`. */
  function Join(parts: seq<string>, sep: char): string
    requires |parts| > 0
    decreases |parts|
  {
    if |parts| == 1 then parts[0] else parts[0] + [sep] + Join(parts[1..], sep)
  }

  lemma JoinExtendHead(h: string, parts: seq<string>, sep: char)
    requires |parts| > 0
    ensures Join([h + parts[0]] + parts[1..], sep) == h + Join(parts, sep)
  {
  }

  /** Joining the pieces of a split with the same separator restores the text. */
  lemma {:induction false} SplitJoin(s: string, sep: char)
    ensures Join(Split(s, sep), sep) == s
    decreases |s|
  {
    if |s| > 0 {
      var rest := Split(s[1..], sep);
      SplitJoin(s[1..], sep);
      if s[0] == sep {
        assert ([""] + rest)[1..] == rest;
      } else {
        JoinExtendHead([s[0]], rest, sep);
      }
      assert s == [s[0]] + s[1..];
    }
  }

  lemma {:induction false} SplitWithoutSeparator(s: string, sep: char)
    requires sep !in s
    ensures Split(s, sep) == [s]
    decreases |s|
  {
    if |s| > 0 {
      assert sep !in s[1..];
      SplitWithoutSeparator(s[1..], sep);
      assert s == [s[0]] + s[1..];
    }
  }

  lemma {:induction false} SplitAfterFirst(a: string, sep: char, t: string)
    requires sep !in a
    ensures Split(a + [sep] + t, sep) == [a] + Split(t, sep)
    decreases |a|
  {
    var s := a + [sep] + t;
    if |a| == 0 {
      assert s[1..] == t;
    } else {
      assert s[1..] == a[1..] + [sep] + t;
      assert sep !in a[1..];
      SplitAfterFirst(a[1..], sep, t);
      assert [a[0]] + a[1..] == a;
    }
  }

  lemma {:induction false} DecimalValue(n: nat)
    ensures DigitsValue(Decimal(n)) == n
    decreases n
  {
    if n >= 10 {
      var s := Decimal(n);
      DecimalValue(n / 10);
      assert s[..|s| - 1] == Decimal(n / 10);
    }
  }

  /** The dictionary key of lead `n`: `f"lead_{n}"`. */
  function LeadKey(n: nat): (key: string)
    ensures Split(key, '_') == ["lead", Decimal(n)]
  {
    var d := Decimal(n);
    assert "lead_" + d == "lead" + ['_'] + d;
    assert '_' !in d by {
      forall k | 0 <= k < |d| ensures d[k] != '_' {
        assert IsDigit(d[k]);
      }
    }
    SplitAfterFirst("lead", '_', d);
    SplitWithoutSeparator(d, '_');
    "lead_" + d
  }

  /**
   * The lead number read back from a key: `int(key.split('_')[1])`. A key
   * with no '_' raises IndexError and a non-numeric piece ValueError in the
   * source; both are None here.
   */
  function ParseLeadNumber(key: string): (r: Option<int>)
    ensures Occurrences(key, '_') == 0 ==> r == None
  {
    var parts := Split(key, '_');
    if |parts| < 2 then None else ParseInt(parts[1])
  }

  /** Parsing a generated key gives back the lead number it was built from. */
  lemma LeadKeyRoundTrip(n: nat)
    ensures ParseLeadNumber(LeadKey(n)) == Some(n)
  {
    DecimalValue(n);
  }

  lemma LeadKeyInjective(m: nat, n: nat)
    ensures LeadKey(m) == LeadKey(n) <==> m == n
  {
    LeadKeyRoundTrip(m);
    LeadKeyRoundTrip(n);
  }

  /** The keys in the order `__init__` inserts them, which is the order `for lead in self.data` visits. */
  function KeyOrder(): seq<string> {
    seq(LeadCount, k requires 0 <= k => LeadKey(k + 1))
  }

  /** The key set of the dictionary built by `__init__`. */
  function KeysUpTo(m: nat): set<string> {
    set n: nat | 1 <= n <= m :: LeadKey(n)
  }

  function KeySet(): set<string> {
    KeysUpTo(LeadCount)
  }

  /** The first m lead keys are pairwise distinct, so there are m of them. */
  lemma {:induction false} KeysUpToCard(m: nat)
    ensures |KeysUpTo(m)| == m
  {
    if m > 0 {
      KeysUpToCard(m - 1);
      assert KeysUpTo(m) == KeysUpTo(m - 1) + {LeadKey(m)};
      if LeadKey(m) in KeysUpTo(m - 1) {
        var n: nat :| 1 <= n <= m - 1 && LeadKey(n) == LeadKey(m);
        LeadKeyInjective(n, m);
      }
    }
  }

  /** The store always has exactly twelve distinct keys. */
  lemma KeySetCard()
    ensures |KeySet()| == LeadCount
  {
    KeysUpToCard(LeadCount);
  }

  /** Every key of the store parses to a lead number in 1..12, and each such number names one key. */
  lemma KeySetExact(key: string)
    ensures key in KeySet() <==> exists n: nat :: 1 <= n <= LeadCount && key == LeadKey(n)
    ensures key in KeySet() ==> ParseLeadNumber(key).Some? && 1 <= ParseLeadNumber(key).value <= LeadCount
  {
    if key in KeySet() {
      var n: nat :| 1 <= n <= LeadCount && key == LeadKey(n);
      LeadKeyRoundTrip(n);
    }
  }

  /**
   * Iterating the dictionary visits every key of the store exactly once:
   * the order has no repeats and covers exactly the key set.
   */
  lemma KeyOrderCoversKeySet()
    ensures forall a, b :: 0 <= a < b < |KeyOrder()| ==> KeyOrder()[a] != KeyOrder()[b]
    ensures (set k | 0 <= k < |KeyOrder()| :: KeyOrder()[k]) == KeySet()
  {
    var order := KeyOrder();
    forall a, b | 0 <= a < b < |order|
      ensures order[a] != order[b]
    {
      LeadKeyInjective(a + 1, b + 1);
    }
    var visited := set k | 0 <= k < |order| :: order[k];
    forall key | key in KeySet()
      ensures key in visited
    {
      var n: nat :| 1 <= n <= LeadCount && key == LeadKey(n);
      assert order[n - 1] == key;
    }
  }
}
