/** The few PHP string functions the scraper relies on, written out:
    truthiness, `explode`/`implode`, `str_replace`, `basename` and the
    decimal rendering of an integer. */
module Strings {
  import opened Base

  /** PHP truthiness of a string: only "" and "0" are falsy. */
  predicate Truthy(s: string) {
    s != "" && s != "0"
  }

  /** PHP truthiness of a nullable string: null is falsy too. */
  predicate TruthyOpt(s: Option<string>) {
    s.Some? && Truthy(s.value)
  }

  /** PHP's coercion of a nullable string to a string: null becomes "". */
  function OrEmpty(s: Option<string>): string {
    s.GetOr("")
  }

  // ---------------------------------------------------------------------
  // Decimal rendering, as PHP's string conversion of an int.

  function DigitChar(d: nat): char
    requires d < 10
  {
    "0123456789"[d]
  }

  predicate IsDigit(c: char) {
    '0' <= c <= '9'
  }

  /** Decimal digits of `n`, most significant first, without leading zeros. */
  function NatToString(n: nat): (r: string)
    ensures |r| > 0
    ensures forall i :: 0 <= i < |r| ==> IsDigit(r[i])
    ensures n >= 10 ==> r[0] != '0'
    decreases n
  {
    if n < 10 then [DigitChar(n)] else NatToString(n / 10) + [DigitChar(n % 10)]
  }

  /** `(string)$i` for a PHP int: an optional minus sign and the digits. */
  function IntToString(i: int): (r: string)
    ensures |r| > 0
    ensures forall c :: c in r ==> c == '-' || IsDigit(c)
  {
    if i < 0 then "-" + NatToString(-i) else NatToString(i)
  }

  // ---------------------------------------------------------------------
  // explode / implode with a one-character separator.

  /** `explode(sep, s)`: the maximal separator-free pieces of `s`, in order. */
  function Explode(sep: char, s: string): (r: seq<string>)
    ensures |r| >= 1
    decreases |s|
  {
    if |s| == 0 then [""]
    else if s[0] == sep then [""] + Explode(sep, s[1..])
    else
      var rest := Explode(sep, s[1..]);
      [[s[0]] + rest[0]] + rest[1..]
  }

  /** `implode(sep, parts)`: the parts joined by the separator. */
  function Implode(sep: char, parts: seq<string>): string
    requires |parts| >= 1
    decreases |parts|
  {
    if |parts| == 1 then parts[0] else parts[0] + [sep] + Implode(sep, parts[1..])
  }

  predicate SeparatorFree(sep: char, parts: seq<string>) {
    forall i :: 0 <= i < |parts| ==> sep !in parts[i]
  }

  /** A separator-free prefix glues onto the first piece of the rest. */
  lemma {:induction false} ExplodeFreePrefix(sep: char, a: string, s: string)
    requires sep !in a
    ensures Explode(sep, a + s) == [a + Explode(sep, s)[0]] + Explode(sep, s)[1..]
    decreases |a|
  {
    var e := Explode(sep, s);
    if |a| == 0 {
      assert a + s == s;
      assert a + e[0] == e[0];
      assert e == [e[0]] + e[1..];
    } else {
      assert (a + s)[0] == a[0];
      assert (a + s)[1..] == a[1..] + s;
      ExplodeFreePrefix(sep, a[1..], s);
      assert [a[0]] + (a[1..] + Explode(sep, s)[0]) == a + Explode(sep, s)[0];
    }
  }

  /** Splitting what was joined gives back the pieces, when no piece
      contains the separator. */
  lemma {:induction false} ExplodeImplode(sep: char, parts: seq<string>)
    requires |parts| >= 1
    requires SeparatorFree(sep, parts)
    ensures Explode(sep, Implode(sep, parts)) == parts
    decreases |parts|
  {
    if |parts| == 1 {
      ExplodeFreePrefix(sep, parts[0], "");
      assert parts[0] + "" == parts[0];
    } else {
      var rest := Implode(sep, parts[1..]);
      assert parts[0] + [sep] + rest == parts[0] + ([sep] + rest);
      ExplodeFreePrefix(sep, parts[0], [sep] + rest);
      assert ([sep] + rest)[1..] == rest;
      ExplodeImplode(sep, parts[1..]);
      assert Explode(sep, [sep] + rest) == [""] + parts[1..];
      assert parts[0] + "" == parts[0];
      assert parts == [parts[0]] + parts[1..];
    }
  }

  /** Joining one more piece appends the separator and that piece. */
  lemma {:induction false} ImplodeSnoc(sep: char, parts: seq<string>, last: string)
    requires |parts| >= 1
    ensures Implode(sep, parts + [last]) == Implode(sep, parts) + [sep] + last
    decreases |parts|
  {
    if |parts| == 1 {
      assert parts + [last] == [parts[0], last];
    } else {
      assert (parts + [last])[1..] == parts[1..] + [last];
      ImplodeSnoc(sep, parts[1..], last);
    }
  }

  // ---------------------------------------------------------------------
  // str_replace with a single search string.

  /** `str_replace(pat, by, s)`: every occurrence of `pat`, scanning left to
      right without overlap, replaced by `rep`; an empty `pat` changes nothing. */
  function Replace(s: string, pat: string, rep: string): string
    decreases |s|
  {
    if |pat| == 0 || |s| < |pat| then s
    else if s[..|pat|] == pat then rep + Replace(s[|pat|..], pat, rep)
    else [s[0]] + Replace(s[1..], pat, rep)
  }

  /** Text that does not contain the first character of the pattern is
      copied through unchanged. */
  lemma {:induction false} ReplaceSkipsFree(a: string, s: string, pat: string, rep: string)
    requires |pat| > 0 && pat[0] !in a
    ensures Replace(a + s, pat, rep) == a + Replace(s, pat, rep)
    decreases |a|
  {
    if |a| > 0 {
      var t := a + s;
      assert t[0] == a[0];
      if |t| < |pat| {
        assert Replace(s, pat, rep) == s;
      } else {
        assert t[..|pat|][0] == a[0];
        assert t[1..] == a[1..] + s;
        ReplaceSkipsFree(a[1..], s, pat, rep);
        assert [a[0]] + (a[1..] + Replace(s, pat, rep)) == a + Replace(s, pat, rep);
      }
    } else {
      assert a + s == s;
    }
  }

  /** An occurrence of the pattern at the front is replaced. */
  lemma ReplaceAtFront(s: string, pat: string, rep: string)
    requires |pat| > 0
    ensures Replace(pat + s, pat, rep) == rep + Replace(s, pat, rep)
  {
    assert (pat + s)[..|pat|] == pat;
    assert (pat + s)[|pat|..] == s;
  }

  // ---------------------------------------------------------------------
  // basename (POSIX: '/' is the only separator).

  /** `s` without its trailing `c` characters. */
  function StripTrailing(s: string, c: char): (r: string)
    ensures |r| == 0 || r[|r| - 1] != c
    ensures c !in s ==> r == s
    decreases |s|
  {
    if |s| > 0 && s[|s| - 1] == c then StripTrailing(s[..|s| - 1], c) else s
  }

  /** The part of `s` after its last `c`. */
  function AfterLast(s: string, c: char): (r: string)
    ensures c !in r
    ensures c !in s ==> r == s
    decreases |s|
  {
    if |s| == 0 then ""
    else if s[|s| - 1] == c then ""
    else
      assert s == s[..|s| - 1] + [s[|s| - 1]];
      AfterLast(s[..|s| - 1], c) + [s[|s| - 1]]
  }

  /** PHP `basename`: the last path component, ignoring trailing slashes.
      The result never contains a directory separator, and a name without
      one is returned as it is. */
  function Basename(path: string): (r: string)
    ensures '/' !in r
    ensures '/' !in path ==> r == path
  {
    AfterLast(StripTrailing(path, '/'), '/')
  }
}
