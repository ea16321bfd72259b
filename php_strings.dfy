/**
 * The pieces of PHP's string semantics that the bundle relies on, over
 * `seq<char>`: boolean conversion and `empty()`, ASCII `strtoupper` and
 * `strtolower`, `trim` with its default character set, `implode`, the
 * colon split that inverts the key builder, the first-N-characters cut of
 * `mb_substr($s, 0, N)`, and integer-to-string conversion.
 */
module PhpStrings {

  /** PHP's conversion of a string to bool: only "" and "0" are false. */
  predicate Truthy(s: string) {
    s != "" && s != "0"
  }

  /** PHP's `empty()` applied to a string value. */
  predicate IsEmpty(s: string) {
    !Truthy(s)
  }

  function UpperChar(c: char): char {
    if 'a' <= c <= 'z' then (c as int - 32) as char else c
  }

  function LowerChar(c: char): char {
    if 'A' <= c <= 'Z' then (c as int + 32) as char else c
  }

  /** ASCII `strtoupper`. */
  function Upper(s: string): (r: string)
    ensures |r| == |s|
    ensures forall i :: 0 <= i < |s| ==> r[i] == UpperChar(s[i])
  {
    seq(|s|, i requires 0 <= i < |s| => UpperChar(s[i]))
  }

  /** ASCII `strtolower`. */
  function Lower(s: string): (r: string)
    ensures |r| == |s|
    ensures forall i :: 0 <= i < |s| ==> r[i] == LowerChar(s[i])
  {
    seq(|s|, i requires 0 <= i < |s| => LowerChar(s[i]))
  }

  /** Lower-casing forgets any earlier upper-casing, so a comparison made
      after `strtolower` cannot tell `name` from `strtoupper(name)`. */
  lemma LowerOfUpper(s: string)
    ensures Lower(Upper(s)) == Lower(s)
  {
    forall i | 0 <= i < |s|
      ensures Lower(Upper(s))[i] == Lower(s)[i]
    {
      var c := s[i];
      assert LowerChar(UpperChar(c)) == LowerChar(c);
    }
  }

  /** The characters PHP's `trim` strips by default: space, tab, line feed,
      carriage return, NUL and vertical tab. */
  predicate IsTrimmed(c: char) {
    c == ' ' || c == '\t' || c == '\n' || c == '\r' || c == 0 as char || c == 11 as char
  }

  /** `ltrim`: drops the longest all-whitespace prefix. */
  function TrimLeft(s: string): (r: string)
    decreases |s|
    ensures |r| <= |s| && r == s[|s| - |r|..]
    ensures forall i :: 0 <= i < |s| - |r| ==> IsTrimmed(s[i])
    ensures |r| > 0 ==> !IsTrimmed(r[0])
  {
    if |s| > 0 && IsTrimmed(s[0]) then TrimLeft(s[1..]) else s
  }

  /** `rtrim`: drops the longest all-whitespace suffix. */
  function TrimRight(s: string): (r: string)
    decreases |s|
    ensures |r| <= |s| && r == s[..|r|]
    ensures forall i :: |r| <= i < |s| ==> IsTrimmed(s[i])
    ensures |r| > 0 ==> !IsTrimmed(r[|r| - 1])
  {
    if |s| > 0 && IsTrimmed(s[|s| - 1]) then TrimRight(s[..|s| - 1]) else s
  }

  /** How many characters `ltrim` removes from the front of `s`. */
  function LeadingWhitespace(s: string): nat {
    |s| - |TrimLeft(s)|
  }

  /** `trim`: the result neither starts nor ends with whitespace. */
  function Trim(s: string): (r: string)
    ensures |r| <= |s|
    ensures |r| > 0 ==> !IsTrimmed(r[0]) && !IsTrimmed(r[|r| - 1])
  {
    var l := TrimLeft(s);
    var r := TrimRight(l);
    assert |r| > 0 ==> r[0] == l[0];
    r
  }

  /** What `trim` keeps is a contiguous piece of its input, and everything it
      cuts away on either side is whitespace. */
  lemma TrimIsSlice(s: string)
    ensures var k, r := LeadingWhitespace(s), Trim(s);
      && k + |r| <= |s| && r == s[k..k + |r|]
      && (forall i :: 0 <= i < k ==> IsTrimmed(s[i]))
      && (forall i :: k + |r| <= i < |s| ==> IsTrimmed(s[i]))
  {
    var l := TrimLeft(s);
    var r := TrimRight(l);
    var k := |s| - |l|;
    assert l == s[k..];
    forall i | k + |r| <= i < |s|
      ensures IsTrimmed(s[i])
    {
      assert s[i] == l[i - k];
    }
  }

  /** A string that neither starts nor ends with whitespace is left alone by
      `trim`; in particular `trim` is idempotent. */
  lemma {:induction false} TrimFixesTrimmed(s: string)
    requires |s| > 0 ==> !IsTrimmed(s[0]) && !IsTrimmed(s[|s| - 1])
    ensures Trim(s) == s
  {
    assert TrimLeft(s) == s;
    assert TrimRight(s) == s;
  }

  lemma TrimIdempotent(s: string)
    ensures Trim(Trim(s)) == Trim(s)
  {
    TrimFixesTrimmed(Trim(s));
  }

  /** `implode($sep, $parts)`. */
  function Join(sep: string, parts: seq<string>): string
    decreases |parts|
  {
    if |parts| == 0 then ""
    else if |parts| == 1 then parts[0]
    else parts[0] + sep + Join(sep, parts[1..])
  }

  /** `explode($sep, $s)` for a one-character separator: the pieces between
      separators, always at least one. */
  function Split(sep: char, s: string): (r: seq<string>)
    decreases |s|
    ensures |r| >= 1
  {
    if |s| == 0 then [""]
    else
      var rest := Split(sep, s[1..]);
      if s[0] == sep then [""] + rest else [[s[0]] + rest[0]] + rest[1..]
  }

  lemma {:induction false} SplitWithoutSeparator(sep: char, p: string)
    requires sep !in p
    ensures Split(sep, p) == [p]
  {
    if |p| > 0 {
      assert sep !in p[1..];
      SplitWithoutSeparator(sep, p[1..]);
      assert [p[0]] + p[1..] == p;
    }
  }

  lemma {:induction false} SplitAfterPiece(sep: char, p: string, t: string)
    requires sep !in p
    ensures Split(sep, p + [sep] + t) == [p] + Split(sep, t)
  {
    if |p| == 0 {
      assert (p + [sep] + t)[1..] == t;
    } else {
      assert (p + [sep] + t)[1..] == p[1..] + [sep] + t;
      assert sep !in p[1..];
      SplitAfterPiece(sep, p[1..], t);
      assert [p[0]] + p[1..] == p;
    }
  }

  /** Splitting at a separator that no part contains gives the parts back:
      `implode` over such parts loses no information. */
  lemma {:induction false} SplitJoin(sep: char, parts: seq<string>)
    requires |parts| > 0
    requires forall i :: 0 <= i < |parts| ==> sep !in parts[i]
    ensures Split(sep, Join([sep], parts)) == parts
    decreases |parts|
  {
    if |parts| == 1 {
      SplitWithoutSeparator(sep, parts[0]);
    } else {
      SplitJoin(sep, parts[1..]);
      SplitAfterPiece(sep, parts[0], Join([sep], parts[1..]));
      assert [parts[0]] + parts[1..] == parts;
    }
  }

  /** `mb_substr($s, 0, $n)` for n >= 0: the first n characters, or all of
      them when there are fewer. */
  function Cut(s: string, n: nat): (r: string)
    ensures |r| <= n
    ensures |s| <= n ==> r == s
    ensures |s| > n ==> |r| == n
    ensures |r| <= |s| && r == s[..|r|]
  {
    if |s| <= n then s else s[..n]
  }

  function DigitChar(d: nat): char
    requires d < 10
  {
    ('0' as int + d) as char
  }

  function NatToString(n: nat): (r: string)
    decreases n
  {
    if n < 10 then [DigitChar(n)] else NatToString(n / 10) + [DigitChar(n % 10)]
  }

  /** PHP's conversion of an integer to its decimal string. */
  function IntToString(i: int): string {
    if i < 0 then "-" + NatToString(-i) else NatToString(i)
  }
}
