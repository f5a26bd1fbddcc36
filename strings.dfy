/** Text helpers shared by the formatters: repetition, joining and
    splitting, left padding, and decimal rendering of integers (what
    JavaScript's `String(n)` produces for an integral number). */
module Strings {

  predicate StartsWith(s: string, prefix: string) {
    |prefix| <= |s| && s[..|prefix|] == prefix
  }

  predicate EndsWith(s: string, suffix: string) {
    |suffix| <= |s| && s[|s| - |suffix|..] == suffix
  }

  /** `c` repeated `n` times, as `c.repeat(n)`. */
  function Repeat(c: char, n: nat): (r: string)
    ensures |r| == n
  {
    if n == 0 then "" else [c] + Repeat(c, n - 1)
  }

  /** Every character of `c.repeat(n)` is `c`. */
  lemma {:induction false} RepeatChars(c: char, n: nat)
    ensures forall i :: 0 <= i < n ==> Repeat(c, n)[i] == c
  {
    if n > 0 {
      RepeatChars(c, n - 1);
      assert forall i :: 1 <= i < n ==> Repeat(c, n)[i] == Repeat(c, n - 1)[i - 1];
    }
  }

  /** `Array.prototype.join(sep)` over strings. */
  function JoinWith(sep: string, parts: seq<string>): (r: string)
    ensures |parts| >= 1 ==> StartsWith(r, parts[0])
  {
    if |parts| == 0 then ""
    else if |parts| == 1 then parts[0]
    else parts[0] + sep + JoinWith(sep, parts[1..])
  }

  /** Splits `s` at every occurrence of `c`, as `s.split(c)` for a
      one-character separator. */
  function Split(s: string, c: char): (parts: seq<string>)
    ensures |parts| >= 1
  {
    if |s| == 0 then [""]
    else
      var rest := Split(s[1..], c);
      if s[0] == c then [""] + rest
      else [[s[0]] + rest[0]] + rest[1..]
  }

  lemma {:induction false} SplitWithout(p: string, c: char)
    requires c !in p
    ensures Split(p, c) == [p]
  {
    if |p| > 0 {
      SplitWithout(p[1..], c);
      assert [p[0]] + p[1..] == p;
    }
  }

  lemma {:induction false} SplitAfter(p: string, c: char, rest: string)
    requires c !in p
    ensures Split(p + [c] + rest, c) == [p] + Split(rest, c)
  {
    if |p| == 0 {
      assert p + [c] + rest == [c] + rest;
      assert ([c] + rest)[1..] == rest;
    } else {
      var s := p + [c] + rest;
      assert s[0] == p[0];
      assert s[1..] == p[1..] + [c] + rest;
      SplitAfter(p[1..], c, rest);
      assert [p[0]] + p[1..] == p;
    }
  }

  /** Joining lines that hold no separator and splitting the result again
      gives the lines back: a joined rendering has exactly one line per part. */
  lemma {:induction false} SplitJoin(parts: seq<string>, c: char)
    requires |parts| >= 1
    requires forall i :: 0 <= i < |parts| ==> c !in parts[i]
    ensures Split(JoinWith([c], parts), c) == parts
  {
    if |parts| == 1 {
      SplitWithout(parts[0], c);
    } else {
      SplitJoin(parts[1..], c);
      SplitAfter(parts[0], c, JoinWith([c], parts[1..]));
      assert [parts[0]] + parts[1..] == parts;
    }
  }

  /** `SplitJoin` for lines joined with "\n". */
  lemma LinesSplit(lines: seq<string>)
    requires |lines| >= 1
    requires forall i :: 0 <= i < |lines| ==> '\n' !in lines[i]
    ensures Split(JoinWith("\n", lines), '\n') == lines
  {
    SplitJoin(lines, '\n');
    assert "\n" == ['\n'];
  }

  /** `LinesSplit` for the eight-line reports, line by line. */
  lemma EightLinesSplit(lines: seq<string>)
    requires |lines| == 8
    requires '\n' !in lines[0] && '\n' !in lines[1] && '\n' !in lines[2] && '\n' !in lines[3]
    requires '\n' !in lines[4] && '\n' !in lines[5] && '\n' !in lines[6] && '\n' !in lines[7]
    ensures Split(JoinWith("\n", lines), '\n') == lines
  {
    LinesSplit(lines);
  }

  /** A join of three or more parts ends with its last two parts, each
      behind a separator. */
  lemma {:induction false} JoinEndsWith(sep: string, parts: seq<string>)
    requires |parts| >= 3
    ensures EndsWith(JoinWith(sep, parts), sep + parts[|parts| - 2] + sep + parts[|parts| - 1])
    decreases |parts|
  {
    var n := |parts|;
    var suffix := sep + parts[n - 2] + sep + parts[n - 1];
    var tail := JoinWith(sep, parts[1..]);
    assert JoinWith(sep, parts) == parts[0] + (sep + tail);
    if n == 3 {
      var rest := parts[1..];
      assert rest[1..] == [parts[2]];
      assert JoinWith(sep, rest[1..]) == parts[2];
      assert tail == parts[1] + sep + parts[2];
      Reassociate(sep, parts[1], sep, parts[2]);
    } else {
      JoinEndsWith(sep, parts[1..]);
      assert parts[1..][n - 3] == parts[n - 2] && parts[1..][n - 2] == parts[n - 1];
      SuffixKept(sep, tail, suffix);
    }
    SuffixKept(parts[0], sep + tail, suffix);
  }

  /** Lines joined with "\n" whose last two are a blank line and `last`
      end with an empty line and then `last`. */
  lemma BlankThenLast(lines: seq<string>, last: string)
    requires |lines| >= 3 && lines[|lines| - 2] == "" && lines[|lines| - 1] == last
    ensures EndsWith(JoinWith("\n", lines), "\n\n" + last)
  {
    JoinEndsWith("\n", lines);
    assert "\n" + "" + "\n" + last == "\n\n" + last;
  }

  /** The character put between two texts is found right after the first. */
  lemma CharAt(x: string, c: char, y: string)
    ensures StartsWith(x + [c] + y, x) && (x + [c] + y)[|x|] == c
  {
    assert (x + [c] + y)[..|x|] == x;
  }

  /** Text put in front keeps a suffix. */
  lemma SuffixKept(x: string, t: string, suffix: string)
    requires EndsWith(t, suffix)
    ensures EndsWith(x + t, suffix)
  {
    assert (x + t)[|x + t| - |suffix|..] == t[|t| - |suffix|..];
  }

  /** A text built as prefix, middle and suffix gives each piece back. */
  lemma Framed(prefix: string, middle: string, suffix: string)
    ensures var t := prefix + middle + suffix;
            && StartsWith(t, prefix) && EndsWith(t, suffix)
            && |prefix| + |suffix| <= |t|
            && t[|prefix|..|t| - |suffix|] == middle
  {
    var t := prefix + middle + suffix;
    assert t[..|prefix|] == prefix;
    assert t[|t| - |suffix|..] == suffix;
    assert t[|prefix|..|t| - |suffix|] == middle;
  }

  /** Concatenation regrouped. */
  lemma Regroup(o: string, x: string, y: string)
    ensures o + x + y == o + (x + y)
  {
  }

  /** Concatenation regrouped, four pieces. */
  lemma Reassociate(p: string, x: string, y: string, z: string)
    ensures p + x + y + z == p + (x + y + z)
  {
  }

  /** A text that starts with `p` gives the rest back after it. */
  lemma AfterPrefix(p: string, rest: string)
    ensures StartsWith(p + rest, p) && (p + rest)[|p|..] == rest
  {
    assert (p + rest)[..|p|] == p;
  }

  /** Each of three concatenated pieces is found at its place. */
  lemma ThreePieces(x: string, y: string, z: string)
    ensures var t := x + y + z;
            && t[..|x|] == x && t[|x|..|x| + |y|] == y && t[|x| + |y|..] == z
            && x + (y + z) == t
  {
    var t := x + y + z;
    assert t[..|x|] == x;
    assert t[|x|..|x| + |y|] == y;
    assert t[|x| + |y|..] == z;
  }

  /** `s.padStart(width, c)`: `c` is put in front until the string is
      `width` long. */
  function PadStart(s: string, width: nat, c: char): (r: string)
    ensures |r| == if |s| >= width then |s| else width
    decreases width - |s|
  {
    if |s| >= width then s else PadStart([c] + s, width, c)
  }

  /** The padded string is the fill followed by the original. */
  lemma {:induction false} PadStartFill(s: string, width: nat, c: char)
    ensures PadStart(s, width, c) == if |s| >= width then s else Repeat(c, width - |s|) + s
    decreases width - |s|
  {
    if |s| < width {
      PadStartFill([c] + s, width, c);
      if |s| + 1 < width {
        assert Repeat(c, width - |s|) == [c] + Repeat(c, width - |s| - 1);
        assert Repeat(c, width - |s| - 1) + ([c] + s) == Repeat(c, width - |s| - 1) + [c] + s;
        RepeatSnoc(c, width - |s| - 1);
      } else {
        assert Repeat(c, 1) == [c];
      }
    }
  }

  /** One more character at the end of a run of that character. */
  lemma {:induction false} RepeatSnoc(c: char, n: nat)
    ensures Repeat(c, n) + [c] == [c] + Repeat(c, n)
  {
    if n > 0 {
      RepeatSnoc(c, n - 1);
      assert Repeat(c, n) + [c] == [c] + (Repeat(c, n - 1) + [c]);
    }
  }

  /** Padding keeps the string at the end and fills the front with `c`. */
  lemma PadStartShape(s: string, width: nat, c: char)
    ensures var r := PadStart(s, width, c);
            && EndsWith(r, s)
            && forall i :: 0 <= i < |r| - |s| ==> r[i] == c
  {
    PadStartFill(s, width, c);
    if |s| < width {
      var r := PadStart(s, width, c);
      RepeatChars(c, width - |s|);
      assert r[|r| - |s|..] == s;
    }
  }

  /** Padding a one-line string with a character other than a line break
      keeps it on one line. */
  lemma PadStartUnbroken(s: string, width: nat, c: char)
    requires c != '\n' && '\n' !in s
    ensures '\n' !in PadStart(s, width, c)
  {
    PadStartFill(s, width, c);
    if |s| < width {
      RepeatChars(c, width - |s|);
    }
  }

  predicate IsDigit(c: char) {
    '0' <= c <= '9'
  }

  predicate AllDigits(s: string) {
    forall i :: 0 <= i < |s| ==> IsDigit(s[i])
  }

  function DigitChar(d: nat): (c: char)
    requires d < 10
    ensures IsDigit(c) && c as int - '0' as int == d
  {
    (d + '0' as int) as char
  }

  function DigitValue(c: char): nat
    requires IsDigit(c)
  {
    c as int - '0' as int
  }

  /** Decimal digits of a natural number, without leading zeros. */
  function NatToDecimal(n: nat): (r: string)
    ensures |r| >= 1 && AllDigits(r)
    ensures r[0] == '0' <==> n == 0
    ensures n < 10 <==> |r| == 1
  {
    if n < 10 then [DigitChar(n)] else NatToDecimal(n / 10) + [DigitChar(n % 10)]
  }

  /** `String(n)` for an integral number. */
  function IntToDecimal(n: int): (r: string)
    ensures |r| >= 1
    ensures n >= 0 ==> r == NatToDecimal(n)
    ensures n < 0 ==> r == "-" + NatToDecimal(-n)
  {
    if n < 0 then "-" + NatToDecimal(-n) else NatToDecimal(n)
  }

  /** A decimal numeral holds no line break. */
  lemma DecimalUnbroken(n: int)
    ensures '\n' !in IntToDecimal(n)
  {
    var d := NatToDecimal(if n < 0 then -n else n);
    assert forall i :: 0 <= i < |d| ==> d[i] != '\n' by {
      assert AllDigits(d);
    }
    if n < 0 {
      assert IntToDecimal(n) == "-" + d;
    }
  }

  /** The value of a string of decimal digits (leading zeros allowed). */
  function ParseDecimal(s: string): nat
    requires AllDigits(s)
  {
    if |s| == 0 then 0 else ParseDecimal(s[..|s| - 1]) * 10 + DigitValue(s[|s| - 1])
  }

  /** Rendering a natural number in decimal and reading it back is the identity. */
  lemma {:induction false} ParseNatToDecimal(n: nat)
    ensures ParseDecimal(NatToDecimal(n)) == n
  {
    if n >= 10 {
      var s := NatToDecimal(n);
      assert s[..|s| - 1] == NatToDecimal(n / 10);
      ParseNatToDecimal(n / 10);
    }
  }

  /** Leading zeros do not change the value read. */
  lemma {:induction false} ParseLeadingZeros(z: nat, s: string)
    requires AllDigits(s)
    ensures AllDigits(Repeat('0', z) + s)
    ensures ParseDecimal(Repeat('0', z) + s) == ParseDecimal(s)
  {
    if |s| == 0 {
      assert Repeat('0', z) + s == Repeat('0', z);
      ZerosReadZero(z);
    } else {
      var t := Repeat('0', z) + s;
      assert t[..|t| - 1] == Repeat('0', z) + s[..|s| - 1];
      ParseLeadingZeros(z, s[..|s| - 1]);
    }
  }

  lemma {:induction false} ZerosReadZero(z: nat)
    ensures AllDigits(Repeat('0', z))
    ensures ParseDecimal(Repeat('0', z)) == 0
  {
    RepeatChars('0', z);
    if z > 0 {
      RepeatChars('0', z - 1);
      var t := Repeat('0', z);
      assert t[..|t| - 1] == Repeat('0', z - 1);
      ZerosReadZero(z - 1);
    }
  }

  /** A zero-padded decimal rendering still reads back as the number. */
  lemma PaddedDecimalReadsBack(n: nat, width: nat)
    ensures AllDigits(PadStart(NatToDecimal(n), width, '0'))
    ensures ParseDecimal(PadStart(NatToDecimal(n), width, '0')) == n
  {
    var d := NatToDecimal(n);
    PadStartFill(d, width, '0');
    ParseNatToDecimal(n);
    if |d| < width {
      ParseLeadingZeros(width - |d|, d);
    }
  }

  /** Length of the run of digits in `s` starting at `i`, counted from `i`. */
  function DigitRun(s: string, i: nat): (k: nat)
    requires i <= |s|
    ensures i + k <= |s|
    ensures AllDigits(s[i..i + k])
    ensures i + k < |s| ==> !IsDigit(s[i + k])
    decreases |s| - i
  {
    if i == |s| || !IsDigit(s[i]) then 0
    else
      var k := DigitRun(s, i + 1);
      assert s[i..i + 1 + k] == [s[i]] + s[i + 1..i + 1 + k];
      1 + k
  }

  lemma {:induction false} DigitRunOf(d: string, tail: string)
    requires AllDigits(d)
    requires |tail| > 0 && !IsDigit(tail[0])
    ensures DigitRun(d + tail, 0) == |d|
  {
    DigitRunFrom(d + tail, 0, |d|);
  }

  lemma {:induction false} DigitRunFrom(s: string, i: nat, n: nat)
    requires i <= n < |s|
    requires AllDigits(s[i..n]) && !IsDigit(s[n])
    ensures DigitRun(s, i) == n - i
    decreases n - i
  {
    if i < n {
      assert s[i] == s[i..n][0];
      assert s[i + 1..n] == s[i..n][1..];
      DigitRunFrom(s, i + 1, n);
    }
  }

  /** Length of the run of digits in `s` that ends just before `j`. */
  function DigitRunBefore(s: string, j: nat): (k: nat)
    requires j <= |s|
    ensures k <= j
    ensures AllDigits(s[j - k..j])
    ensures k < j ==> !IsDigit(s[j - k - 1])
    decreases j
  {
    if j == 0 || !IsDigit(s[j - 1]) then 0
    else
      var k := DigitRunBefore(s, j - 1);
      assert s[j - 1 - k..j] == s[j - 1 - k..j - 1] + [s[j - 1]];
      1 + k
  }

  lemma {:induction false} DigitRunBeforeFrom(s: string, i: nat, j: nat)
    requires 0 < i <= j <= |s|
    requires AllDigits(s[i..j]) && !IsDigit(s[i - 1])
    ensures DigitRunBefore(s, j) == j - i
    decreases j - i
  {
    if i < j {
      assert s[j - 1] == s[i..j][j - 1 - i];
      assert s[i..j - 1] == s[i..j][..j - 1 - i];
      DigitRunBeforeFrom(s, i, j - 1);
    }
  }

  /** `s` opens with a run of digits, and that run reads as `n`. */
  predicate LeadsWithNumber(s: string, n: nat) {
    var k := DigitRun(s, 0);
    k > 0 && ParseDecimal(s[..k]) == n
  }

  /** `s` closes with a run of digits, and that run reads as `n`. */
  predicate TrailsWithNumber(s: string, n: nat) {
    var k := DigitRunBefore(s, |s|);
    k > 0 && ParseDecimal(s[|s| - k..]) == n
  }

  /** A number rendered ahead of a non-digit is read back from the text. */
  lemma LeadingNumberOf(n: nat, tail: string)
    requires |tail| > 0 && !IsDigit(tail[0])
    ensures LeadsWithNumber(NatToDecimal(n) + tail, n)
  {
    var d := NatToDecimal(n);
    DigitRunOf(d, tail);
    ParseNatToDecimal(n);
    assert (d + tail)[..|d|] == d;
  }

  /** A number rendered after a non-digit, at the very end, is read back
      from the text. */
  lemma TrailingNumberOf(head: string, n: nat)
    requires |head| > 0 && !IsDigit(head[|head| - 1])
    ensures TrailsWithNumber(head + NatToDecimal(n), n)
  {
    var d := NatToDecimal(n);
    var t := head + d;
    assert t[|head|..|t|] == d;
    assert t[|head| - 1] == head[|head| - 1];
    DigitRunBeforeFrom(t, |head|, |t|);
    ParseNatToDecimal(n);
  }
}
