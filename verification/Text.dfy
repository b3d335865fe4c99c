/** The string and number routines of Go's standard library the model needs. */
module Text {
  import opened Common

  // unicode.IsSpace
  predicate IsSpace(c: char) {
    var n := c as int;
    || 9 <= n <= 13 || n == 32 || n == 0x85 || n == 0xA0 || n == 0x1680 || 0x2000 <= n <= 0x200A
    || n == 0x2028 || n == 0x2029 || n == 0x202F || n == 0x205F || n == 0x3000
  }

  predicate NoNewline(s: string) {
    '\n' !in s
  }

  function TrimSpaceLeft(s: string): string {
    if s != "" && IsSpace(s[0]) then TrimSpaceLeft(s[1..]) else s
  }

  function TrimSpaceRight(s: string): string {
    if s != "" && IsSpace(s[|s| - 1]) then TrimSpaceRight(s[..|s| - 1]) else s
  }

  // strings.TrimSpace
  function TrimSpace(s: string): string {
    TrimSpaceRight(TrimSpaceLeft(s))
  }

  lemma {:induction false} TrimSpaceRightBehind(s: string, t: string)
    requires s != "" && !IsSpace(s[|s| - 1])
    ensures TrimSpaceRight(s + t) == s + TrimSpaceRight(t)
  {
    if t == "" {
      assert s + t == s;
    } else if IsSpace(t[|t| - 1]) {
      assert (s + t)[..|s + t| - 1] == s + t[..|t| - 1];
      TrimSpaceRightBehind(s, t[..|t| - 1]);
    }
  }

  lemma {:induction false} TrimSpaceRightEnds(s: string)
    ensures forall c :: c in TrimSpaceRight(s) ==> c in s
    ensures TrimSpaceRight(s) != "" ==> !IsSpace(TrimSpaceRight(s)[|TrimSpaceRight(s)| - 1])
  {
    if s != "" && IsSpace(s[|s| - 1]) {
      TrimSpaceRightEnds(s[..|s| - 1]);
    }
  }

  lemma {:induction false} TrimSpaceLeftEnds(s: string)
    ensures forall c :: c in TrimSpaceLeft(s) ==> c in s
  {
    if s != "" && IsSpace(s[0]) {
      TrimSpaceLeftEnds(s[1..]);
    }
  }

  // strings.Split(s, "\n")
  function Split(s: string): (lines: seq<string>)
    ensures lines != [] && forall l :: l in lines ==> NoNewline(l)
  {
    if s == "" then [""]
    else if s[0] == '\n' then [""] + Split(s[1..])
    else
      var rest := Split(s[1..]);
      assert NoNewline(rest[0]);
      [[s[0]] + rest[0]] + rest[1..]
  }

  lemma {:induction false} SplitLine(line: string, rest: string)
    requires NoNewline(line)
    ensures Split(line + ['\n'] + rest) == [line] + Split(rest)
  {
    if line == "" {
      assert (line + ['\n'] + rest)[1..] == rest;
    } else {
      SplitLine(line[1..], rest);
      assert (line + ['\n'] + rest)[1..] == line[1..] + ['\n'] + rest;
      assert [line[0]] + line[1..] == line;
    }
  }

  // ---- Decimal numbers ----

  const INT64_LIMIT: int := 0x8000_0000_0000_0000

  predicate IsInt64(n: int) {
    -INT64_LIMIT <= n < INT64_LIMIT
  }

  // int64 arithmetic wraps around
  function Wrap64(n: int): (w: int)
    ensures IsInt64(w)
    ensures IsInt64(n) ==> w == n
  {
    (n + INT64_LIMIT) % (2 * INT64_LIMIT) - INT64_LIMIT
  }

  predicate IsDigit(c: char) {
    '0' <= c <= '9'
  }

  predicate AllDigits(s: string) {
    forall c :: c in s ==> IsDigit(c)
  }

  function DigitValue(c: char): nat
    requires IsDigit(c)
  {
    c as int - '0' as int
  }

  function Digits(n: nat): (s: string)
    ensures s != "" && AllDigits(s)
  {
    var last := ('0' as int + n % 10) as char;
    if n < 10 then [last] else Digits(n / 10) + [last]
  }

  // strconv.FormatInt(n, 10)
  function FormatInt(n: int): string {
    if n < 0 then ['-'] + Digits(-n) else Digits(n)
  }

  function Value(s: string): nat
    requires AllDigits(s)
  {
    if s == "" then 0 else Value(s[..|s| - 1]) * 10 + DigitValue(s[|s| - 1])
  }

  // strconv.ParseInt(s, 10, 64)
  function ParseInt64(s: string): Option<int> {
    var negative := s != "" && s[0] == '-';
    var digits := if s != "" && (s[0] == '-' || s[0] == '+') then s[1..] else s;
    if digits == "" || !AllDigits(digits) then None
    else
      var v: int := Value(digits);
      var n := if negative then -v else v;
      if IsInt64(n) then Some(n) else None
  }

  // Which texts are numbers: an optional sign, then digits, in the range of int64.
  lemma ParseIntMeans(s: string, n: int)
    ensures ParseInt64(s) == Some(n) <==>
            exists digits :: digits != "" && AllDigits(digits) && -0x8000_0000_0000_0000 <= n <= 0x7fff_ffff_ffff_ffff
              && (((s == digits || s == "+" + digits) && n == Value(digits)) || (s == "-" + digits && -n == Value(digits)))
  {
    if ParseInt64(s) == Some(n) {
      var digits := if s[0] == '-' || s[0] == '+' then s[1..] else s;
      assert s == digits || s == [s[0]] + digits;
    } else {
      forall digits | digits != "" && AllDigits(digits) && (s == digits || s == "+" + digits || s == "-" + digits)
        ensures !(-0x8000_0000_0000_0000 <= n <= 0x7fff_ffff_ffff_ffff)
             || !(((s == digits || s == "+" + digits) && n == Value(digits)) || (s == "-" + digits && -n == Value(digits)))
      {
        if s == digits {
          assert s[0] in digits;
        } else {
          assert s[1..] == digits;
        }
      }
    }
  }

  // White space as Unicode has it.
  lemma SpacesAre(c: char)
    ensures IsSpace(c) <==>
            c in {'\t', '\n', 11 as char, 12 as char, '\r', ' ', 0x85 as char, 0xA0 as char, 0x1680 as char, 0x2000 as char,
                  0x2001 as char, 0x2002 as char, 0x2003 as char, 0x2004 as char, 0x2005 as char, 0x2006 as char, 0x2007 as char,
                  0x2008 as char, 0x2009 as char, 0x200A as char, 0x2028 as char, 0x2029 as char, 0x202F as char, 0x205F as char,
                  0x3000 as char}
  {
  }

  lemma {:induction false} ValueOfDigits(n: nat)
    ensures Value(Digits(n)) == n
  {
    if n >= 10 {
      ValueOfDigits(n / 10);
      var last := ('0' as int + n % 10) as char;
      assert (Digits(n / 10) + [last])[..|Digits(n / 10) + [last]| - 1] == Digits(n / 10);
    } else {
      assert Digits(n)[..0] == "";
    }
  }

  lemma ParseFormatted(n: int)
    requires IsInt64(n)
    ensures ParseInt64(FormatInt(n)) == Some(n)
    ensures FormatInt(n) != "" && !IsSpace(FormatInt(n)[|FormatInt(n)| - 1]) && NoNewline(FormatInt(n))
  {
    FormattedEnds(n);
    if n < 0 {
      ValueOfDigits(-n);
      assert FormatInt(n)[1..] == Digits(-n);
    } else {
      ValueOfDigits(n);
      assert FormatInt(n)[0] in Digits(n);
    }
  }

  lemma FormattedEnds(n: int)
    ensures FormatInt(n) != "" && !IsSpace(FormatInt(n)[|FormatInt(n)| - 1]) && NoNewline(FormatInt(n))
  {
    ValueOfDigits(if n < 0 then -n else n);
    assert FormatInt(n)[|FormatInt(n)| - 1] in Digits(if n < 0 then -n else n);
  }

  // strings.EqualFold on the ASCII text of a hash.
  function Lower(s: string): string {
    seq(|s|, i requires 0 <= i < |s| => if 'A' <= s[i] <= 'Z' then (s[i] as int + 32) as char else s[i])
  }

  predicate EqualFold(a: string, b: string) {
    Lower(a) == Lower(b)
  }

  // An ASCII letter in upper case, and the same letter in lower case.
  predicate UpperOf(u: char, l: char) {
    'A' <= u <= 'Z' && 'a' <= l <= 'z' && u as int - 'A' as int == l as int - 'a' as int
  }

  // Two texts are equal under folding exactly when they are as long and agree at
  // every index up to the case of an ASCII letter.
  lemma FoldMeans(a: string, b: string)
    ensures EqualFold(a, b) <==>
            |a| == |b| && forall i :: 0 <= i < |a| ==> a[i] == b[i] || UpperOf(a[i], b[i]) || UpperOf(b[i], a[i])
  {
    if EqualFold(a, b) {
      assert |Lower(a)| == |a| && |Lower(b)| == |b|;
      forall i | 0 <= i < |a| ensures a[i] == b[i] || UpperOf(a[i], b[i]) || UpperOf(b[i], a[i]) {
        assert Lower(a)[i] == Lower(b)[i];
      }
    }
  }

  predicate NoUpper(s: string) {
    forall c :: c in s ==> !('A' <= c <= 'Z')
  }

  // On texts without upper-case letters, such as hashes in lower-case hex, it is
  // plain equality.
  lemma FoldIsEqual(a: string, b: string)
    requires NoUpper(a) && NoUpper(b)
    ensures EqualFold(a, b) <==> a == b
  {
    FoldMeans(a, b);
    if EqualFold(a, b) {
      forall i | 0 <= i < |a| ensures a[i] == b[i] {
        assert a[i] in a && b[i] in b;
      }
    }
  }

  // The hash prints itself without upper-case letters.
  ghost predicate LowerHashes(hash: Bytes -> string) {
    forall b :: NoUpper(hash(b))
  }
}
