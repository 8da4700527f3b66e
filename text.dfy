/** String primitives of the JavaScript runtime that the point-of-sale code
    relies on: trim, case mapping, searching, padding, splitting and joining,
    and decimal rendering of integers. Strings are sequences of Unicode
    scalar values; JavaScript's UTF-16 code units are not modelled. */
module Text {

  /** The characters String.prototype.trim and the regular expression class
      \s treat as white space (WhiteSpace and LineTerminator). */
  const WHITE_SPACE: set<char> := {
    ' ', '\t', '\n', '\U{000B}', '\U{000C}', '\r', '\U{00A0}', '\U{FEFF}', '\U{1680}', '\U{2000}',
    '\U{2001}', '\U{2002}', '\U{2003}', '\U{2004}', '\U{2005}', '\U{2006}', '\U{2007}', '\U{2008}',
    '\U{2009}', '\U{200A}', '\U{2028}', '\U{2029}', '\U{202F}', '\U{205F}', '\U{3000}'
  }

  predicate IsSpace(c: char) { c in WHITE_SPACE }

  predicate IsDigit(c: char) { '0' <= c <= '9' }

  function TrimStart(s: string): (r: string)
    ensures |r| <= |s|
  {
    if s != [] && IsSpace(s[0]) then TrimStart(s[1..]) else s
  }

  function TrimEnd(s: string): (r: string)
    ensures |r| <= |s|
  {
    if s != [] && IsSpace(s[|s| - 1]) then TrimEnd(s[..|s| - 1]) else s
  }

  /** TrimStart drops exactly the leading white space. */
  lemma {:induction false} TrimStartShape(s: string)
    ensures var r := TrimStart(s);
            r == s[|s| - |r|..] && (r == [] || !IsSpace(r[0]))
            && forall i :: 0 <= i < |s| - |r| ==> IsSpace(s[i])
    decreases |s|
  {
    if s != [] && IsSpace(s[0]) {
      TrimStartShape(s[1..]);
    }
  }

  /** TrimEnd drops exactly the trailing white space. */
  lemma {:induction false} TrimEndShape(s: string)
    ensures var r := TrimEnd(s);
            r == s[..|r|] && (r == [] || !IsSpace(r[|r| - 1]))
            && forall i :: |r| <= i < |s| ==> IsSpace(s[i])
    decreases |s|
  {
    if s != [] && IsSpace(s[|s| - 1]) {
      TrimEndShape(s[..|s| - 1]);
    }
  }

  /** String.prototype.trim. */
  function Trim(s: string): (r: string)
    ensures |r| <= |s|
  {
    TrimEnd(TrimStart(s))
  }

  /** A trimmed string neither starts nor ends with white space, and is a
      slice of the original. */
  lemma TrimmedEnds(s: string)
    ensures var r := Trim(s);
            r == [] || (!IsSpace(r[0]) && !IsSpace(r[|r| - 1]))
  {
    var a := TrimStart(s);
    TrimStartShape(s);
    TrimEndShape(a);
    var r := TrimEnd(a);
    if r != [] {
      assert r[0] == a[0];
    }
  }

  lemma TrimStartOfTrimmed(s: string)
    requires s == [] || !IsSpace(s[0])
    ensures TrimStart(s) == s
  {
  }

  /** A string with no white space at either end is its own trim. */
  lemma TrimOfTrimmed(s: string)
    requires s == [] || (!IsSpace(s[0]) && !IsSpace(s[|s| - 1]))
    ensures Trim(s) == s
  {
    TrimStartOfTrimmed(s);
  }

  /** Trimming twice is trimming once. */
  lemma TrimIdempotent(s: string)
    ensures Trim(Trim(s)) == Trim(s)
  {
    TrimmedEnds(s);
    TrimOfTrimmed(Trim(s));
  }

  /** A string whose trimmed form is empty consists of white space only. */
  lemma TrimEmptyMeansBlank(s: string)
    ensures Trim(s) == [] <==> forall i :: 0 <= i < |s| ==> IsSpace(s[i])
  {
    var a := TrimStart(s);
    TrimStartShape(s);
    TrimEndShape(a);
    if Trim(s) != [] {
      var r := Trim(s);
      assert r[0] == a[0] == s[|s| - |a|];
    }
  }

  /** The text has a character other than white space. */
  predicate HasNonSpace(s: string) {
    exists i :: 0 <= i < |s| && !IsSpace(s[i])
  }

  /** Boolean(s.trim()): the trimmed text is non-empty exactly when the
      text has a character other than white space. */
  lemma TrimNonEmpty(s: string)
    ensures Trim(s) != "" <==> HasNonSpace(s)
  {
    TrimEmptyMeansBlank(s);
  }

  /** Letter case mapping of String.prototype.toUpperCase/toLowerCase for
      ASCII and the one-to-one Latin-1 letters. */
  function UpperChar(c: char): char {
    if 'a' <= c <= 'z' then (c as int - 32) as char
    else if '\U{00E0}' <= c <= '\U{00FE}' && c != '\U{00F7}' then (c as int - 32) as char
    else c
  }

  function LowerChar(c: char): char {
    if 'A' <= c <= 'Z' then (c as int + 32) as char
    else if '\U{00C0}' <= c <= '\U{00DE}' && c != '\U{00D7}' then (c as int + 32) as char
    else c
  }

  function ToUpper(s: string): (r: string)
    ensures |r| == |s|
    ensures forall i :: 0 <= i < |s| ==> r[i] == UpperChar(s[i])
  {
    seq(|s|, i requires 0 <= i < |s| => UpperChar(s[i]))
  }

  function ToLower(s: string): (r: string)
    ensures |r| == |s|
    ensures forall i :: 0 <= i < |s| ==> r[i] == LowerChar(s[i])
  {
    seq(|s|, i requires 0 <= i < |s| => LowerChar(s[i]))
  }

  lemma UpperCharIdempotent(c: char)
    ensures UpperChar(UpperChar(c)) == UpperChar(c)
  {
  }

  lemma ToUpperIdempotent(s: string)
    ensures ToUpper(ToUpper(s)) == ToUpper(s)
  {
  }

  lemma LowerCharIdempotent(c: char)
    ensures LowerChar(LowerChar(c)) == LowerChar(c)
  {
  }

  lemma ToLowerIdempotent(s: string)
    ensures ToLower(ToLower(s)) == ToLower(s)
  {
  }

  /** Upper-casing maps white space to itself and nothing else to white space. */
  lemma UpperCharSpace(c: char)
    ensures IsSpace(UpperChar(c)) <==> IsSpace(c)
  {
  }

  /** s.startsWith(p) */
  predicate StartsWith(s: string, p: string) { p <= s }

  /** s.endsWith(p) */
  predicate EndsWith(s: string, p: string) {
    |p| <= |s| && s[|s| - |p|..] == p
  }

  /** s.includes(p) */
  predicate Contains(s: string, p: string)
    decreases |s|
  {
    p <= s || (s != [] && Contains(s[1..], p))
  }

  lemma ContainsAt(s: string, p: string, i: nat)
    requires i + |p| <= |s| && s[i..i + |p|] == p
    ensures Contains(s, p)
    decreases i
  {
    if i == 0 {
      assert s[..|p|] == p;
    } else {
      assert s[1..][i - 1..i - 1 + |p|] == s[i..i + |p|];
      ContainsAt(s[1..], p, i - 1);
    }
  }

  lemma ContainsWitness(s: string, p: string) returns (i: nat)
    requires Contains(s, p)
    ensures i + |p| <= |s| && s[i..i + |p|] == p
    decreases |s|
  {
    if p <= s {
      i := 0;
    } else {
      var j := ContainsWitness(s[1..], p);
      assert s[1..][j..j + |p|] == s[j + 1..j + 1 + |p|];
      i := j + 1;
    }
  }

  /** The stretch of s starting at i lower-cases to p. */
  predicate LowerAt(s: string, p: string, i: int) {
    0 <= i && i + |p| <= |s| && ToLower(s[i..i + |p|]) == p
  }

  /** Searching the lower-cased text for a lower-case word is a search
      that ignores letter case: it succeeds exactly when some stretch of
      the text lower-cases to the word. */
  lemma ContainsLowered(s: string, p: string)
    ensures Contains(ToLower(s), p) <==> exists i :: LowerAt(s, p, i)
  {
    if Contains(ToLower(s), p) {
      var i := ContainsWitness(ToLower(s), p);
      assert ToLower(s)[i..i + |p|] == ToLower(s[i..i + |p|]);
      assert LowerAt(s, p, i);
    }
    if exists i :: LowerAt(s, p, i) {
      var i :| LowerAt(s, p, i);
      assert ToLower(s)[i..i + |p|] == ToLower(s[i..i + |p|]);
      ContainsAt(ToLower(s), p, i);
    }
  }

  /** s.includes(p) only when every character of p occurs in s. */
  lemma ContainedCharsOccur(s: string, p: string)
    ensures Contains(s, p) ==> forall c :: c in p ==> c in s
  {
    if Contains(s, p) {
      var i := ContainsWitness(s, p);
      assert p == s[i..i + |p|];
    }
  }

  /** A string lacking one of p's characters does not include p. */
  lemma ContainsNeedsChar(s: string, p: string, c: char)
    ensures c in p && c !in s ==> !Contains(s, p)
  {
    ContainedCharsOccur(s, p);
  }

  /** " ".repeat(n) and the like. */
  function Repeat(c: char, n: nat): (r: string)
    ensures |r| == n
    ensures forall i :: 0 <= i < n ==> r[i] == c
  {
    seq(n, _ => c)
  }

  /** s.padStart(width) with spaces. */
  function PadStart(s: string, width: int): (r: string)
    ensures |r| == if |s| >= width then |s| else width
    ensures EndsWith(r, s)
  {
    if |s| >= width then s else Repeat(' ', width - |s|) + s
  }

  /** s.padStart(width, c) with a given fill character. */
  function PadStartWith(s: string, width: int, c: char): (r: string)
    ensures |r| == if |s| >= width then |s| else width
    ensures EndsWith(r, s)
  {
    if |s| >= width then s else Repeat(c, width - |s|) + s
  }

  /** s.slice(0, n) for n >= 0. */
  function Take(s: string, n: nat): (r: string)
    ensures |r| == if |s| < n then |s| else n
    ensures r <= s
  {
    if |s| <= n then s else s[..n]
  }

  /** s.split(sep) for a one-character separator: the pieces between
      occurrences of sep, always at least one. */
  function Split(s: string, sep: char): (r: seq<string>)
    ensures |r| >= 1
    ensures forall i, j :: 0 <= i < |r| && 0 <= j < |r[i]| ==> r[i][j] != sep
  {
    if s == [] then [""]
    else
      var rest := Split(s[1..], sep);
      if s[0] == sep then [""] + rest
      else [[s[0]] + rest[0]] + rest[1..]
  }

  /** parts.join(sep) */
  function Join(parts: seq<string>, sep: string): string {
    if parts == [] then ""
    else if |parts| == 1 then parts[0]
    else parts[0] + sep + Join(parts[1..], sep)
  }

  lemma JoinCons(x: string, parts: seq<string>, sep: string)
    requires parts != []
    ensures Join([x] + parts, sep) == x + sep + Join(parts, sep)
  {
    assert ([x] + parts)[1..] == parts;
  }

  /** Splitting and joining back with the same separator gives the input. */
  lemma {:induction false} JoinSplit(s: string, sep: char)
    ensures Join(Split(s, sep), [sep]) == s
  {
    if s != [] {
      JoinSplit(s[1..], sep);
      var rest := Split(s[1..], sep);
      if s[0] == sep {
        JoinCons("", rest, [sep]);
      } else {
        if |rest| == 1 {
        } else {
          JoinCons([s[0]] + rest[0], rest[1..], [sep]);
          JoinCons(rest[0], rest[1..], [sep]);
        }
      }
    }
  }

  predicate NoChar(s: string, c: char) { forall i :: 0 <= i < |s| ==> s[i] != c }

  /** A piece without the separator splits to itself. */
  lemma {:induction false} SplitWithoutSep(a: string, sep: char)
    requires NoChar(a, sep)
    ensures Split(a, sep) == [a]
  {
    if a != [] {
      SplitWithoutSep(a[1..], sep);
      assert [a[0]] + a[1..] == a;
    }
  }

  /** A leading piece followed by the separator splits off first. */
  lemma {:induction false} SplitAfterPiece(a: string, rest: string, sep: char)
    requires NoChar(a, sep)
    ensures Split(a + [sep] + rest, sep) == [a] + Split(rest, sep)
  {
    var s := a + [sep] + rest;
    if a == [] {
      assert s[1..] == rest;
    } else {
      assert s[1..] == a[1..] + [sep] + rest;
      SplitAfterPiece(a[1..], rest, sep);
      assert [a[0]] + a[1..] == a;
    }
  }

  /** Splitting at one occurrence of the separator splits each side. */
  lemma {:induction false} SplitAtSep(a: string, b: string, sep: char)
    ensures Split(a + [sep] + b, sep) == Split(a, sep) + Split(b, sep)
  {
    var s := a + [sep] + b;
    if a == [] {
      assert s[1..] == b;
    } else {
      assert s[0] == a[0];
      assert s[1..] == a[1..] + [sep] + b;
      SplitAtSep(a[1..], b, sep);
      if a[0] != sep {
        SplitHeadPiece(a[0], Split(a[1..], sep), Split(b, sep));
      }
    }
  }

  lemma SplitHeadPiece(c: char, left: seq<string>, right: seq<string>)
    requires left != []
    ensures [[c] + (left + right)[0]] + (left + right)[1..] == ([[c] + left[0]] + left[1..]) + right
  {
    assert (left + right)[1..] == left[1..] + right;
  }

  /** Joining pieces that do not contain the separator and splitting again
      gives the pieces back. */
  lemma {:induction false} SplitJoin(parts: seq<string>, sep: char)
    requires parts != []
    requires forall k :: 0 <= k < |parts| ==> NoChar(parts[k], sep)
    ensures Split(Join(parts, [sep]), sep) == parts
  {
    if |parts| == 1 {
      SplitWithoutSep(parts[0], sep);
    } else {
      SplitJoin(parts[1..], sep);
      SplitAfterPiece(parts[0], Join(parts[1..], [sep]), sep);
      assert [parts[0]] + parts[1..] == parts;
    }
  }

  function DigitChar(d: nat): char
    requires d < 10
  {
    ('0' as int + d) as char
  }

  function DigitValue(c: char): nat
    requires IsDigit(c)
  {
    c as int - '0' as int
  }

  /** Decimal rendering of a natural number, as String(n) does. */
  function NatToString(n: nat): (r: string)
    ensures |r| >= 1
    ensures forall i :: 0 <= i < |r| ==> IsDigit(r[i])
    ensures n == 0 <==> r == "0"
    ensures n > 0 ==> r[0] != '0'
  {
    if n < 10 then [DigitChar(n)] else NatToString(n / 10) + [DigitChar(n % 10)]
  }

  function IntToString(n: int): (r: string)
    ensures |r| >= 1
  {
    if n < 0 then "-" + NatToString(-n) else NatToString(n)
  }

  /** The value of a string of decimal digits (leading zeros allowed). */
  function DigitsValue(s: string): nat
    requires forall i :: 0 <= i < |s| ==> IsDigit(s[i])
  {
    if s == [] then 0 else DigitsValue(s[..|s| - 1]) * 10 + DigitValue(s[|s| - 1])
  }

  /** Reading back the decimal rendering of a natural number gives it back. */
  lemma {:induction false} DigitsValueOfNatToString(n: nat)
    ensures DigitsValue(NatToString(n)) == n
  {
    if n >= 10 {
      DigitsValueOfNatToString(n / 10);
      var r := NatToString(n);
      assert r[..|r| - 1] == NatToString(n / 10);
    }
  }

  lemma {:induction false} NatToStringLength(n: nat, k: nat)
    requires n < Pow10(k) && k >= 1
    ensures |NatToString(n)| <= k
  {
    if n >= 10 {
      NatToStringLength(n / 10, k - 1);
    }
  }

  lemma {:induction false} NatToStringLengthAtLeast(n: nat, k: nat)
    requires n >= Pow10(k)
    ensures |NatToString(n)| > k
  {
    if k > 0 {
      NatToStringLengthAtLeast(n / 10, k - 1);
    }
  }

  function Pow10(k: nat): (r: nat)
    ensures r >= 1
  {
    if k == 0 then 1 else 10 * Pow10(k - 1)
  }

  /** s.replace(/\D/g, ""): the ASCII digits of s, in order. */
  function DigitsOnly(s: string): (r: string)
    ensures |r| <= |s|
    ensures forall i :: 0 <= i < |r| ==> IsDigit(r[i])
  {
    if s == [] then []
    else if IsDigit(s[0]) then [s[0]] + DigitsOnly(s[1..])
    else DigitsOnly(s[1..])
  }

  lemma {:induction false} DigitsOnlyOfDigits(s: string)
    requires forall i :: 0 <= i < |s| ==> IsDigit(s[i])
    ensures DigitsOnly(s) == s
  {
    if s != [] {
      DigitsOnlyOfDigits(s[1..]);
    }
  }

  /** The digits of a concatenation are the digits of each part. */
  lemma {:induction false} DigitsOnlyAppend(a: string, b: string)
    ensures DigitsOnly(a + b) == DigitsOnly(a) + DigitsOnly(b)
  {
    if a != [] {
      assert (a + b)[1..] == a[1..] + b;
      DigitsOnlyAppend(a[1..], b);
    } else {
      assert a + b == b;
    }
  }

  /** Digits appended on the right shift the value left. */
  lemma {:induction false} DigitsValueAppend(a: string, b: string)
    requires forall i :: 0 <= i < |a| ==> IsDigit(a[i])
    requires forall i :: 0 <= i < |b| ==> IsDigit(b[i])
    ensures DigitsValue(a + b) == DigitsValue(a) * Pow10(|b|) + DigitsValue(b)
    decreases |b|
  {
    if b == [] {
      assert a + b == a;
    } else {
      var ab := a + b;
      var b' := b[..|b| - 1];
      assert ab[..|ab| - 1] == a + b';
      assert ab[|ab| - 1] == b[|b| - 1];
      DigitsValueAppend(a, b');
      ShiftDigit(DigitsValue(a), Pow10(|b'|), DigitsValue(b'), DigitValue(b[|b| - 1]));
    }
  }

  lemma ShiftDigit(x: int, p: int, y: int, d: int)
    ensures (x * p + y) * 10 + d == x * (10 * p) + (y * 10 + d)
  {
  }

  /** Leading zeros do not change the value. */
  lemma {:induction false} DigitsValueLeadingZeros(k: nat, s: string)
    requires forall i :: 0 <= i < |s| ==> IsDigit(s[i])
    ensures DigitsValue(Repeat('0', k) + s) == DigitsValue(s)
  {
    DigitsValueOfZeros(k);
    DigitsValueAppend(Repeat('0', k), s);
  }

  lemma {:induction false} DigitsValueOfZeros(k: nat)
    ensures DigitsValue(Repeat('0', k)) == 0
  {
    if k > 0 {
      assert Repeat('0', k)[..k - 1] == Repeat('0', k - 1);
      DigitsValueOfZeros(k - 1);
    }
  }

  /** String(cents).padStart(2, "0") */
  function CentsText(c: nat): (t: string)
    requires c < 100
    ensures |t| == 2 && IsDigit(t[0]) && IsDigit(t[1])
  {
    NatToStringLength(c, 2);
    PadStartWith(NatToString(c), 2, '0')
  }

  /** The two-digit cents text reads back as the cents. */
  lemma CentsValue(c: nat)
    requires c < 100
    ensures DigitsValue(CentsText(c)) == c
  {
    var t := NatToString(c);
    DigitsValueOfNatToString(c);
    NatToStringLength(c, 2);
    if |t| < 2 {
      DigitsValueLeadingZeros(2 - |t|, t);
      assert CentsText(c) == Repeat('0', 2 - |t|) + t;
    } else {
      assert CentsText(c) == t;
    }
  }

  /** s.replace(/\s/g, ""): s without its white space. */
  function RemoveSpaces(s: string): (r: string)
    ensures forall i :: 0 <= i < |r| ==> !IsSpace(r[i])
  {
    if s == [] then []
    else if IsSpace(s[0]) then RemoveSpaces(s[1..])
    else [s[0]] + RemoveSpaces(s[1..])
  }

  /** Text without white space is left as it is. */
  lemma {:induction false} RemoveSpacesOfUnspaced(s: string)
    requires forall i :: 0 <= i < |s| ==> !IsSpace(s[i])
    ensures RemoveSpaces(s) == s
  {
    if s != [] {
      RemoveSpacesOfUnspaced(s[1..]);
    }
  }

  /** Text made only of white space is removed entirely. */
  lemma {:induction false} RemoveSpacesOfBlank(s: string)
    requires forall i :: 0 <= i < |s| ==> IsSpace(s[i])
    ensures RemoveSpaces(s) == ""
  {
    if s != [] {
      RemoveSpacesOfBlank(s[1..]);
    }
  }

  /** s.replace(/x/g, y) for a single character x. */
  function ReplaceAllChar(s: string, x: char, y: string): (r: string)
  {
    if s == [] then []
    else (if s[0] == x then y else [s[0]]) + ReplaceAllChar(s[1..], x, y)
  }

  /** Every character of s satisfies p. */
  predicate AllChars(s: string, p: char -> bool) {
    forall i :: 0 <= i < |s| ==> p(s[i])
  }

  /** Deleting every x keeps the other characters and leaves no x. */
  lemma {:induction false} RemoveCharKeeps(s: string, x: char, p: char -> bool)
    requires AllChars(s, p)
    ensures AllChars(ReplaceAllChar(s, x, ""), p)
    ensures NoChar(ReplaceAllChar(s, x, ""), x)
  {
    if s != [] {
      RemoveCharKeeps(s[1..], x, p);
    }
  }

  /** The pieces of a split are made of the characters of the string. */
  lemma {:induction false} SplitKeepsChars(s: string, sep: char, p: char -> bool)
    requires AllChars(s, p)
    ensures forall k :: 0 <= k < |Split(s, sep)| ==> AllChars(Split(s, sep)[k], p)
  {
    if s != [] {
      SplitKeepsChars(s[1..], sep, p);
    }
  }

  /** A join is made of the characters of the pieces and the separator. */
  lemma {:induction false} JoinKeepsChars(parts: seq<string>, sep: string, p: char -> bool)
    requires forall k :: 0 <= k < |parts| ==> AllChars(parts[k], p)
    requires AllChars(sep, p)
    ensures AllChars(Join(parts, sep), p)
  {
    if |parts| > 1 {
      JoinKeepsChars(parts[1..], sep, p);
      var rest := Join(parts[1..], sep);
      var j := parts[0] + sep + rest;
      forall i | 0 <= i < |j| ensures p(j[i]) {
        if i < |parts[0]| {
        } else if i < |parts[0]| + |sep| {
          assert j[i] == sep[i - |parts[0]|];
        } else {
          assert j[i] == rest[i - |parts[0]| - |sep|];
        }
      }
    }
  }

  /** s.replace(x, y) for a single character x: only the first occurrence. */
  function ReplaceFirstChar(s: string, x: char, y: string): string
  {
    if s == [] then []
    else if s[0] == x then y + s[1..]
    else [s[0]] + ReplaceFirstChar(s[1..], x, y)
  }

  /** Replacing a character that does not occur changes nothing. */
  lemma {:induction false} ReplaceAllCharAbsent(s: string, x: char, y: string)
    requires NoChar(s, x)
    ensures ReplaceAllChar(s, x, y) == s
  {
    if s != [] {
      ReplaceAllCharAbsent(s[1..], x, y);
    }
  }

  /** The first occurrence of x is the one after a prefix without x. */
  lemma {:induction false} ReplaceFirstCharAt(w: string, rest: string, x: char, y: string)
    requires NoChar(w, x)
    ensures ReplaceFirstChar(w + [x] + rest, x, y) == w + y + rest
  {
    if w == [] {
      assert w + [x] + rest == [x] + rest;
    } else {
      assert (w + [x] + rest)[1..] == w[1..] + [x] + rest;
      ReplaceFirstCharAt(w[1..], rest, x, y);
    }
  }

  /** s.replace(/\s+/g, " "): every maximal run of white space becomes one space. */
  function CollapseSpaces(s: string): (r: string)
    decreases |s|
  {
    if s == [] then []
    else if IsSpace(s[0]) then " " + CollapseSpaces(TrimStart(s))
    else [s[0]] + CollapseSpaces(s[1..])
  }

  /** The only white space is single ' ' characters. */
  predicate Collapsed(s: string) {
    forall i :: 0 <= i < |s| && IsSpace(s[i]) ==> s[i] == ' ' && (i + 1 < |s| ==> !IsSpace(s[i + 1]))
  }

  /** A string whose first character is not white space keeps it first. */
  lemma CollapseHead(s: string)
    requires s != [] && !IsSpace(s[0])
    ensures CollapseSpaces(s) != [] && CollapseSpaces(s)[0] == s[0]
  {
  }

  /** Collapsing leaves no run of white space and no white space but ' '. */
  lemma {:induction false} CollapseSpacesCollapsed(s: string)
    ensures Collapsed(CollapseSpaces(s))
    decreases |s|
  {
    if s == [] {
    } else if IsSpace(s[0]) {
      var t := TrimStart(s);
      TrimStartShape(s);
      CollapseSpacesCollapsed(t);
      if t != [] {
        CollapseHead(t);
      }
      var r := CollapseSpaces(s);
      assert r == " " + CollapseSpaces(t);
      forall i | 0 <= i < |r| && IsSpace(r[i]) ensures r[i] == ' ' && (i + 1 < |r| ==> !IsSpace(r[i + 1])) {
        if i > 0 {
          assert r[i] == CollapseSpaces(t)[i - 1];
        }
      }
    } else {
      CollapseSpacesCollapsed(s[1..]);
      var r := CollapseSpaces(s);
      assert r == [s[0]] + CollapseSpaces(s[1..]);
      forall i | 0 <= i < |r| && IsSpace(r[i]) ensures r[i] == ' ' && (i + 1 < |r| ==> !IsSpace(r[i + 1])) {
        assert r[i] == CollapseSpaces(s[1..])[i - 1];
      }
    }
  }

  /** A collapsed string is left as it is. */
  lemma {:induction false} CollapseOfCollapsed(s: string)
    requires Collapsed(s)
    ensures CollapseSpaces(s) == s
    decreases |s|
  {
    if s != [] {
      assert Collapsed(s[1..]) by {
        forall i | 0 <= i < |s[1..]| && IsSpace(s[1..][i])
          ensures s[1..][i] == ' ' && (i + 1 < |s[1..]| ==> !IsSpace(s[1..][i + 1])) {
          assert s[1..][i] == s[i + 1];
        }
      }
      CollapseOfCollapsed(s[1..]);
      if IsSpace(s[0]) {
        assert s[1..] == [] || !IsSpace(s[1]);
        assert TrimStart(s) == TrimStart(s[1..]);
        TrimStartOfTrimmed(s[1..]);
        assert s == " " + s[1..];
      } else {
        assert s == [s[0]] + s[1..];
      }
    }
  }

  /** A non-empty string collapses to a non-empty one that ends in white
      space exactly when the original does. */
  lemma {:induction false} CollapseLast(s: string)
    requires s != []
    ensures var r := CollapseSpaces(s);
            r != [] && (IsSpace(r[|r| - 1]) <==> IsSpace(s[|s| - 1]))
    decreases |s|
  {
    if IsSpace(s[0]) {
      var t := TrimStart(s);
      TrimStartShape(s);
      if t != [] {
        CollapseLast(t);
        assert t[|t| - 1] == s[|s| - 1];
      } else {
        assert IsSpace(s[|s| - 1]);
      }
    } else if |s| > 1 {
      CollapseLast(s[1..]);
    }
  }

  /** The characters of a collapsed string are ' ' or come from the original. */
  lemma {:induction false} CollapseChars(s: string)
    ensures forall c :: c in CollapseSpaces(s) ==> c == ' ' || c in s
    decreases |s|
  {
    if s == [] {
    } else if IsSpace(s[0]) {
      var t := TrimStart(s);
      TrimStartShape(s);
      CollapseChars(t);
      SuffixChars(s, |s| - |t|);
      assert CollapseSpaces(s) == " " + CollapseSpaces(t);
    } else {
      CollapseChars(s[1..]);
      SuffixChars(s, 1);
      assert CollapseSpaces(s) == [s[0]] + CollapseSpaces(s[1..]);
    }
  }

  lemma SuffixChars(s: string, k: nat)
    requires k <= |s|
    ensures forall c :: c in s[k..] ==> c in s
  {
    forall c | c in s[k..] ensures c in s {
      var j :| 0 <= j < |s[k..]| && s[k..][j] == c;
      assert s[k + j] == c;
    }
  }

  /** Lower-casing maps white space to itself and nothing else to white space. */
  lemma LowerCharSpace(c: char)
    ensures IsSpace(LowerChar(c)) <==> IsSpace(c)
  {
  }

  /** The longest prefix without white space. */
  function Word(s: string): (w: string)
    ensures |w| <= |s| && w == s[..|w|]
    ensures forall i :: 0 <= i < |w| ==> !IsSpace(w[i])
    ensures |w| < |s| ==> IsSpace(s[|w|])
    decreases |s|
  {
    if s == [] || IsSpace(s[0]) then [] else [s[0]] + Word(s[1..])
  }

  /** The words of a text: its maximal runs of characters other than white
      space, in order, as s.split(/\s+/) gives them once the empty pieces
      at the ends are dropped. */
  function Words(s: string): seq<string>
    decreases |s|
  {
    if s == [] then []
    else if IsSpace(s[0]) then Words(s[1..])
    else [Word(s)] + Words(s[|Word(s)|..])
  }

  /** A leading white-space character does not start a word. */
  lemma WordsSpaceCons(c: char, s: string)
    requires IsSpace(c)
    ensures Words([c] + s) == Words(s)
  {
    assert ([c] + s)[1..] == s;
  }

  /** A leading character other than white space starts the first word,
      or is a word of its own when white space follows it. */
  lemma WordsCons(c: char, s: string)
    requires !IsSpace(c)
    ensures Words([c] + s) == if s != [] && !IsSpace(s[0]) then [[c] + Words(s)[0]] + Words(s)[1..]
                              else [[c]] + Words(s)
  {
    var cs := [c] + s;
    assert cs[1..] == s;
    assert Word(cs) == [c] + Word(s);
    assert cs[|Word(cs)|..] == s[|Word(s)|..];
  }

  /** White space alone has no words. */
  lemma {:induction false} WordsOfBlank(sp: string)
    requires forall i :: 0 <= i < |sp| ==> IsSpace(sp[i])
    ensures Words(sp) == []
    decreases |sp|
  {
    if sp != [] {
      WordsOfBlank(sp[1..]);
    }
  }

  /** White space before a text does not change its words. */
  lemma {:induction false} WordsSpacesBefore(sp: string, m: string)
    requires forall i :: 0 <= i < |sp| ==> IsSpace(sp[i])
    ensures Words(sp + m) == Words(m)
    decreases |sp|
  {
    if sp == [] {
      assert sp + m == m;
    } else {
      assert sp + m == [sp[0]] + (sp[1..] + m);
      WordsSpaceCons(sp[0], sp[1..] + m);
      WordsSpacesBefore(sp[1..], m);
    }
  }

  /** White space after a text does not change its words. */
  lemma {:induction false} WordsSpacesAfter(m: string, sp: string)
    requires forall i :: 0 <= i < |sp| ==> IsSpace(sp[i])
    ensures Words(m + sp) == Words(m)
    decreases |m|
  {
    if m == [] {
      assert m + sp == sp;
      WordsOfBlank(sp);
    } else {
      assert m + sp == [m[0]] + (m[1..] + sp);
      assert m == [m[0]] + m[1..];
      WordsSpacesAfter(m[1..], sp);
      if IsSpace(m[0]) {
        WordsSpaceCons(m[0], m[1..] + sp);
        WordsSpaceCons(m[0], m[1..]);
      } else {
        WordsCons(m[0], m[1..] + sp);
        WordsCons(m[0], m[1..]);
        if m[1..] == [] {
          assert m[1..] + sp == sp;
        } else {
          assert (m[1..] + sp)[0] == m[1];
        }
      }
    }
  }

  /** Lower-casing distributes over concatenation. */
  lemma ToLowerConcat(a: string, b: string)
    ensures ToLower(a + b) == ToLower(a) + ToLower(b)
  {
  }

  /** Lower-casing white space gives white space. */
  lemma LowerOfBlank(sp: string)
    requires forall i :: 0 <= i < |sp| ==> IsSpace(sp[i])
    ensures forall i :: 0 <= i < |ToLower(sp)| ==> IsSpace(ToLower(sp)[i])
  {
    forall i | 0 <= i < |sp| ensures IsSpace(ToLower(sp)[i]) {
      LowerCharSpace(sp[i]);
    }
  }

  lemma WordsOfLowerTrimEnd(a: string)
    ensures Words(ToLower(TrimEnd(a))) == Words(ToLower(a))
  {
    TrimEndShape(a);
    var t := TrimEnd(a);
    var post := a[|t|..];
    assert a == t + post;
    ToLowerConcat(t, post);
    LowerOfBlank(post);
    WordsSpacesAfter(ToLower(t), ToLower(post));
  }

  /** Lower-casing and trimming give the words of the lower-cased text. */
  lemma WordsOfLowerTrim(s: string)
    ensures Words(ToLower(Trim(s))) == Words(ToLower(s))
  {
    var a := TrimStart(s);
    assert Words(ToLower(s)) == Words(ToLower(a)) by {
      TrimStartShape(s);
      var pre := s[..|s| - |a|];
      assert s == pre + a;
      ToLowerConcat(pre, a);
      LowerOfBlank(pre);
      WordsSpacesBefore(ToLower(pre), ToLower(a));
    }
    WordsOfLowerTrimEnd(a);
  }

  /** Collapsing runs of white space keeps the words. */
  lemma {:induction false} WordsOfCollapse(s: string)
    ensures Words(CollapseSpaces(s)) == Words(s)
    decreases |s|
  {
    if s == [] {
    } else if IsSpace(s[0]) {
      var t := TrimStart(s);
      TrimStartShape(s);
      WordsOfCollapse(t);
      WordsSpaceCons(' ', CollapseSpaces(t));
      assert s == s[..|s| - |t|] + t;
      WordsSpacesBefore(s[..|s| - |t|], t);
    } else {
      var s1 := s[1..];
      assert s == [s[0]] + s1;
      WordsOfCollapse(s1);
      WordsCons(s[0], CollapseSpaces(s1));
      WordsCons(s[0], s1);
      if s1 != [] && !IsSpace(s1[0]) {
        CollapseHead(s1);
      }
    }
  }

  /** No white space at either end. */
  predicate Unpadded(s: string) {
    s == [] || (!IsSpace(s[0]) && !IsSpace(s[|s| - 1]))
  }

  /** A suffix of a collapsed text is collapsed. */
  lemma CollapsedSuffix(s: string, j: nat)
    requires Collapsed(s) && j <= |s|
    ensures Collapsed(s[j..])
  {
    var u := s[j..];
    forall i | 0 <= i < |u| && IsSpace(u[i]) ensures u[i] == ' ' && (i + 1 < |u| ==> !IsSpace(u[i + 1])) {
      assert u[i] == s[j + i];
    }
  }

  /** A text that starts with a character other than white space starts
      with its first word. */
  lemma WordsUnfold(s: string)
    requires s != [] && !IsSpace(s[0])
    ensures Words(s) == [Word(s)] + Words(s[|Word(s)|..])
  {
  }

  /** In a collapsed text without white space at its ends, a word that
      stops early is followed by one space and more text. */
  lemma WordSpaceAfter(s: string)
    requires Collapsed(s) && Unpadded(s) && |Word(s)| < |s|
    ensures |Word(s)| + 1 < |s| && s[|Word(s)|] == ' '
  {
  }

  /** What follows a space inside a collapsed text without white space at
      its ends is again such a text, and has words. */
  lemma NormalRest(s: string, k: int)
    requires Collapsed(s) && Unpadded(s) && 0 <= k && k + 1 < |s| && IsSpace(s[k])
    ensures Collapsed(s[k + 1..]) && Unpadded(s[k + 1..])
    ensures Words(s[k..]) == Words(s[k + 1..]) && Words(s[k + 1..]) != []
  {
    var u := s[k + 1..];
    CollapsedSuffix(s, k + 1);
    assert u[0] == s[k + 1] && u[|u| - 1] == s[|s| - 1];
    assert s[k..] == [s[k]] + u;
    WordsSpaceCons(s[k], u);
    NoWordsUnpadded(u);
  }

  /** In a collapsed text without white space at its ends, nothing but the
      first word is left exactly when no word is left. */
  lemma RestEmptyIff(s: string)
    requires Collapsed(s) && Unpadded(s) && s != []
    ensures |Word(s)| == |s| <==> Words(s[|Word(s)|..]) == []
  {
    var k := |Word(s)|;
    if k < |s| {
      WordSpaceAfter(s);
      NormalRest(s, k);
    } else {
      assert s[k..] == [];
    }
  }

  /** Texts with the same words and no white space at their ends have the
      same first word, and the same words after it. */
  lemma FirstWordsAgree(s: string, t: string)
    requires Unpadded(s) && Unpadded(t) && s != [] && t != [] && Words(s) == Words(t)
    ensures Word(s) == Word(t) && Words(s[|Word(s)|..]) == Words(t[|Word(t)|..])
  {
    WordsUnfold(s);
    WordsUnfold(t);
    var ws, wt := Words(s), Words(t);
    assert ws[0] == Word(s) && ws[1..] == Words(s[|Word(s)|..]);
    assert wt[0] == Word(t) && wt[1..] == Words(t[|Word(t)|..]);
  }

  lemma SplitAt(s: string, k: int)
    requires 0 <= k < |s|
    ensures s == s[..k] + [s[k]] + s[k + 1..]
  {
  }

  /** A text without white space at its ends has words unless it is empty. */
  lemma NoWordsUnpadded(s: string)
    requires Unpadded(s) && s != []
    ensures Words(s) != []
  {
  }

  /** A collapsed text without white space at its ends is determined by its
      words. */
  lemma {:induction false} SameWordsSameText(s: string, t: string)
    requires Collapsed(s) && Unpadded(s) && Collapsed(t) && Unpadded(t)
    requires Words(s) == Words(t)
    ensures s == t
    decreases |s|
  {
    if s == [] {
      if t != [] {
        NoWordsUnpadded(t);
      }
    } else if t == [] {
      NoWordsUnpadded(s);
    } else {
      var k := |Word(s)|;
      FirstWordsAgree(s, t);
      RestEmptyIff(s);
      RestEmptyIff(t);
      if k < |s| {
        WordSpaceAfter(s);
        WordSpaceAfter(t);
        NormalRest(s, k);
        NormalRest(t, k);
        SameWordsSameText(s[k + 1..], t[k + 1..]);
        SplitAt(s, k);
        SplitAt(t, k);
      }
    }
  }

  /** Lexicographic order on code points: the model's stand-in for
      localeCompare, which depends on the locale's collation tables. */
  predicate LessOrEqual(a: string, b: string)
    decreases |a|
  {
    if a == [] then true
    else if b == [] then false
    else if a[0] != b[0] then a[0] < b[0]
    else LessOrEqual(a[1..], b[1..])
  }

  lemma {:induction false} LessOrEqualTotal(a: string, b: string)
    ensures LessOrEqual(a, b) || LessOrEqual(b, a)
    decreases |a|
  {
    if a != [] && b != [] && a[0] == b[0] {
      LessOrEqualTotal(a[1..], b[1..]);
    }
  }

  lemma {:induction false} LessOrEqualTransitive(a: string, b: string, c: string)
    requires LessOrEqual(a, b) && LessOrEqual(b, c)
    ensures LessOrEqual(a, c)
    decreases |a|
  {
    if a != [] && b != [] && c != [] && a[0] == b[0] && b[0] == c[0] {
      LessOrEqualTransitive(a[1..], b[1..], c[1..]);
    }
  }

  lemma {:induction false} LessOrEqualAntisymmetric(a: string, b: string)
    requires LessOrEqual(a, b) && LessOrEqual(b, a)
    ensures a == b
    decreases |a|
  {
    if a != [] && b != [] {
      LessOrEqualAntisymmetric(a[1..], b[1..]);
      assert a == [a[0]] + a[1..];
      assert b == [b[0]] + b[1..];
    }
  }
}
