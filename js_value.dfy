/** The dynamically typed values the point-of-sale code passes around (parsed
    JSON, stored records, request payloads) and the JavaScript operators it
    applies to them: truthiness, `||`, `??`, optional property access,
    `Number(x)`, `String(x)`, `===` and object spread. */
module JsValue {
  import opened Text

  /** A JavaScript number: a finite value, or a non-finite one (NaN; the
      infinities are folded into it, since the code only ever tests them
      with Number.isFinite or `|| 0`). */
  datatype Number = Finite(r: real) | NaN

  /** An object holds its properties and the order in which its keys were
      first added (Object.keys order). */
  datatype Value =
    | Undefined
    | Null
    | Bool(b: bool)
    | Num(n: Number)
    | Str(s: string)
    | Arr(elems: seq<Value>)
    | Obj(fields: map<string, Value>, keys: seq<string>)

  datatype Option<T> = None | Some(value: T)

  function NumV(r: real): Value { Num(Finite(r)) }

  predicate Truthy(v: Value) {
    match v
    case Undefined => false
    case Null => false
    case Bool(b) => b
    case Num(n) => n.Finite? && n.r != 0.0
    case Str(s) => s != ""
    case Arr(_) => true
    case Obj(_, _) => true
  }

  predicate Nullish(v: Value) { v.Undefined? || v.Null? }

  /** a || b */
  function Or(a: Value, b: Value): (r: Value)
    ensures Truthy(a) ==> r == a
    ensures !Truthy(a) ==> r == b
  {
    if Truthy(a) then a else b
  }

  lemma OrTruthy(a: Value, b: Value)
    ensures Truthy(Or(a, b)) <==> Truthy(a) || Truthy(b)
  {
  }

  /** a ?? b */
  function Coalesce(a: Value, b: Value): (r: Value)
    ensures !Nullish(a) ==> r == a
    ensures Nullish(a) ==> r == b
  {
    if Nullish(a) then b else a
  }

  const EmptyObj: Value := Obj(map[], [])

  /** v?.k (and v.k on a value known to exist): properties of objects only;
      array indices and string properties are not modelled. */
  function Get(v: Value, k: string): (r: Value)
    ensures v.Obj? && k in v.fields ==> r == v.fields[k]
    ensures !(v.Obj? && k in v.fields) ==> r == Undefined
  {
    if v.Obj? && k in v.fields then v.fields[k] else Undefined
  }

  /** The properties { ...v } copies: an object's own; other values are
      taken to have none (the code spreads only objects). */
  function Spread(v: Value): (r: Value)
    ensures r.Obj?
    ensures v.Obj? ==> r == v
  {
    if v.Obj? then v else EmptyObj
  }

  /** { ...o, k: x }: the property is set; a new key goes last. */
  function Put(o: Value, k: string, x: Value): (r: Value)
    ensures r.Obj?
    ensures Get(r, k) == x
    ensures forall k' :: k' != k ==> Get(r, k') == Get(o, k')
  {
    var base := Spread(o);
    Obj(base.fields[k := x], if k in base.keys then base.keys else base.keys + [k])
  }

  /** Object.keys */
  function Keys(v: Value): (r: seq<string>)
    ensures v.Obj? ==> r == v.keys
  {
    if v.Obj? then v.keys else []
  }

  /** An object whose key list names each of its properties once. */
  ghost predicate WellFormedObj(v: Value) {
    v.Obj? && (forall i, j :: 0 <= i < j < |v.keys| ==> v.keys[i] != v.keys[j])
    && (forall k :: k in v.fields <==> k in v.keys)
  }

  lemma PutWellFormed(o: Value, k: string, x: Value)
    requires WellFormedObj(o)
    ensures WellFormedObj(Put(o, k, x))
  {
  }

  predicate IsDecimalText(s: string) {
    |s| >= 1 && forall i :: 0 <= i < |s| ==> IsDigit(s[i])
  }

  /** The value of the digits after a decimal point, each one a tenth of
      the value of the digits to its left. */
  function FractionValue(frac: string): (r: real)
    requires forall i :: 0 <= i < |frac| ==> IsDigit(frac[i])
    ensures 0.0 <= r <= 1.0
  {
    if frac == [] then 0.0 else (DigitValue(frac[0]) as real + FractionValue(frac[1..])) / 10.0
  }

  /** The value of "d.ddd" given the digits before the point and the ones after. */
  function DecimalValue(whole: string, frac: string): real
    requires forall i :: 0 <= i < |whole| ==> IsDigit(whole[i])
    requires forall i :: 0 <= i < |frac| ==> IsDigit(frac[i])
  {
    DigitsValue(whole) as real + FractionValue(frac)
  }

  function IndexOfChar(s: string, c: char): (r: int)
    ensures -1 <= r < |s|
    ensures r >= 0 ==> s[r] == c && forall i :: 0 <= i < r ==> s[i] != c
    ensures r == -1 ==> forall i :: 0 <= i < |s| ==> s[i] != c
  {
    if s == [] then -1
    else if s[0] == c then 0
    else var t := IndexOfChar(s[1..], c); if t == -1 then -1 else t + 1
  }

  predicate AllDigits(s: string) { forall i :: 0 <= i < |s| ==> IsDigit(s[i]) }

  /** An unsigned decimal literal: digits, optionally a point and more digits,
      with at least one digit in total. */
  function ParseUnsigned(s: string): (r: Number)
    ensures r.Finite? ==> r.r >= 0.0
  {
    var p := IndexOfChar(s, '.');
    if p == -1 then
      if IsDecimalText(s) then Finite(DigitsValue(s) as real) else NaN
    else
      var whole := s[..p];
      var frac := s[p + 1..];
      if AllDigits(whole) && AllDigits(frac) && |whole| + |frac| >= 1
      then Finite(DecimalValue(whole, frac))
      else NaN
  }

  /** Number(s) for a string: blank text is 0; otherwise an optionally signed
      decimal literal (exponent, hexadecimal and "Infinity" forms are not
      modelled and read as not finite). */
  function ParseNumber(s: string): (r: Number)
    ensures Trim(s) == "" ==> r == Finite(0.0)
    ensures AllDigits(Trim(s)) ==> r == Finite(DigitsValue(Trim(s)) as real)
  {
    var t := Trim(s);
    if t == "" then Finite(0.0)
    else if t[0] == '-' then
      (match ParseUnsigned(t[1..]) case Finite(x) => Finite(-x) case NaN => NaN)
    else if t[0] == '+' then ParseUnsigned(t[1..])
    else ParseUnsigned(t)
  }

  /** Number(v) */
  function ToNumber(v: Value): (r: Number)
    ensures v.Num? ==> r == v.n
    ensures Nullish(v) ==> (r.Finite? <==> v.Null?)
  {
    match v
    case Undefined => NaN
    case Null => Finite(0.0)
    case Bool(b) => Finite(if b then 1.0 else 0.0)
    case Num(n) => n
    case Str(s) => ParseNumber(s)
    case Arr(_) => NaN
    case Obj(_, _) => NaN
  }

  /** Number(v) || 0 */
  function NumberOrZero(v: Value): (r: real)
    ensures ToNumber(v).Finite? ==> r == ToNumber(v).r
    ensures ToNumber(v).NaN? ==> r == 0.0
  {
    match ToNumber(v) case Finite(x) => x case NaN => 0.0
  }

  /** a + b on numbers: NaN as soon as either side is. */
  function Add(a: Number, b: Number): (r: Number)
    ensures r.Finite? <==> a.Finite? && b.Finite?
    ensures r.Finite? ==> r.r == a.r + b.r
  {
    if a.Finite? && b.Finite? then Finite(a.r + b.r) else NaN
  }

  /** a - b on numbers. */
  function Sub(a: Number, b: Number): (r: Number)
    ensures r.Finite? <==> a.Finite? && b.Finite?
    ensures r.Finite? ==> r.r == a.r - b.r
  {
    if a.Finite? && b.Finite? then Finite(a.r - b.r) else NaN
  }

  /** a * b on numbers. */
  function Mul(a: Number, b: Number): (r: Number)
    ensures r.Finite? <==> a.Finite? && b.Finite?
    ensures r.Finite? ==> r.r == a.r * b.r
  {
    if a.Finite? && b.Finite? then Finite(a.r * b.r) else NaN
  }

  /** Number.isFinite(Number(v)) */
  predicate IsFiniteNumber(v: Value) { ToNumber(v).Finite? }

  function Floor(r: real): int { r.Floor }

  /** Math.ceil */
  function Ceil(r: real): (c: int)
    ensures c as real >= r && (c - 1) as real < r
  {
    if r.Floor as real == r then r.Floor else r.Floor + 1
  }

  /** Math.round: the nearest integer, halves going up. */
  function Round(r: real): (n: int)
    ensures r - 0.5 < n as real <= r + 0.5
  {
    (r + 0.5).Floor
  }

  /** The first k decimals of a fraction 0 <= f < 1, stopping early once
      the rest is zero. */
  function FractionText(f: real, k: nat): (s: string)
    requires 0.0 <= f < 1.0
    ensures |s| <= k
    ensures forall i :: 0 <= i < |s| ==> IsDigit(s[i])
    decreases k
  {
    if k == 0 || f == 0.0 then ""
    else
      var x := f * 10.0;
      [DigitChar(x.Floor)] + FractionText(x - x.Floor as real, k - 1)
  }

  /** String(n) for a finite number. Whole numbers are written exactly;
      other values with their integer part, a point and up to six
      decimals. */
  function NumberToString(r: real): (s: string)
    ensures r.Floor as real == r ==> s == IntToString(r.Floor)
  {
    if r.Floor as real == r then IntToString(r.Floor)
    else
      var sign := if r < 0.0 then "-" else "";
      var a := if r < 0.0 then -r else r;
      sign + NatToString(a.Floor) + "." + FractionText(a - a.Floor as real, 6)
  }

  /** String(v) */
  function ToStr(v: Value): (s: string)
    ensures v.Str? ==> s == v.s
    ensures v.Undefined? ==> s == "undefined"
    ensures v.Null? ==> s == "null"
  {
    match v
    case Undefined => "undefined"
    case Null => "null"
    case Bool(b) => if b then "true" else "false"
    case Num(Finite(r)) => NumberToString(r)
    case Num(NaN) => "NaN"
    case Str(s) => s
    case Arr(xs) => JoinValues(xs)
    case Obj(_, _) => "[object Object]"
  }

  /** Array.prototype.join(","), where nullish elements become "". */
  function JoinValues(xs: seq<Value>): string
    decreases xs, 0
  {
    if xs == [] then ""
    else
      var first := if Nullish(xs[0]) then "" else ToStr(xs[0]);
      if |xs| == 1 then first else first + "," + JoinValues(xs[1..])
  }

  /** String(v || "") : the text of a truthy value, "" otherwise. */
  function TextOr(v: Value): (s: string)
    ensures !Truthy(v) ==> s == ""
    ensures v.Str? ==> s == v.s
  {
    if Truthy(v) then ToStr(v) else ""
  }

  /** String(v ?? ""): nullish values become the empty string. */
  function NullishText(v: Value): (s: string)
    ensures Nullish(v) ==> s == ""
    ensures !Nullish(v) ==> s == ToStr(v)
  {
    ToStr(Coalesce(v, Str("")))
  }

  lemma TruthyNumberText(r: real)
    requires r != 0.0
    ensures TextOr(NumV(r)) != ""
  {
    if r.Floor as real == r {
    } else {
    }
  }

  /** a === b. Objects and arrays are compared by contents, since the model
      has no reference identity. */
  predicate StrictEq(a: Value, b: Value) {
    match a
    case Num(NaN) => false
    case _ => a == b
  }

  lemma StrictEqReflexiveExceptNaN(a: Value)
    ensures StrictEq(a, a) <==> a != Num(NaN)
  {
  }

  /** typeof v === "boolean" ? v : fallback */
  function BoolOr(v: Value, fallback: bool): (r: bool)
    ensures v.Bool? ==> r == v.b
    ensures !v.Bool? ==> r == fallback
  {
    if v.Bool? then v.b else fallback
  }

  /** typeof v === "string" ? v : fallback */
  function StringOr(v: Value, fallback: string): (r: string)
    ensures v.Str? ==> r == v.s
    ensures !v.Str? ==> r == fallback
  {
    if v.Str? then v.s else fallback
  }

  /** xs.map(f).filter(Boolean), for an f that maps the elements to drop
      to null (None). */
  function FilterMap<A, B>(xs: seq<A>, f: A -> Option<B>): (r: seq<B>)
    ensures |r| <= |xs|
    decreases |xs|
  {
    if xs == [] then []
    else
      var init := FilterMap(xs[..|xs| - 1], f);
      match f(xs[|xs| - 1])
      case None => init
      case Some(y) => init + [y]
  }

  /** The kept results of a concatenation are those of each part, in order. */
  lemma {:induction false} FilterMapAppend<A, B>(a: seq<A>, b: seq<A>, f: A -> Option<B>)
    ensures FilterMap(a + b, f) == FilterMap(a, f) + FilterMap(b, f)
    decreases |b|
  {
    if b == [] {
      assert a + b == a;
    } else {
      var b' := b[..|b| - 1];
      assert (a + b)[..|a + b| - 1] == a + b';
      assert (a + b)[|a + b| - 1] == b[|b| - 1];
      FilterMapAppend(a, b', f);
      match f(b[|b| - 1]) {
        case None =>
        case Some(y) =>
          assert (FilterMap(a, f) + FilterMap(b', f)) + [y] == FilterMap(a, f) + (FilterMap(b', f) + [y]);
      }
    }
  }

  /** The kept results of a list with one more element. */
  lemma FilterMapSnoc<A, B>(xs: seq<A>, x: A, f: A -> Option<B>)
    ensures FilterMap(xs + [x], f) == FilterMap(xs, f) + (if f(x).Some? then [f(x).value] else [])
  {
    assert (xs + [x])[..|xs|] == xs;
  }

  /** onlyDigits: the digits of String(s || ""). */
  function OnlyDigits(s: Value): (d: string)
    ensures forall i :: 0 <= i < |d| ==> IsDigit(d[i])
  {
    DigitsOnly(TextOr(s))
  }

  /** The longest prefix of s made of decimal digits. */
  function LeadingDigits(s: string): (r: string)
    ensures r <= s && AllDigits(r)
    ensures r == s || !IsDigit(s[|r|])
  {
    if s != [] && IsDigit(s[0]) then [s[0]] + LeadingDigits(s[1..]) else []
  }

  lemma {:induction false} LeadingDigitsStop(d: string, rest: string)
    requires AllDigits(d)
    requires rest == [] || !IsDigit(rest[0])
    ensures LeadingDigits(d + rest) == d
  {
    if d != [] {
      assert (d + rest)[1..] == d[1..] + rest;
      LeadingDigitsStop(d[1..], rest);
    }
  }

  /** parseInt(s, 10): after leading white space and an optional sign, the
      longest run of digits; NaN when there is none. */
  function ParseInt(s: string): (r: Number)
    ensures r.Finite? ==> r.r == r.r.Floor as real
  {
    var t := TrimStart(s);
    var neg := t != [] && t[0] == '-';
    var u := if t != [] && (t[0] == '-' || t[0] == '+') then t[1..] else t;
    var d := LeadingDigits(u);
    if d == [] then NaN
    else Finite((if neg then -(DigitsValue(d) as int) else DigitsValue(d) as int) as real)
  }

  /** n || fallback for the integer parseInt returns: NaN and 0 are falsy. */
  function IntOr(n: Number, fallback: int): (r: int)
    ensures n.Finite? && n.r != 0.0 ==> r == n.r.Floor
    ensures !(n.Finite? && n.r != 0.0) ==> r == fallback
  {
    if n.Finite? && n.r != 0.0 then n.r.Floor else fallback
  }

  lemma DigitNotSpace(c: char)
    requires IsDigit(c)
    ensures !IsSpace(c) && c != '-' && c != '+' && c != '.' && c != ','
  {
  }

  /** parseInt reads back a decimal rendering, whatever non-digit text
      follows it. */
  lemma ParseIntOfNat(n: nat, rest: string)
    requires rest == [] || !IsDigit(rest[0])
    ensures ParseInt(NatToString(n) + rest) == Finite(n as real)
  {
    var d := NatToString(n);
    DigitNotSpace(d[0]);
    assert (d + rest)[0] == d[0];
    TrimStartOfTrimmed(d + rest);
    LeadingDigitsStop(d, rest);
    DigitsValueOfNatToString(n);
  }

  /** The properties kept by JavaScript's { ...a, ...b }: b's keys after
      a's, without repeating one a already has. */
  function NewKeys(ks: seq<string>, seen: seq<string>): (r: seq<string>)
    ensures forall k :: k in r <==> k in ks && k !in seen
  {
    if ks == [] then []
    else (if ks[0] in seen then [] else [ks[0]]) + NewKeys(ks[1..], seen)
  }

  lemma {:induction false} NewKeysAppend(a: seq<string>, b: seq<string>, seen: seq<string>)
    ensures NewKeys(a + b, seen) == NewKeys(a, seen) + NewKeys(b, seen)
  {
    if a != [] {
      assert (a + b)[0] == a[0] && (a + b)[1..] == a[1..] + b;
      NewKeysAppend(a[1..], b, seen);
      var head := if a[0] in seen then [] else [a[0]];
      assert NewKeys(a + b, seen) == head + NewKeys(a[1..] + b, seen);
    } else {
      assert a + b == b;
    }
  }

  /** Keys already filtered pass the same filter unchanged. */
  lemma {:induction false} NewKeysTwice(ks: seq<string>, seen: seq<string>)
    ensures NewKeys(NewKeys(ks, seen), seen) == NewKeys(ks, seen)
  {
    if ks != [] {
      NewKeysTwice(ks[1..], seen);
      var head := if ks[0] in seen then [] else [ks[0]];
      NewKeysAppend(head, NewKeys(ks[1..], seen), seen);
      if ks[0] !in seen {
        assert NewKeys(head, seen) == head by {
          assert head[1..] == [];
        }
      }
    }
  }

  /** Keys that were all seen add nothing. */
  lemma NewKeysAllSeen(ks: seq<string>, seen: seq<string>)
    requires forall k :: k in ks ==> k in seen
    ensures NewKeys(ks, seen) == []
  {
  }

  /** { ...a, ...b }: every property of b, and the properties of a that b
      does not set. */
  function Merge(a: Value, b: Value): (r: Value)
    ensures r.Obj?
  {
    var x := Spread(a);
    var y := Spread(b);
    Obj(x.fields + y.fields, x.keys + NewKeys(y.keys, x.keys))
  }

  /** A property of { ...a, ...b } is b's when b has it, a's otherwise. */
  lemma MergeGet(a: Value, b: Value, k: string)
    ensures Get(Merge(a, b), k) == (if k in Spread(b).fields then Spread(b).fields[k] else Get(a, k))
  {
  }

  /** Number("w.f") for digit strings w and f. */
  lemma PointedNumber(w: string, f: string)
    requires |w| >= 1 && AllDigits(w)
    requires |f| >= 1 && AllDigits(f)
    ensures ParseNumber(w + "." + f) == Finite(DecimalValue(w, f))
  {
    var t := w + "." + f;
    DigitNotSpace(t[0]);
    DigitNotSpace(t[|t| - 1]);
    TrimOfTrimmed(t);
    var p := IndexOfChar(t, '.');
    assert t[|w|] == '.';
    if p < |w| {
      DigitNotSpace(t[p]);
    }
    assert p == |w|;
    assert t[..p] == w;
    assert t[p + 1..] == f;
  }

  /** Two digits after the point are hundredths. */
  lemma TwoDigitFraction(c: string)
    requires |c| == 2 && AllDigits(c)
    ensures FractionValue(c) == (DigitsValue(c) as real) / 100.0
  {
    assert c[1..][1..] == [];
    assert c[..1][..0] == [];
    assert DigitsValue(c[..1]) == DigitValue(c[0]);
  }

  /** A product of two plain numbers. */
  function Times(a: real, b: real): real { a * b }

  function ArrayOrEmpty(v: Value): (r: seq<Value>)
    ensures v.Arr? ==> r == v.elems
    ensures !v.Arr? ==> r == []
  {
    if v.Arr? then v.elems else []
  }
}
