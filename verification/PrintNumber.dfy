/** Number printing (kservice.c): divide, skip_atoi and print_number of the build with
    precision, without the 0x prefix and with 32-bit longs. */
module PrintNumber {
  import opened Arithmetic

  const WORD: int := 0x1_0000_0000
  const INT_MAX: int := 0x7fff_ffff
  const INT_MIN: int := -0x8000_0000

  /** The flags that matter here. */
  datatype Flags = Flags(zeroPad: bool, signed: bool, plus: bool, space: bool, left: bool, large: bool)

  // Digits

  function DigitChar(d: nat, large: bool): char
    requires d < 16
  {
    (if large then "0123456789ABCDEF" else "0123456789abcdef")[d]
  }

  function CharValue(c: char): nat {
    if '0' <= c <= '9' then (c - '0') as nat
    else if 'a' <= c <= 'f' then (c - 'a') as nat + 10
    else if 'A' <= c <= 'F' then (c - 'A') as nat + 10
    else 0
  }

  /** The base that is really used: 10, and 16 for everything else. */
  function Base(base: int): nat {
    if base == 10 then 10 else 16
  }

  /** divide: the remainder, and the quotient left behind. */
  function Divide(n: nat, base: int): (nat, nat) {
    if base == 10 then (n % 10, n / 10) else (n % 16, n / 16)
  }

  /** What a digit string stands for. */
  function ValueOf(s: string, b: nat): nat {
    if s == [] then 0 else ValueOf(s[..|s| - 1], b) * b + CharValue(s[|s| - 1])
  }

  /** The digits of u, most significant first. */
  function Digits(u: nat, b: nat, large: bool): string
    requires b == 10 || b == 16
  {
    if u < b then [DigitChar(u, large)] else Digits(u / b, b, large) + [DigitChar(u % b, large)]
  }

  lemma CharsDecode(d: nat, large: bool)
    requires d < 16
    ensures CharValue(DigitChar(d, large)) == d
  {
  }

  /** Printing and reading back: the digits stand for the number. */
  lemma {:induction false} DigitsDecode(u: nat, b: nat, large: bool)
    requires b == 10 || b == 16
    ensures Digits(u, b, large) != [] && ValueOf(Digits(u, b, large), b) == u
  {
    if u < b {
      CharsDecode(u, large);
      var s := [DigitChar(u, large)];
      assert s[..|s| - 1] == [];
      assert ValueOf(s, b) == ValueOf([], b) * b + CharValue(s[0]);
    } else {
      DigitsDecode(u / b, b, large);
      CharsDecode(u % b, large);
      var s := Digits(u, b, large);
      assert s[..|s| - 1] == Digits(u / b, b, large);
    }
  }

  /** A digit of base 10 or 16, its letters large or small. */
  predicate DigitOf(c: char, b: nat, large: bool) {
    '0' <= c <= '9' || (b == 16 && if large then 'A' <= c <= 'F' else 'a' <= c <= 'f')
  }

  predicate Numeral(s: string, b: nat, large: bool) {
    forall i :: 0 <= i < |s| ==> DigitOf(s[i], b, large)
  }

  lemma CharIsDigit(d: nat, b: nat, large: bool)
    requires (b == 10 || b == 16) && d < b
    ensures DigitOf(DigitChar(d, large), b, large)
  {
  }

  lemma {:induction false} DigitsAreDigits(u: nat, b: nat, large: bool)
    requires b == 10 || b == 16
    ensures Numeral(Digits(u, b, large), b, large)
  {
    if u >= b {
      DigitsAreDigits(u / b, b, large);
      CharIsDigit(u % b, b, large);
    } else {
      CharIsDigit(u, b, large);
    }
  }

  /** No digit string of a positive number starts with a zero, so digits are as few as possible. */
  lemma {:induction false} NoLeadingZero(u: nat, b: nat, large: bool)
    requires (b == 10 || b == 16) && u > 0
    ensures Digits(u, b, large) != [] && Digits(u, b, large)[0] != '0'
  {
    if u < b {
      CharsDecode(u, large);
    } else {
      NoLeadingZero(u / b, b, large);
    }
  }

  function Pow(b: nat, k: nat): nat {
    if k == 0 then 1 else b * Pow(b, k - 1)
  }

  lemma {:induction false} DigitsBound(u: nat, b: nat, large: bool, k: nat)
    requires (b == 10 || b == 16) && k > 0 && u < Pow(b, k)
    ensures |Digits(u, b, large)| <= k
  {
    assert Pow(b, 1) == b * Pow(b, 0);
    if u >= b {
      assert Pow(b, k) == b * Pow(b, k - 1);
      DigitsBound(u / b, b, large, k - 1);
    }
  }

  /** Sixteen places are enough for any 32-bit number. */
  lemma FitsBuffer(u: nat, b: nat, large: bool)
    requires (b == 10 || b == 16) && u < WORD
    ensures |Digits(u, b, large)| <= 10
  {
    assert Pow(10, 10) == 10_000_000_000 && Pow(16, 10) == 0x100_0000_0000;
    DigitsBound(u, b, large, 10);
  }

  // The field

  function Repeat(c: char, n: int): string {
    if n <= 0 then [] else Repeat(c, n - 1) + [c]
  }

  lemma {:induction false} RepeatLength(c: char, n: int)
    ensures |Repeat(c, n)| == if n <= 0 then 0 else n
  {
    if n > 0 {
      RepeatLength(c, n - 1);
    }
  }

  /** The number printed without its sign: long negation and the conversion to unsigned wrap. */
  function Magnitude(num: int, t: Flags): nat
    requires INT_MIN <= num <= INT_MAX
  {
    if num >= 0 then num else if t.signed then -num else num + WORD
  }

  function Sign(num: int, t: Flags): string {
    if !t.signed then ""
    else if num < 0 then "-" else if t.plus then "+" else if t.space then " " else ""
  }

  /** What precedes the sign: blanks up to the width. */
  function Lead(pad: int, t: Flags): string {
    if t.zeroPad || t.left then "" else Repeat(' ', pad)
  }

  /** What follows the sign: zeros up to the width or the precision, the digits unless the
      precision is zero, and blanks up to the width. */
  function Rest(digits: string, pad: int, precision: int, t: Flags): string {
    Zeros(|digits|, pad, precision, t) + Tail(digits, pad, precision, t)
  }

  function Zeros(digits: nat, pad: int, precision: int, t: Flags): string {
    (if t.zeroPad && !t.left then Repeat('0', pad) else "") + Repeat('0', precision - digits)
  }

  function Tail(digits: string, pad: int, precision: int, t: Flags): string {
    (if precision == 0 then "" else digits) + (if t.left then Repeat(' ', pad) else "")
  }

  function Arranged(digits: string, sign: string, width: int, precision: int, t: Flags): string {
    var pad := width - Max(|digits|, precision) - |sign|;
    Lead(pad, t) + sign + Rest(digits, pad, precision, t)
  }

  /** What comes out for a number. */
  function Field(num: int, base: int, width: int, precision: int, t: Flags): string
    requires INT_MIN <= num <= INT_MAX
  {
    Arranged(Digits(Magnitude(num, t), Base(base), t.large), Sign(num, t), width, precision, t)
  }

  /** C's rule (section 7.21.6.1 of C11) for the length of a field with so many digits. */
  function RuleLength(digits: nat, sign: nat, width: int, precision: int): int {
    Max(width, Max(digits, precision) + sign)
  }

  /** Zero printed with precision zero has no digits. */
  function FieldLength(num: int, base: int, width: int, precision: int, t: Flags): int
    requires INT_MIN <= num <= INT_MAX
  {
    var digits := if num == 0 && precision == 0 then 0 else |Digits(Magnitude(num, t), Base(base), t.large)|;
    RuleLength(digits, |Sign(num, t)|, width, precision)
  }

  lemma ArrangedLength(digits: string, sign: string, width: int, precision: int, t: Flags)
    ensures |Arranged(digits, sign, width, precision, t)| ==
            Max(width, Max(|digits|, precision) + |sign|) - if precision == 0 then |digits| else 0
  {
    var pad := width - Max(|digits|, precision) - |sign|;
    RepeatLength(' ', pad);
    RepeatLength('0', pad);
    RepeatLength('0', precision - |digits|);
  }

  /** The field has that length exactly when the precision is not zero, or the number is zero
      and nothing is padded. */
  lemma LengthRule(num: int, base: int, width: int, precision: int, t: Flags)
    requires INT_MIN <= num <= INT_MAX
    ensures |Field(num, base, width, precision, t)| == FieldLength(num, base, width, precision, t) <==>
            precision != 0 || (num == 0 && width <= |Sign(num, t)|)
  {
    var u := Magnitude(num, t);
    DigitsDecode(u, Base(base), t.large);
    ZeroIsOneDigit(Base(base), t.large);
    ArrangedRule(Digits(u, Base(base), t.large), Sign(num, t), width, precision, t, num == 0);
  }

  /** Precision zero drops the digits of every number, and still counts them against the width. */
  lemma ZeroPrecisionLength(num: int, base: int, width: int, t: Flags)
    requires INT_MIN <= num <= INT_MAX
    ensures var digits := |Digits(Magnitude(num, t), Base(base), t.large)|;
            |Field(num, base, width, 0, t)| == Max(width, digits + |Sign(num, t)|) - digits
  {
    ArrangedLength(Digits(Magnitude(num, t), Base(base), t.large), Sign(num, t), width, 0, t);
  }

  lemma ZeroIsOneDigit(b: nat, large: bool)
    requires b == 10 || b == 16
    ensures |Digits(0, b, large)| == 1
  {
  }

  lemma ArrangedRule(digits: string, sign: string, width: int, precision: int, t: Flags, zero: bool)
    requires digits != "" && (zero ==> |digits| == 1)
    ensures |Arranged(digits, sign, width, precision, t)| ==
            RuleLength(if zero && precision == 0 then 0 else |digits|, |sign|, width, precision) <==>
            precision != 0 || (zero && width <= |sign|)
  {
    ArrangedLength(digits, sign, width, precision, t);
  }

  /** So C's rule fails: seven printed with precision zero comes out as nothing. */
  lemma ZeroPrecisionDropsDigits()
    ensures Field(7, 10, 0, 0, Flags(false, true, false, false, false, false)) == ""
    ensures FieldLength(7, 10, 0, 0, Flags(false, true, false, false, false, false)) == 1
  {
  }

  lemma {:induction false} ZerosAdd(k: int, s: string, b: nat)
    ensures ValueOf(Repeat('0', k) + s, b) == ValueOf(s, b)
    decreases |s|, k
  {
    if s == [] {
      assert Repeat('0', k) + s == Repeat('0', k);
      if k > 0 {
        ZerosAdd(k - 1, [], b);
        assert Repeat('0', k - 1) + [] == Repeat('0', k - 1);
        assert Repeat('0', k)[..|Repeat('0', k)| - 1] == Repeat('0', k - 1);
      }
    } else {
      var all := Repeat('0', k) + s;
      assert all[..|all| - 1] == Repeat('0', k) + s[..|s| - 1];
      ZerosAdd(k, s[..|s| - 1], b);
    }
  }

  /** Digits, with zeros in front up to the precision, and up to the width if they pad it. */
  function BodyLength(digits: nat, sign: nat, width: int, precision: int, t: Flags): int {
    if t.zeroPad && !t.left then Max(Max(digits, precision), width - sign) else Max(digits, precision)
  }

  /** A field is blanks, the sign, zeros and the digits, and blanks again. */
  lemma ArrangedBody(digits: string, sign: string, width: int, precision: int, t: Flags, b: nat)
    returns (blanks: string, body: string, tail: string)
    requires precision != 0 && Numeral(digits, b, t.large)
    ensures Numeral(body, b, t.large) && |body| == BodyLength(|digits|, |sign|, width, precision, t)
    ensures Arranged(digits, sign, width, precision, t) == blanks + sign + body + tail
    ensures (t.left ==> blanks == "") && (!t.left ==> tail == "")
    ensures forall i :: 0 <= i < |blanks| ==> blanks[i] == ' '
    ensures forall i :: 0 <= i < |tail| ==> tail[i] == ' '
    ensures ValueOf(body, b) == ValueOf(digits, b)
  {
    var pad := width - Max(|digits|, precision) - |sign|;
    AllBlank(pad);
    blanks := Lead(pad, t);
    body, tail := Body(digits, pad, precision, t), if t.left then Repeat(' ', pad) else "";
    RestSplits(digits, pad, precision, t);
    BodyValue(digits, pad, precision, t, b);
    BodyDigits(digits, pad, precision, t, b);
    Append(blanks + sign, body, tail);
  }

  /** The zeros and the digits. */
  function Body(digits: string, pad: int, precision: int, t: Flags): string {
    (if t.zeroPad && !t.left then Repeat('0', pad) else "") + (Repeat('0', precision - |digits|) + digits)
  }

  lemma RestSplits(digits: string, pad: int, precision: int, t: Flags)
    requires precision != 0
    ensures Rest(digits, pad, precision, t) == Body(digits, pad, precision, t) + if t.left then Repeat(' ', pad) else ""
  {
    FourParts(if t.zeroPad && !t.left then Repeat('0', pad) else "", Repeat('0', precision - |digits|), digits,
              if t.left then Repeat(' ', pad) else "");
  }

  lemma BodyValue(digits: string, pad: int, precision: int, t: Flags, b: nat)
    ensures ValueOf(Body(digits, pad, precision, t), b) == ValueOf(digits, b)
  {
    var s := Repeat('0', precision - |digits|) + digits;
    ZerosAdd(precision - |digits|, digits, b);
    if t.zeroPad && !t.left {
      ZerosAdd(pad, s, b);
    } else {
      assert "" + s == s;
    }
  }

  lemma {:induction false} AllZero(n: int)
    ensures forall i :: 0 <= i < |Repeat('0', n)| ==> Repeat('0', n)[i] == '0'
  {
    if n > 0 {
      AllZero(n - 1);
    }
  }

  lemma BodyDigits(digits: string, pad: int, precision: int, t: Flags, b: nat)
    requires Numeral(digits, b, t.large)
    ensures Numeral(Body(digits, pad, precision, t), b, t.large)
    ensures |Body(digits, pad, precision, t)| ==
            Max(|digits|, precision) + if t.zeroPad && !t.left && pad > 0 then pad else 0
  {
    AllZero(pad);
    AllZero(precision - |digits|);
    RepeatLength('0', pad);
    RepeatLength('0', precision - |digits|);
  }

  lemma Append(a: string, b: string, c: string)
    ensures a + (b + c) == a + b + c
  {
  }

  lemma FourParts(a: string, b: string, c: string, d: string)
    ensures (a + b) + (c + d) == a + (b + c) + d
  {
  }

  /** The sign and the digits of a number: minus and its absolute value if it is negative, a plus
      or a blank in front of others if asked for; and without a sign its value as a 32-bit word. */
  predicate Stands(num: int, base: int, sign: string, body: string, t: Flags) {
    var n := ValueOf(body, if base == 10 then 10 else 16);
    if !t.signed then sign == "" && n == if num < 0 then num + 0x1_0000_0000 else num
    else if num < 0 then sign == "-" && n + num == 0
    else n == num && sign == if t.plus then "+" else if t.space then " " else ""
  }

  /** So it stands for the number, whatever its width, precision and alignment. */
  lemma FieldDecodes(num: int, base: int, width: int, precision: int, t: Flags)
    returns (blanks: string, sign: string, body: string, tail: string)
    requires INT_MIN <= num <= INT_MAX && precision != 0
    ensures Field(num, base, width, precision, t) == blanks + sign + body + tail
    ensures Stands(num, base, sign, body, t) && Numeral(body, if base == 10 then 10 else 16, t.large)
    ensures |body| == BodyLength(|Digits(Magnitude(num, t), Base(base), t.large)|, |sign|, width, precision, t) > 0
    ensures (t.left ==> blanks == "") && (!t.left ==> tail == "")
    ensures forall i :: 0 <= i < |blanks| ==> blanks[i] == ' '
    ensures forall i :: 0 <= i < |tail| ==> tail[i] == ' '
  {
    var u := Magnitude(num, t);
    DigitsDecode(u, Base(base), t.large);
    DigitsAreDigits(u, Base(base), t.large);
    sign := Sign(num, t);
    blanks, body, tail := ArrangedBody(Digits(u, Base(base), t.large), sign, width, precision, t, Base(base));
  }

  lemma {:induction false} AllBlank(n: int)
    ensures forall i :: 0 <= i < |Repeat(' ', n)| ==> Repeat(' ', n)[i] == ' '
  {
    if n > 0 {
      AllBlank(n - 1);
    }
  }

  // Storing into a bounded buffer

  /** Memory m after text is written from position buf on, with nothing stored from end on. */
  function Overlay(m: string, buf: nat, end: nat, text: string): (r: string)
    ensures |r| == |m|
  {
    seq(|m|, k requires 0 <= k < |m| => if buf <= k < end && k < buf + |text| then text[k - buf] else m[k])
  }

  lemma OverlayTwice(m: string, buf: nat, end: nat, a: string, b: string)
    ensures Overlay(Overlay(m, buf, end, a), buf + |a|, end, b) == Overlay(m, buf, end, a + b)
  {
  }

  lemma OverlayThrice(m: string, buf: nat, end: nat, a: string, b: string, c: string)
    ensures Overlay(Overlay(Overlay(m, buf, end, a), buf + |a|, end, b), buf + |a| + |b|, end, c) ==
            Overlay(m, buf, end, a + b + c)
  {
    OverlayTwice(m, buf, end, a, b);
    OverlayTwice(m, buf, end, a + b, c);
  }

  lemma OverlayShort(m: string, buf: nat, end: nat, end': nat, text: string)
    requires end <= end' <= |m|
    ensures forall k :: 0 <= k < end ==> Overlay(m, buf, end, text)[k] == Overlay(m, buf, end', text)[k]
    ensures forall k :: end <= k < |m| ==> Overlay(m, buf, end, text)[k] == m[k]
  {
  }

  // Printing

  /** Stores c while there is room, and moves on in any case. */
  method Put(mem: array<char>, buf: nat, end: nat, c: char) returns (next: nat)
    requires end <= mem.Length
    modifies mem
    ensures next == buf + 1 && mem[..] == Overlay(old(mem[..]), buf, end, [c])
  {
    if buf < end {
      mem[buf] := c;
    }
    next := buf + 1;
  }

  /** A padding loop: count characters, if count is positive. */
  method PutMany(mem: array<char>, buf: nat, end: nat, c: char, count: int) returns (next: nat)
    requires end <= mem.Length
    modifies mem
    ensures next == buf + |Repeat(c, count)| && mem[..] == Overlay(old(mem[..]), buf, end, Repeat(c, count))
  {
    var n := 0;
    next := buf;
    while n < count
      invariant 0 <= n && (n <= count || n == 0)
      invariant next == buf + |Repeat(c, n)| && mem[..] == Overlay(old(mem[..]), buf, end, Repeat(c, n))
    {
      OverlayTwice(old(mem[..]), buf, end, Repeat(c, n), [c]);
      next := Put(mem, next, end, c);
      n := n + 1;
    }
    if count < 0 {
      assert Repeat(c, count) == Repeat(c, 0);
    }
  }

  /** The digits of u in the temporary buffer, least significant first. */
  method PutDigits(u: nat, base: int, large: bool) returns (tmp: array<char>, i: nat)
    requires u < WORD
    ensures fresh(tmp) && 0 < i <= tmp.Length == 16
    ensures Digits(u, Base(base), large) == Reversed(tmp[..i])
  {
    tmp := new char[16](_ => ' ');
    var b := Base(base);
    FitsBuffer(u, b, large);
    ghost var digits := Digits(u, b, large);
    if u == 0 {
      tmp[0] := '0';
      i := 1;
      assert tmp[..1] == ['0'];
      return;
    }
    var n := u;
    i := 0;
    while n != 0
      invariant i <= 16 && digits == Left(n, b, large) + Reversed(tmp[..i])
    {
      var (d, q) := Divide(n, base);
      ghost var before := tmp[..i];
      OneMoreDigit(digits, n, base, large, before);
      tmp[i] := DigitChar(d, large);
      assert tmp[..i + 1] == before + [DigitChar(d, large)];
      n, i := q, i + 1;
    }
  }

  /** The digits still to come. */
  function Left(n: nat, b: nat, large: bool): string
    requires b == 10 || b == 16
  {
    if n == 0 then "" else Digits(n, b, large)
  }

  /** One division takes the last of them. */
  lemma LeftStep(n: nat, base: int, large: bool)
    requires n > 0
    ensures var (d, q) := Divide(n, base);
            && d < 16 && q < n && Left(n, Base(base), large) == Left(q, Base(base), large) + [DigitChar(d, large)]
    ensures Left(n, Base(base), large) != []
  {
  }

  /** Behind that digit the temporary buffer still holds what is missing, backwards. */
  lemma OneMoreDigit(digits: string, n: nat, base: int, large: bool, before: string)
    requires n > 0 && digits == Left(n, Base(base), large) + Reversed(before)
    ensures |before| < |digits|
    ensures var (d, q) := Divide(n, base);
            d < 16 && q < n && digits == Left(q, Base(base), large) + Reversed(before + [DigitChar(d, large)])
  {
    LeftStep(n, base, large);
    ReversedLength(before);
    var (d, q) := Divide(n, base);
    var c := DigitChar(d, large);
    ReversedSnoc(before, c);
    CharBetween(Left(q, Base(base), large), c, Reversed(before));
    LongerBy(Left(q, Base(base), large), c, Reversed(before));
  }

  lemma CharBetween(a: string, c: char, b: string)
    ensures a + [c] + b == a + ([c] + b)
  {
  }

  lemma LongerBy(a: string, c: char, b: string)
    ensures |a + [c] + b| > |b|
  {
  }

  function Reversed(s: string): string {
    if s == [] then [] else Reversed(s[1..]) + [s[0]]
  }

  lemma {:induction false} ReversedSnoc(s: string, c: char)
    ensures Reversed(s + [c]) == [c] + Reversed(s) && |Reversed(s)| == |s|
  {
    if s == [] {
      assert (s + [c])[1..] == [] && Reversed(s + [c]) == Reversed([]) + [c];
    } else {
      assert (s + [c])[1..] == s[1..] + [c] && (s + [c])[0] == s[0];
      ReversedSnoc(s[1..], c);
    }
  }

  /** print_number into mem from buf on, storing nothing from end on: exactly the field, cut
      short by end, and the position behind the whole field. */
  method PrintField(mem: array<char>, buf: nat, end: nat, num: int, base: int, s: int, precision: int, t: Flags)
    returns (next: nat)
    requires end <= mem.Length && INT_MIN <= num <= INT_MAX
    modifies mem
    ensures next == buf + |Field(num, base, s, precision, t)|
    ensures mem[..] == Overlay(old(mem[..]), buf, end, Field(num, base, s, precision, t))
  {
    var sign := '\0';
    var u := if num < 0 then num + WORD else num;
    if t.signed {
      if num < 0 {
        sign := '-';
        u := -num;
      } else if t.plus {
        sign := '+';
      } else if t.space {
        sign := ' ';
      }
    }
    var tmp, i := PutDigits(u, base, t.large);
    next := PutArranged(mem, buf, end, tmp, i, sign, s, precision, t);
  }

  ghost function SignText(sign: char): string {
    if sign == '\0' then "" else [sign]
  }

  /** The part of print_number behind the digits. */
  method PutArranged(mem: array<char>, buf: nat, end: nat, tmp: array<char>, i: nat, sign: char, s: int,
                     precision: int, t: Flags)
    returns (next: nat)
    requires end <= mem.Length && 0 < i <= tmp.Length && mem != tmp
    modifies mem
    ensures var text := Arranged(Reversed(old(tmp[..i])), SignText(sign), s, precision, t);
            next == buf + |text| && mem[..] == Overlay(old(mem[..]), buf, end, text)
  {
    ReversedLength(tmp[..i]);
    var c := if t.zeroPad && !t.left then '0' else ' ';
    var wide := if i > precision then i else precision;
    next := PutParts(mem, buf, end, tmp, i, sign, c, s - wide, wide, precision, t);
  }

  method PutParts(mem: array<char>, buf: nat, end: nat, tmp: array<char>, i: nat, sign: char, c: char, room: int,
                  wide: int, precision: int, t: Flags)
    returns (next: nat)
    requires end <= mem.Length && 0 < i <= tmp.Length && mem != tmp && wide == Max(i, precision)
    requires c == (if t.zeroPad && !t.left then '0' else ' ')
    modifies mem
    ensures var pad := room - |SignText(sign)|;
            var text := Lead(pad, t) + SignText(sign) + Rest(Reversed(old(tmp[..i])), pad, precision, t);
            next == buf + |text| && mem[..] == Overlay(old(mem[..]), buf, end, text)
  {
    ghost var pad := room - |SignText(sign)|;
    ghost var rest := Rest(Reversed(tmp[..i]), pad, precision, t);
    OverlayThrice(mem[..], buf, end, Lead(pad, t), SignText(sign), rest);
    var size;
    next, size := PutLead(mem, buf, end, sign, room, t);
    next, size := PutSign(mem, next, end, sign, size);
    next := PutRest(mem, next, end, tmp, i, c, size, wide, precision, t, pad);
  }

  /** The blanks in front; one less if a sign is to come and there are any. */
  method PutLead(mem: array<char>, buf: nat, end: nat, sign: char, size: int, t: Flags) returns (next: nat, left: int)
    requires end <= mem.Length
    modifies mem
    ensures var pad := size - |SignText(sign)|;
            && next == buf + |Lead(pad, t)| && mem[..] == Overlay(old(mem[..]), buf, end, Lead(pad, t))
            && if t.zeroPad || t.left then left == size else left <= 0
  {
    next, left := buf, size;
    if !(t.zeroPad || t.left) {
      if sign != '\0' && left > 0 {
        left := left - 1;
      }
      next := PutMany(mem, next, end, ' ', left);
      left := if left > 0 then -1 else left - 1;
    }
  }

  method PutSign(mem: array<char>, buf: nat, end: nat, sign: char, size: int) returns (next: nat, left: int)
    requires end <= mem.Length
    modifies mem
    ensures next == buf + |SignText(sign)| && mem[..] == Overlay(old(mem[..]), buf, end, SignText(sign))
    ensures left == size - |SignText(sign)|
  {
    next, left := buf, size;
    if sign != '\0' {
      next := Put(mem, buf, end, sign);
      left := size - 1;
    }
  }

  /** size is what is left of the padding, and less than one if it was used up already. */
  method PutRest(mem: array<char>, buf: nat, end: nat, tmp: array<char>, i: nat, c: char, size: int, wide: int,
                 precision: int, t: Flags, ghost pad: int)
    returns (next: nat)
    requires end <= mem.Length && 0 < i <= tmp.Length && mem != tmp && wide == Max(i, precision)
    requires c == (if t.zeroPad && !t.left then '0' else ' ')
    requires if t.zeroPad || t.left then size == pad else size <= 0
    modifies mem
    ensures var text := Rest(Reversed(tmp[..i]), pad, precision, t);
            next == buf + |text| && mem[..] == Overlay(old(mem[..]), buf, end, text)
  {
    ghost var digits := Reversed(tmp[..i]);
    ReversedLength(tmp[..i]);
    OverlayTwice(mem[..], buf, end, Zeros(i, pad, precision, t), Tail(digits, pad, precision, t));
    var left;
    next, left := PutZeros(mem, buf, end, c, size, i, wide, precision, t, pad);
    next := PutTail(mem, next, end, tmp, i, left, precision, t, pad);
  }

  method PutZeros(mem: array<char>, buf: nat, end: nat, c: char, size: int, i: nat, wide: int, precision: int,
                  t: Flags, ghost pad: int)
    returns (next: nat, left: int)
    requires end <= mem.Length && wide == Max(i, precision)
    requires c == (if t.zeroPad && !t.left then '0' else ' ')
    requires if t.zeroPad || t.left then size == pad else size <= 0
    modifies mem
    ensures var text := Zeros(i, pad, precision, t);
            next == buf + |text| && mem[..] == Overlay(old(mem[..]), buf, end, text)
    ensures if t.left then left == pad else left <= 0
  {
    ghost var m, text := mem[..], if t.zeroPad && !t.left then Repeat('0', pad) else "";
    OverlayTwice(m, buf, end, text, Repeat('0', wide - i));
    next, left := buf, size;
    if !t.left {
      next := PutMany(mem, next, end, c, left);
      left := if left > 0 then -1 else left - 1;
    }
    assert next == buf + |text| && mem[..] == Overlay(m, buf, end, text);
    assert Repeat('0', wide - i) == Repeat('0', precision - i);
    next := PutMany(mem, next, end, '0', wide - i);
  }

  method PutTail(mem: array<char>, buf: nat, end: nat, tmp: array<char>, i: nat, left: int, precision: int, t: Flags,
                 ghost pad: int)
    returns (next: nat)
    requires end <= mem.Length && i <= tmp.Length && mem != tmp && if t.left then left == pad else left <= 0
    modifies mem
    ensures var text := Tail(Reversed(tmp[..i]), pad, precision, t);
            next == buf + |text| && mem[..] == Overlay(old(mem[..]), buf, end, text)
  {
    ghost var m, text := mem[..], if precision == 0 then "" else Reversed(tmp[..i]);
    OverlayTwice(m, buf, end, text, Repeat(' ', left));
    next := buf;
    if precision != 0 {
      next := PutTmp(mem, next, end, tmp, i);
    }
    assert next == buf + |text| && mem[..] == Overlay(m, buf, end, text);
    next := PutMany(mem, next, end, ' ', left);
  }

  /** The temporary buffer, backwards. */
  method PutTmp(mem: array<char>, buf: nat, end: nat, tmp: array<char>, i: nat) returns (next: nat)
    requires end <= mem.Length && i <= tmp.Length && mem != tmp
    modifies mem
    ensures next == buf + |Reversed(tmp[..i])| && mem[..] == Overlay(old(mem[..]), buf, end, Reversed(tmp[..i]))
  {
    next := buf;
    var k := i;
    ghost var m, done := mem[..], "";
    while k > 0
      invariant 0 <= k <= i <= tmp.Length && Reversed(tmp[..i]) == done + Reversed(tmp[..k])
      invariant next == buf + |done| && mem[..] == Overlay(m, buf, end, done)
    {
      k := k - 1;
      assert tmp[..k + 1] == tmp[..k] + [tmp[k]];
      ReversedSnoc(tmp[..k], tmp[k]);
      OverlayTwice(m, buf, end, done, [tmp[k]]);
      next := Put(mem, next, end, tmp[k]);
      done := done + [tmp[k]];
    }
  }

  lemma {:induction false} ReversedLength(s: string)
    ensures |Reversed(s)| == |s|
  {
    if s != [] {
      ReversedLength(s[1..]);
    }
  }

  /** Printing with less room stores the beginning of what printing with more room stores, leaves
      the rest as it was, and returns the same position. */
  method TruncatedIsPrefix(mem: array<char>, mem': array<char>, buf: nat, end: nat, end': nat, num: int, base: int,
                           s: int, precision: int, t: Flags)
    returns (next: nat, next': nat)
    requires mem != mem' && mem[..] == mem'[..] && end <= end' <= mem.Length && INT_MIN <= num <= INT_MAX
    modifies mem, mem'
    ensures next == next' && mem.Length == mem'.Length
    ensures mem[..end] == mem'[..end] && mem[end..] == old(mem[end..])
  {
    ghost var m := mem[..];
    next := PrintField(mem, buf, end, num, base, s, precision, t);
    next' := PrintField(mem', buf, end', num, base, s, precision, t);
    OverlayShort(m, buf, end, end', Field(num, base, s, precision, t));
  }

  // Reading

  predicate IsDigit(c: char) {
    '0' <= c <= '9'
  }

  /** A 32-bit int. */
  function Wrap(x: int): int {
    if INT_MIN <= x <= INT_MAX then x else (x - INT_MIN) % WORD + INT_MIN
  }

  /** How many digits s starts with. */
  function Run(s: string): (n: nat)
    ensures n <= |s|
  {
    if s == [] || !IsDigit(s[0]) then 0 else 1 + Run(s[1..])
  }

  /** skip_atoi: the number s starts with, if an int can hold it, and the position behind it. */
  method SkipAtoi(s: string) returns (i: int, next: nat)
    ensures next == Run(s)
    ensures ValueOf(s[..next], 10) <= INT_MAX ==> i == ValueOf(s[..next], 10)
  {
    i, next := 0, 0;
    while next < |s| && IsDigit(s[next])
      invariant next <= |s| && Run(s) == next + Run(s[next..])
      invariant ValueOf(s[..next], 10) <= INT_MAX ==> i == ValueOf(s[..next], 10)
    {
      assert s[next..][1..] == s[next + 1..];
      assert s[..next + 1][..next] == s[..next];
      i := Wrap(i * 10 + CharValue(s[next]));
      next := next + 1;
    }
  }

  lemma {:induction false} DigitsRun(s: string, rest: string)
    requires forall k :: 0 <= k < |s| ==> IsDigit(s[k])
    requires rest == [] || !IsDigit(rest[0])
    ensures Run(s + rest) == |s|
  {
    if s == [] {
      assert s + rest == rest;
    } else {
      assert (s + rest)[1..] == s[1..] + rest;
      DigitsRun(s[1..], rest);
    }
  }

  lemma {:induction false} DecimalDigits(u: nat, large: bool)
    ensures forall k :: 0 <= k < |Digits(u, 10, large)| ==> IsDigit(Digits(u, 10, large)[k])
  {
    if u >= 10 {
      DecimalDigits(u / 10, large);
    }
  }

  /** Reading undoes unsigned decimal printing, for every number an int can hold. */
  method PrintThenRead(mem: array<char>, u: nat, rest: string) returns (i: int, next: nat)
    requires u <= INT_MAX && mem.Length >= 10 && (rest == [] || !IsDigit(rest[0]))
    modifies mem
    ensures i == u && next == |Digits(u, 10, false)|
  {
    var t := Flags(false, false, false, false, false, false);
    ghost var digits := Digits(u, 10, false);
    PlainField(u, t);
    ReadsBack(u, rest);
    WhollyOverlaid(mem[..], digits);
    var end := PrintField(mem, 0, mem.Length, u, 10, 0, -1, t);
    assert mem[..end] == mem[..][..end] == digits;
    i, next := SkipAtoi(mem[..end] + rest);
  }

  lemma ReadsBack(u: nat, rest: string)
    requires u <= INT_MAX && (rest == [] || !IsDigit(rest[0]))
    ensures var digits := Digits(u, 10, false);
            && |digits| <= 10 && Run(digits + rest) == |digits| && (digits + rest)[..|digits|] == digits
            && ValueOf(digits, 10) == u
  {
    var digits := Digits(u, 10, false);
    FitsBuffer(u, 10, false);
    DecimalDigits(u, false);
    DigitsDecode(u, 10, false);
    DigitsRun(digits, rest);
  }

  lemma WhollyOverlaid(m: string, text: string)
    requires |text| <= |m|
    ensures Overlay(m, 0, |m|, text)[..|text|] == text
  {
  }

  lemma PlainField(u: nat, t: Flags)
    requires u <= INT_MAX && t == Flags(false, false, false, false, false, false)
    ensures Field(u, 10, 0, -1, t) == Digits(u, 10, false)
  {
    var digits := Digits(u, 10, false);
    assert "" + "" + "" + "" + digits + "" == digits;
  }
}
