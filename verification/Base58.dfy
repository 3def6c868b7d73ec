/** Base58 signatures: the in-place carry loops, what they compute, and the decoder that undoes them. */
module Base58 {
  import opened Wire
  import opened Records

  /** The 58 characters in order, by their runs of consecutive code points: no zero, no capitals I and O, no small l. */
  const ALPHABET: string := HEAD + TAIL
  const HEAD: string := "123456789" + "ABCDEFGH" + "JKLMN"
  const TAIL: string := "PQRSTUVWXYZ" + "abcdefghijk" + "mnopqrstuvwxyz"

  // ----- Positional notation, least significant digit first -----

  function Value(digits: seq<nat>, base: nat): nat {
    if digits == [] then 0 else digits[0] + base * Value(digits[1..], base)
  }

  function Quotient(value: nat, base: nat): (q: nat)
    requires base >= 2
    ensures value > 0 ==> q < value
  {
    QuotientBelow(value, base);
    value / base
  }

  function Remainder(value: nat, base: nat): (r: nat)
    requires base >= 2
    ensures r < base
  {
    value % base
  }

  lemma QuotientBelow(value: nat, base: nat)
    requires base >= 2
    ensures value > 0 ==> value / base < value
  {
    var q := value / base;
    assert value == base * q + value % base;
    if q >= 1 {
      assert base * q == 2 * q + (base - 2) * q;
    }
  }

  function Digits(value: nat, base: nat): seq<nat>
    requires base >= 2
  {
    if value == 0 then [] else [Remainder(value, base)] + Digits(Quotient(value, base), base)
  }

  /** Every digit is below the base and the most significant one is not zero. */
  predicate Canonical(digits: seq<nat>, base: nat) {
    && (forall i :: 0 <= i < |digits| ==> digits[i] < base)
    && (digits != [] ==> digits[|digits| - 1] != 0)
  }

  lemma MulBound(base: nat, gap: int)
    ensures gap >= 1 ==> base * gap >= base
    ensures gap <= -1 ==> base * gap <= -(base as int)
  {
    if gap >= 1 {
      assert base * gap == base * (gap - 1) + base;
    } else if gap <= -1 {
      assert base * gap == base * (gap + 1) - base;
    }
  }

  lemma DivMod(digit: nat, rest: nat, base: nat)
    requires base >= 2 && digit < base
    ensures Remainder(digit + base * rest, base) == digit && Quotient(digit + base * rest, base) == rest
  {
    var n := digit + base * rest;
    assert n == base * (n / base) + n % base;
    assert base * (rest - n / base) == n % base - digit;
    MulBound(base, rest - n / base);
  }

  lemma DivFacts(value: nat, base: nat)
    requires base >= 2
    ensures value == Remainder(value, base) + base * Quotient(value, base)
    ensures Quotient(value, base) == 0 ==> Remainder(value, base) == value
  {
  }

  lemma ValueCons(low: nat, high: seq<nat>, base: nat)
    ensures Value([low] + high, base) == low + base * Value(high, base)
  {
    var all := [low] + high;
    assert all[0] == low && all[1..] == high;
  }

  lemma ConsCanonical(low: nat, high: seq<nat>, base: nat)
    requires low < base && Canonical(high, base) && (high == [] ==> low != 0)
    ensures Canonical([low] + high, base)
  {
  }

  lemma {:induction false} DigitsCanonical(value: nat, base: nat)
    requires base >= 2
    ensures Canonical(Digits(value, base), base) && Value(Digits(value, base), base) == value
  {
    hide Canonical, Value, Quotient, Remainder;
    if value == 0 {
      NoDigits(base);
    } else {
      var low, high := Remainder(value, base), Quotient(value, base);
      DivFacts(value, base);
      DigitsCanonical(high, base);
      ValueCons(low, Digits(high, base), base);
      ConsCanonical(low, Digits(high, base), base);
    }
  }

  lemma NoDigits(base: nat)
    ensures Canonical([], base) && Value([], base) == 0
  {
  }

  lemma {:induction false} CanonicalPositive(digits: seq<nat>, base: nat)
    requires base >= 2 && Canonical(digits, base) && digits != []
    ensures Value(digits, base) > 0
  {
    if |digits| > 1 {
      CanonicalPositive(digits[1..], base);
      assert base * Value(digits[1..], base) > 0;
    }
  }

  /** A number has one canonical notation. */
  lemma {:induction false} CanonicalUnique(digits: seq<nat>, base: nat)
    requires base >= 2 && Canonical(digits, base)
    ensures Digits(Value(digits, base), base) == digits
  {
    hide Quotient, Remainder;
    if digits != [] {
      CanonicalPositive(digits, base);
      DivMod(digits[0], Value(digits[1..], base), base);
      CanonicalUnique(digits[1..], base);
    }
  }

  // ----- What encoding means -----

  function Reversed(s: seq<nat>): (r: seq<nat>)
    ensures |r| == |s|
  {
    if s == [] then [] else Reversed(s[1..]) + [s[0]]
  }

  lemma {:induction false} ReversedLast(s: seq<nat>, x: nat)
    ensures Reversed(s + [x]) == [x] + Reversed(s)
  {
    var all := s + [x];
    if s == [] {
      assert all[1..] == [];
    } else {
      assert all[1..] == s[1..] + [x];
      ReversedLast(s[1..], x);
    }
  }

  lemma {:induction false} ReversedTwice(s: seq<nat>)
    ensures Reversed(Reversed(s)) == s
  {
    if s != [] {
      ReversedLast(Reversed(s[1..]), s[0]);
      ReversedTwice(s[1..]);
    }
  }

  function LeadingZeros(bytes: seq<byte>): (n: nat)
    ensures n <= |bytes|
    ensures forall i :: 0 <= i < n ==> bytes[i] == 0
    ensures n < |bytes| ==> bytes[n] != 0
  {
    if bytes == [] || bytes[0] != 0 then 0 else 1 + LeadingZeros(bytes[1..])
  }

  /** The number that a byte string denotes, most significant byte first. */
  function BytesValue(bytes: seq<byte>): nat {
    Value(Reversed(bytes), 256)
  }

  function Text(digits: seq<nat>): (text: string)
    requires forall i :: 0 <= i < |digits| ==> digits[i] < 58
    ensures |text| == |digits|
  {
    seq(|digits|, i requires 0 <= i < |digits| => ALPHABET[digits[i]])
  }

  function Ones(n: nat): (text: string)
    ensures |text| == n && forall i :: 0 <= i < n ==> text[i] == '1'
  {
    seq(n, _ => '1')
  }

  lemma {:induction false} ReversedAt(s: seq<nat>, k: nat)
    requires k < |s|
    ensures Reversed(s)[k] == s[|s| - 1 - k]
  {
    if k < |s| - 1 {
      ReversedAt(s[1..], k);
    }
  }

  lemma ReversedBelow(s: seq<nat>, base: nat)
    requires forall i :: 0 <= i < |s| ==> s[i] < base
    ensures forall i :: 0 <= i < |s| ==> Reversed(s)[i] < base
  {
    forall i | 0 <= i < |s|
      ensures Reversed(s)[i] < base
    {
      ReversedAt(s, i);
    }
  }

  /** One '1' for each leading zero byte, then the canonical base-58 digits of the rest, most significant first. */
  function Encoded(bytes: seq<byte>): string {
    var digits := Digits(BytesValue(bytes[LeadingZeros(bytes)..]), 58);
    DigitsCanonical(BytesValue(bytes[LeadingZeros(bytes)..]), 58);
    ReversedBelow(digits, 58);
    Ones(LeadingZeros(bytes)) + Text(Reversed(digits))
  }

  // ----- The carry loops -----

  function Pow(base: nat, n: nat): nat {
    if n == 0 then 1 else base * Pow(base, n - 1)
  }

  lemma {:induction false} ValueAppend(digits: seq<nat>, last: nat, base: nat)
    ensures Value(digits + [last], base) == Value(digits, base) + Pow(base, |digits|) * last
  {
    var all := digits + [last];
    if digits == [] {
      assert all[1..] == [];
    } else {
      assert all[1..] == digits[1..] + [last];
      ValueAppend(digits[1..], last, base);
      Scale(base, Value(digits[1..], base), Pow(base, |digits| - 1), last);
    }
  }

  lemma Scale(base: nat, v: nat, p: nat, last: nat)
    ensures base * (v + p * last) == base * v + base * p * last
  {
  }

  lemma {:induction false} ValueBelow(digits: seq<nat>, base: nat)
    requires forall i :: 0 <= i < |digits| ==> digits[i] < base
    ensures Value(digits, base) < Pow(base, |digits|)
  {
    if digits != [] {
      ValueBelow(digits[1..], base);
      DigitBelow(base, digits[0], Value(digits[1..], base), Pow(base, |digits| - 1));
    }
  }

  lemma DigitBelow(base: nat, digit: nat, v: nat, p: nat)
    requires digit < base && v < p
    ensures digit + base * v < base * p
  {
    var gap: nat := p - v - 1;
    assert base * p == base * v + base + base * gap;
  }

  /** A notation is canonical when its value needs all its digits. */
  lemma LargeIsCanonical(digits: seq<nat>, base: nat)
    requires base >= 1 && digits != [] && forall i :: 0 <= i < |digits| ==> digits[i] < base
    requires Value(digits, base) >= Pow(base, |digits| - 1)
    ensures Canonical(digits, base)
  {
    var n := |digits| - 1;
    if digits[n] == 0 {
      assert digits == digits[..n] + [0];
      ValueAppend(digits[..n], 0, base);
      ValueBelow(digits[..n], base);
    }
  }

  lemma CanonicalIsLarge(digits: seq<nat>, base: nat)
    requires Canonical(digits, base) && digits != []
    ensures Value(digits, base) >= Pow(base, |digits| - 1)
  {
    var n := |digits| - 1;
    assert digits == digits[..n] + [digits[n]];
    ValueAppend(digits[..n], digits[n], base);
    hide Value, Pow;
    AtLeastOnce(Pow(base, n), digits[n]);
  }

  lemma AtLeastOnce(p: nat, k: nat)
    requires k >= 1
    ensures p * k >= p
  {
    assert p * k == p + p * (k - 1);
  }

  /** What the loops have yet to make of the digits: those already done, and above them the carry and 256 times the
      rest. */
  function Carried(done: nat, weight: nat, carry: nat, rest: nat): nat {
    done + weight * (carry + 256 * rest)
  }

  lemma CarryEnds(value: nat, b: nat, weight: nat)
    ensures Carried(0, 1, b, value) == 256 * value + b
    ensures Carried(value, weight, 0, 0) == value
  {
  }

  /** One step of the carry, through a digit already there or into a new one. */
  lemma CarryStep(done: nat, weight: nat, carry: nat, digit: nat, rest: nat)
    ensures var c := carry + digit * 256;
      Carried(done + weight * (c % 58), 58 * weight, c / 58, rest) == Carried(done, weight, carry, digit + 58 * rest)
  {
    var c := carry + digit * 256;
    assert c == 58 * (c / 58) + c % 58;
    calc {
      weight * (carry + 256 * (digit + 58 * rest));
      weight * (c + 58 * (256 * rest));
      weight * (c % 58 + 58 * (c / 58 + 256 * rest));
      weight * (c % 58) + 58 * weight * (c / 58 + 256 * rest);
    }
  }

  lemma ValueParts(digits: seq<nat>, at: nat, base: nat)
    requires at <= |digits|
    ensures Pow(base, 0) == 1 && Pow(base, at + 1) == base * Pow(base, at)
    ensures Value([], base) == 0
    ensures at < |digits| ==> Value(digits[at..], base) == digits[at] + base * Value(digits[at + 1..], base)
  {
    if at < |digits| {
      assert digits[at..][1..] == digits[at + 1..];
    }
  }

  /** Multiplies the digits by 256 in place and adds one byte. */
  method AppendByte(digits: seq<nat>, b: byte) returns (next: seq<nat>)
    requires Canonical(digits, 58)
    requires digits == [] ==> b != 0
    ensures Canonical(next, 58)
    ensures Value(next, 58) == 256 * Value(digits, 58) + b
  {
    hide Value, Pow, Carried;
    var carry: nat := b;
    next := digits;
    ghost var total := 256 * Value(digits, 58) + b;
    var at := 0;
    ValueParts(digits, 0, 58);
    CarryEnds(Value(digits, 58), b, 1);
    assert next[..at] == [] && digits[at..] == digits;
    while at < |next|
      invariant 0 <= at <= |next| == |digits|
      invariant forall i :: at <= i < |next| ==> next[i] == digits[i]
      invariant forall i :: 0 <= i < |next| ==> next[i] < 58
      invariant carry <= 255
      invariant Carried(Value(next[..at], 58), Pow(58, at), carry, Value(digits[at..], 58)) == total
    {
      ghost var low := next[..at];
      assert next[at] == digits[at];
      ValueParts(digits, at, 58);
      CarryStep(Value(low, 58), Pow(58, at), carry, next[at], Value(digits[at + 1..], 58));
      carry := carry + next[at] * 256;
      next := next[at := carry % 58];
      ValueAppend(low, carry % 58, 58);
      assert next[..at + 1] == low + [carry % 58];
      carry := carry / 58;
      at := at + 1;
    }
    assert next[..at] == next && digits[at..] == [];
    ValueParts(digits, 0, 58);
    CarryEnds(Value(next, 58), 0, Pow(58, at));
    if carry == 0 && digits != [] {
      CanonicalIsLarge(digits, 58);
      LargeIsCanonical(next, 58);
    }
    while carry != 0
      invariant forall i :: 0 <= i < |next| ==> next[i] < 58
      invariant Carried(Value(next, 58), Pow(58, |next|), carry, 0) == total
      invariant carry == 0 ==> Canonical(next, 58)
      decreases carry
    {
      ValueAppend(next, carry % 58, 58);
      ValueParts(next, |next|, 58);
      CarryStep(Value(next, 58), Pow(58, |next|), carry, 0, 0);
      next := next + [carry % 58];
      carry := carry / 58;
    }
    CarryEnds(Value(next, 58), 0, Pow(58, |next|));
  }

  method Encode(bytes: seq<byte>) returns (text: string)
    ensures text == Encoded(bytes)
  {
    var zeros := 0;
    while zeros < |bytes| && bytes[zeros] == 0
      invariant 0 <= zeros <= LeadingZeros(bytes)
    {
      zeros := zeros + 1;
    }
    var digits: seq<nat> := [];
    var index := zeros;
    while index < |bytes|
      invariant zeros <= index <= |bytes|
      invariant Canonical(digits, 58) && (digits == [] ==> index == zeros)
      invariant Value(digits, 58) == BytesValue(bytes[zeros..index])
    {
      ReversedLast(bytes[zeros..index], bytes[index]);
      assert bytes[zeros..index + 1] == bytes[zeros..index] + [bytes[index]];
      ghost var before := Reversed(bytes[zeros..index]);
      assert ([bytes[index]] + before)[1..] == before;
      var next := AppendByte(digits, bytes[index]);
      if next == [] { StillDigits(digits, bytes[index]); }
      digits := next;
      index := index + 1;
    }
    assert index == |bytes| && bytes[zeros..|bytes|] == bytes[zeros..];
    CanonicalUnique(digits, 58);
    ReversedBelow(digits, 58);
    text := Ones(zeros) + Text(Reversed(digits));
  }

  lemma StillDigits(digits: seq<nat>, b: byte)
    requires Canonical(digits, 58) && (digits == [] ==> b != 0)
    ensures 256 * Value(digits, 58) + b > 0
  {
    if digits != [] {
      CanonicalPositive(digits, 58);
    }
  }

  // ----- The standard decoder -----

  /** The value of a base-58 character, or 58 for any other. */
  function DigitOf(c: char): (d: nat)
    ensures d <= 58
  {
    if '1' <= c <= '9' then c as int - '1' as int
    else if 'A' <= c <= 'H' then c as int - 'A' as int + 9
    else if 'J' <= c <= 'N' then c as int - 'J' as int + 17
    else if 'P' <= c <= 'Z' then c as int - 'P' as int + 22
    else if 'a' <= c <= 'k' then c as int - 'a' as int + 33
    else if 'm' <= c <= 'z' then c as int - 'm' as int + 44
    else 58
  }

  lemma HeadRuns(d: nat)
    requires d < 22
    ensures HEAD[d] as int
      == if d < 9 then d + '1' as int else if d < 17 then d - 9 + 'A' as int else d - 17 + 'J' as int
  {
  }

  lemma TailRuns(d: nat)
    requires d < 36
    ensures TAIL[d] as int
      == if d < 11 then d + 'P' as int else if d < 22 then d - 11 + 'a' as int else d - 22 + 'm' as int
  {
  }

  lemma AlphabetDigit(d: nat)
    requires d < 58
    ensures DigitOf(ALPHABET[d]) == d
  {
    if d < 22 {
      HeadRuns(d);
    } else {
      TailRuns(d - 22);
    }
  }

  lemma DigitAlphabet(c: char)
    requires DigitOf(c) < 58
    ensures ALPHABET[DigitOf(c)] == c
  {
  }

  function LeadingOnes(text: string): (n: nat)
    ensures n <= |text|
    ensures forall i :: 0 <= i < n ==> text[i] == '1'
    ensures n < |text| ==> text[n] != '1'
  {
    if text == "" || text[0] != '1' then 0 else 1 + LeadingOnes(text[1..])
  }

  function DigitsOf(text: string): (digits: seq<nat>)
    ensures |digits| == |text|
  {
    seq(|text|, i requires 0 <= i < |text| => DigitOf(text[i]))
  }

  /** A zero byte for each leading '1', then the number that the rest denotes; `None` on a foreign character. */
  function Decoded(text: string): Option<seq<byte>> {
    var digits := DigitsOf(text[LeadingOnes(text)..]);
    if exists i :: 0 <= i < |digits| && digits[i] == 58 then None
    else
      var number := Digits(Value(Reversed(digits), 58), 256);
      DigitsCanonical(Value(Reversed(digits), 58), 256);
      ReversedBelow(number, 256);
      Some(Zeros(LeadingOnes(text)) + Reversed(number))
  }

  lemma {:induction false} ZerosAhead(n: nat, rest: seq<byte>)
    requires rest != [] ==> rest[0] != 0
    ensures LeadingZeros(Zeros(n) + rest) == n
  {
    var all := Zeros(n) + rest;
    if n > 0 {
      assert all[0] == 0 && all[1..] == Zeros(n - 1) + rest;
      ZerosAhead(n - 1, rest);
    }
  }

  lemma {:induction false} OnesAhead(n: nat, rest: string)
    requires rest != "" ==> rest[0] != '1'
    ensures LeadingOnes(Ones(n) + rest) == n
  {
    var all := Ones(n) + rest;
    if n > 0 {
      assert all[0] == '1' && all[1..] == Ones(n - 1) + rest;
      OnesAhead(n - 1, rest);
    }
  }

  lemma TextDigits(digits: seq<nat>)
    requires forall i :: 0 <= i < |digits| ==> digits[i] < 58
    ensures DigitsOf(Text(digits)) == digits
    ensures digits != [] ==> (Text(digits)[0] == '1' <==> digits[0] == 0)
  {
    forall i | 0 <= i < |digits|
      ensures DigitsOf(Text(digits))[i] == digits[i]
    {
      AlphabetDigit(digits[i]);
    }
    if digits != [] && Text(digits)[0] == '1' {
      assert DigitOf('1') == 0;
    }
  }

  lemma DigitsText(text: string)
    requires forall i :: 0 <= i < |text| ==> DigitOf(text[i]) < 58
    ensures Text(DigitsOf(text)) == text
  {
    forall i | 0 <= i < |text|
      ensures Text(DigitsOf(text))[i] == text[i]
    {
      DigitAlphabet(text[i]);
    }
  }

  /** The most significant digit of a canonical notation comes first once it is reversed. */
  lemma ReversedCanonical(digits: seq<nat>, base: nat)
    requires Canonical(digits, base)
    ensures forall i :: 0 <= i < |digits| ==> Reversed(digits)[i] < base
    ensures digits != [] ==> Reversed(digits)[0] != 0
  {
    ReversedBelow(digits, base);
    if digits != [] {
      ReversedAt(digits, 0);
    }
  }

  lemma CanonicalReversed(digits: seq<nat>, base: nat)
    requires forall i :: 0 <= i < |digits| ==> digits[i] < base
    requires digits != [] ==> digits[0] != 0
    ensures Canonical(Reversed(digits), base)
  {
    ReversedBelow(digits, base);
    if digits != [] {
      ReversedAt(digits, |digits| - 1);
    }
  }

  /** Decoding undoes encoding, on every byte string. */
  lemma DecodeEncode(bytes: seq<byte>)
    ensures Decoded(Encoded(bytes)) == Some(bytes)
  {
    hide LeadingZeros, LeadingOnes, Digits, Value, Reversed, Text, DigitsOf, Ones, Canonical;
    var z := LeadingZeros(bytes);
    var rest := bytes[z..];
    var digits := Digits(BytesValue(rest), 58);
    DigitsCanonical(BytesValue(rest), 58);
    ReversedCanonical(digits, 58);
    TextDigits(Reversed(digits));
    OnesAhead(z, Text(Reversed(digits)));
    assert (Ones(z) + Text(Reversed(digits)))[z..] == Text(Reversed(digits));
    ReversedTwice(digits);
    CanonicalReversed(rest, 256);
    CanonicalUnique(Reversed(rest), 256);
    ReversedTwice(rest);
    assert bytes == Zeros(z) + rest;
  }

  /** So two signatures never share their text. */
  lemma EncodedInjective(a: seq<byte>, b: seq<byte>)
    requires Encoded(a) == Encoded(b)
    ensures a == b
  {
    hide Encoded, Decoded;
    DecodeEncode(a);
    DecodeEncode(b);
  }

  /** What the decoder made of an accepted text: the canonical digits after its ones. */
  lemma AcceptedText(text: string)
    requires Decoded(text).Some?
    ensures var rest := text[LeadingOnes(text)..];
      && Text(DigitsOf(rest)) == rest && Canonical(Reversed(DigitsOf(rest)), 58)
      && text == Ones(LeadingOnes(text)) + rest
  {
    var rest := text[LeadingOnes(text)..];
    var digits := DigitsOf(rest);
    assert forall i :: 0 <= i < |digits| ==> digits[i] < 58;
    hide Value, Digits, Reversed, Canonical, DigitOf, Decoded;
    forall i | 0 <= i < |rest|
      ensures DigitOf(rest[i]) < 58
    {
      assert digits[i] == DigitOf(rest[i]);
    }
    DigitsText(rest);
    if rest != "" {
      OnlyOneIsZero(rest[0]);
    }
    CanonicalReversed(digits, 58);
  }

  lemma OnlyOneIsZero(c: char)
    ensures DigitOf(c) == 0 <==> c == '1'
  {
  }

  /** And every text the decoder accepts is the encoding of what it decodes to. */
  lemma EncodeDecode(text: string)
    requires Decoded(text).Some?
    ensures Encoded(Decoded(text).value) == text
  {
    AcceptedText(text);
    var z := LeadingOnes(text);
    var digits := DigitsOf(text[z..]);
    hide LeadingZeros, LeadingOnes, Digits, Value, Reversed, Text, DigitsOf, DigitOf, Ones, Canonical;
    CanonicalUnique(Reversed(digits), 58);
    ReversedTwice(digits);
    var number := Digits(Value(Reversed(digits), 58), 256);
    DigitsCanonical(Value(Reversed(digits), 58), 256);
    ReversedCanonical(number, 256);
    ReversedTwice(number);
    ZerosAhead(z, Reversed(number));
    assert (Zeros(z) + Reversed(number))[z..] == Reversed(number);
  }
}
