/** `encodeURIComponent` and `decodeURIComponent` of ECMA-262 6th edition,
    sections 18.2.6.5 and 18.2.6.3 (the Encode and Decode operations of
    section 18.2.6.1): every character outside the unreserved set is written
    as the percent-escaped bytes of its UTF-8 form, in the sense of section
    2.1 of RFC 3986. Strings here are sequences of Unicode scalar values. */
module UriComponent {
  import opened Types

  type Byte = b: int | 0 <= b < 256

  /** The characters `encodeURIComponent` leaves as they are: ASCII letters,
      digits and `- _ . ! ~ * ' ( )`. */
  predicate IsUnreserved(c: char) {
    || 'A' <= c <= 'Z' || 'a' <= c <= 'z' || '0' <= c <= '9'
    || c == '-' || c == '_' || c == '.' || c == '!' || c == '~' || c == '*' || c == '\'' || c == '(' || c == ')'
  }

  predicate IsContinuation(b: int) {
    0x80 <= b < 0xC0
  }

  /** The UTF-8 form of a scalar value (section 3 of RFC 3629). */
  function Utf8(c: char): (bs: seq<Byte>)
    ensures 1 <= |bs| <= 4
    ensures |bs| == 1 <==> (c as int) < 0x80
    ensures |bs| == 1 ==> bs[0] == c as int
    ensures |bs| == 2 ==> 0xC0 <= bs[0] < 0xE0 && 0x80 <= c as int < 0x800
    ensures |bs| == 3 ==> 0xE0 <= bs[0] < 0xF0 && 0x800 <= c as int < 0x10000
    ensures |bs| == 4 ==> 0xF0 <= bs[0] < 0xF8 && 0x10000 <= c as int
    ensures forall i :: 1 <= i < |bs| ==> IsContinuation(bs[i])
  {
    var n := c as int;
    if n < 0x80 then [n]
    else if n < 0x800 then [0xC0 + n / 64, 0x80 + n % 64]
    else if n < 0x10000 then [0xE0 + n / 4096, 0x80 + (n / 64) % 64, 0x80 + n % 64]
    else [0xF0 + n / 262144, 0x80 + (n / 4096) % 64, 0x80 + (n / 64) % 64, 0x80 + n % 64]
  }

  const HexDigits := "0123456789ABCDEF"

  function HexDigit(d: int): (c: char)
    requires 0 <= d < 16
    ensures IsUnreserved(c)
  {
    HexDigits[d]
  }

  /** The value of a hexadecimal digit of either case. */
  function HexValue(c: char): (v: Option<int>)
    ensures v.Some? ==> 0 <= v.value < 16
  {
    if '0' <= c <= '9' then Some(c as int - '0' as int)
    else if 'A' <= c <= 'F' then Some(c as int - 'A' as int + 10)
    else if 'a' <= c <= 'f' then Some(c as int - 'a' as int + 10)
    else None
  }

  lemma HexValueOfDigit(d: int)
    requires 0 <= d < 16
    ensures HexValue(HexDigit(d)) == Some(d)
  {
  }

  /** `%XY` with upper-case hexadecimal digits. */
  function PercentByte(b: Byte): (s: string)
    ensures |s| == 3 && s[0] == '%' && IsUnreserved(s[1]) && IsUnreserved(s[2])
  {
    ['%', HexDigit(b / 16), HexDigit(b % 16)]
  }

  function PercentBytes(bs: seq<Byte>): (s: string)
    ensures |s| == 3 * |bs|
  {
    if bs == [] then [] else PercentByte(bs[0]) + PercentBytes(bs[1..])
  }

  function EncodeChar(c: char): (s: string)
    ensures 1 <= |s|
    ensures IsUnreserved(c) ==> s == [c]
    ensures !IsUnreserved(c) ==> s[0] == '%'
  {
    if IsUnreserved(c) then [c] else PercentBytes(Utf8(c))
  }

  /** Only unreserved characters and `%`: such a string can stand as a
      query parameter value without ending it (no `&`, `#` or `=`). */
  predicate UriSafe(s: string) {
    forall i :: 0 <= i < |s| ==> IsUnreserved(s[i]) || s[i] == '%'
  }

  /** A safe string holds neither of the characters that end a query
      parameter. */
  lemma UriSafeHasNoDelimiters(s: string)
    requires UriSafe(s)
    ensures '&' !in s && '#' !in s
  {
  }

  lemma UriSafeConcat(a: string, b: string)
    requires UriSafe(a) && UriSafe(b)
    ensures UriSafe(a + b)
  {
    forall i | 0 <= i < |a + b| ensures IsUnreserved((a + b)[i]) || (a + b)[i] == '%' {
      if i < |a| { assert (a + b)[i] == a[i]; } else { assert (a + b)[i] == b[i - |a|]; }
    }
  }

  lemma {:induction false} PercentBytesAreSafe(bs: seq<Byte>)
    ensures UriSafe(PercentBytes(bs))
  {
    if bs != [] {
      PercentBytesAreSafe(bs[1..]);
      UriSafeConcat(PercentByte(bs[0]), PercentBytes(bs[1..]));
    }
  }

  /** `encodeURIComponent(s)`. */
  function EncodeURIComponent(s: string): (r: string)
    ensures |r| >= |s|
    ensures UriSafe(r)
  {
    if s == [] then []
    else
      var head := EncodeChar(s[0]);
      assert UriSafe(head) by {
        if !IsUnreserved(s[0]) { PercentBytesAreSafe(Utf8(s[0])); }
      }
      UriSafeConcat(head, EncodeURIComponent(s[1..]));
      head + EncodeURIComponent(s[1..])
  }

  // ------------------------------------------------------ decoding

  /** The byte of a `%XY` escape at the start of `s`. */
  function ReadByte(s: string): (b: Option<Byte>)
    ensures b.Some? ==> |s| >= 3
  {
    if |s| >= 3 && s[0] == '%' && HexValue(s[1]).Some? && HexValue(s[2]).Some? then
      Some(HexValue(s[1]).value * 16 + HexValue(s[2]).value)
    else None
  }

  lemma ReadPercentByte(b: Byte, rest: string)
    ensures ReadByte(PercentByte(b) + rest) == Some(b)
  {
    var s := PercentByte(b) + rest;
    HexValueOfDigit(b / 16);
    HexValueOfDigit(b % 16);
    assert s[0] == '%' && s[1] == HexDigit(b / 16) && s[2] == HexDigit(b % 16);
  }

  /** Reads `count` escaped continuation bytes, folding their low six bits
      into `acc`. */
  function ReadContinuations(s: string, count: nat, acc: int): (r: Option<int>)
    ensures r.Some? ==> |s| >= 3 * count
    decreases count
  {
    if count == 0 then Some(acc)
    else match ReadByte(s)
      case Some(b) =>
        if IsContinuation(b) then ReadContinuations(s[3..], count - 1, acc * 64 + (b - 0x80)) else None
      case None => None
  }

  /** The number of continuation bytes a lead byte announces; 0 for a byte
      that cannot start a multi-byte form. */
  function ContinuationCount(b0: int): (n: nat)
    ensures n <= 3
    ensures n == 1 <==> 0xC0 <= b0 < 0xE0
    ensures n == 2 <==> 0xE0 <= b0 < 0xF0
    ensures n == 3 <==> 0xF0 <= b0 < 0xF8
  {
    if 0xC0 <= b0 < 0xE0 then 1 else if 0xE0 <= b0 < 0xF0 then 2 else if 0xF0 <= b0 < 0xF8 then 3 else 0
  }

  /** The payload bits of a lead byte. */
  function LeadBits(b0: int): int {
    if 0xC0 <= b0 < 0xE0 then b0 - 0xC0 else if 0xE0 <= b0 < 0xF0 then b0 - 0xE0 else b0 - 0xF0
  }

  /** The least scalar value a form with that many continuation bytes may
      carry; anything smaller is an overlong form. */
  function LeastScalar(count: nat): int {
    if count == 1 then 0x80 else if count == 2 then 0x800 else 0x10000
  }

  /** One decoded character and the number of input characters it took, or
      `None` where `decodeURIComponent` throws a URIError. */
  function DecodeOne(s: string): (r: Option<(char, nat)>)
    requires s != []
    ensures r.Some? ==> 1 <= r.value.1 <= |s|
  {
    if s[0] != '%' then Some((s[0], 1))
    else match ReadByte(s)
      case None => None
      case Some(b0) =>
        if b0 < 0x80 then Some((b0 as char, 3))
        else
          var count := ContinuationCount(b0);
          if count == 0 then None
          else match ReadContinuations(s[3..], count, LeadBits(b0))
            case None => None
            case Some(cp) =>
              if LeastScalar(count) <= cp <= 0x10FFFF && !(0xD800 <= cp < 0xE000) then Some((cp as char, 3 * (count + 1)))
              else None
  }

  /** `decodeURIComponent(s)`; `None` is a URIError. */
  function DecodeURIComponent(s: string): (r: Option<string>)
    ensures r.Some? ==> |r.value| <= |s|
    decreases |s|
  {
    if s == [] then Some([])
    else match DecodeOne(s)
      case None => None
      case Some((c, k)) =>
        match DecodeURIComponent(s[k..])
        case None => None
        case Some(rest) => Some([c] + rest)
  }

  // ------------------------------------------------------ round trip

  lemma PercentBytesCons(bs: seq<Byte>, rest: string)
    requires bs != []
    ensures PercentBytes(bs) + rest == PercentByte(bs[0]) + (PercentBytes(bs[1..]) + rest)
    ensures (PercentBytes(bs) + rest)[3..] == PercentBytes(bs[1..]) + rest
  {
    var h, t := PercentByte(bs[0]), PercentBytes(bs[1..]);
    calc {
      PercentBytes(bs) + rest;
      (h + t) + rest;
      h + (t + rest);
    }
    assert |h| == 3;
  }

  /** The continuation bytes of a UTF-8 form read back to the folded value. */
  lemma {:induction false} ReadEncodedContinuations(bs: seq<Byte>, rest: string, acc: int)
    requires forall i :: 0 <= i < |bs| ==> IsContinuation(bs[i])
    ensures ReadContinuations(PercentBytes(bs) + rest, |bs|, acc) == Some(Fold(acc, bs))
    decreases |bs|
  {
    if bs != [] {
      PercentBytesCons(bs, rest);
      ReadPercentByte(bs[0], PercentBytes(bs[1..]) + rest);
      ReadEncodedContinuations(bs[1..], rest, acc * 64 + (bs[0] as int - 0x80));
    }
  }

  /** Folds the low six bits of each continuation byte into `acc`. */
  function Fold(acc: int, bs: seq<int>): int
    decreases |bs|
  {
    if bs == [] then acc else Fold(acc * 64 + (bs[0] - 0x80), bs[1..])
  }

  /** The UTF-8 form folds back to the scalar value. */
  lemma Utf8Folds(c: char)
    ensures var bs := Utf8(c);
      |bs| > 1 ==> Fold(LeadBits(bs[0]), bs[1..]) == c as int
  {
    var n := c as int;
    var bs := Utf8(c);
    if |bs| == 2 {
      FoldSteps(bs[0] as int - 0xC0, bs[1..]);
    } else if |bs| == 3 {
      FoldSteps(bs[0] as int - 0xE0, bs[1..]);
      assert (n / 4096) * 64 + (n / 64) % 64 == n / 64;
    } else if |bs| == 4 {
      FoldSteps(bs[0] as int - 0xF0, bs[1..]);
      assert (n / 262144) * 64 + (n / 4096) % 64 == n / 4096;
      assert (n / 4096) * 64 + (n / 64) % 64 == n / 64;
    }
  }

  /** `Fold` over one, two and three bytes, written out. */
  lemma FoldSteps(acc: int, bs: seq<int>)
    ensures |bs| == 1 ==> Fold(acc, bs) == acc * 64 + (bs[0] - 0x80)
    ensures |bs| == 2 ==> Fold(acc, bs) == (acc * 64 + (bs[0] - 0x80)) * 64 + (bs[1] - 0x80)
    ensures |bs| == 3 ==> Fold(acc, bs) == ((acc * 64 + (bs[0] - 0x80)) * 64 + (bs[1] - 0x80)) * 64 + (bs[2] - 0x80)
  {
    if |bs| >= 1 {
      var a1 := acc * 64 + (bs[0] - 0x80);
      assert Fold(acc, bs) == Fold(a1, bs[1..]);
      if |bs| >= 2 {
        var a2 := a1 * 64 + (bs[1] - 0x80);
        assert bs[1..][1..] == bs[2..];
        assert Fold(a1, bs[1..]) == Fold(a2, bs[2..]);
        if |bs| == 3 {
          var a3 := a2 * 64 + (bs[2] - 0x80);
          assert bs[2..][1..] == [];
          assert Fold(a2, bs[2..]) == Fold(a3, []) == a3;
        }
      }
    }
  }

  /** Decoding reads an encoded character back, whatever follows it. */
  lemma DecodeOneEncodeChar(c: char, rest: string)
    ensures DecodeOne(EncodeChar(c) + rest) == Some((c, |EncodeChar(c)|))
  {
    if !IsUnreserved(c) {
      var bs := Utf8(c);
      PercentBytesCons(bs, rest);
      ReadPercentByte(bs[0], PercentBytes(bs[1..]) + rest);
      if |bs| > 1 {
        DecodeMultiByte(c, rest);
      }
    }
  }

  /** `DecodeOne` on an escaped lead byte, given what its continuation
      bytes fold to. */
  lemma DecodeOneOfLead(s: string, b0: Byte, cp: int)
    requires s != [] && s[0] == '%' && ReadByte(s) == Some(b0) && ContinuationCount(b0) > 0
    requires ReadContinuations(s[3..], ContinuationCount(b0), LeadBits(b0)) == Some(cp)
    requires LeastScalar(ContinuationCount(b0)) <= cp <= 0x10FFFF && !(0xD800 <= cp < 0xE000)
    ensures DecodeOne(s) == Some((cp as char, 3 * (ContinuationCount(b0) + 1)))
  {
  }

  /** An escaped multi-byte form whose lead byte announces its length, whose
      continuation bytes fold to a scalar value in the range of that length,
      decodes to that scalar value. */
  lemma DecodeEscapedForm(bs: seq<Byte>, rest: string, cp: int)
    requires 2 <= |bs| && ContinuationCount(bs[0]) == |bs| - 1
    requires forall i :: 1 <= i < |bs| ==> IsContinuation(bs[i])
    requires Fold(LeadBits(bs[0]), bs[1..]) == cp
    requires LeastScalar(|bs| - 1) <= cp <= 0x10FFFF && !(0xD800 <= cp < 0xE000)
    ensures DecodeOne(PercentBytes(bs) + rest) == Some((cp as char, 3 * |bs|))
  {
    var s := PercentBytes(bs) + rest;
    var tail := PercentBytes(bs[1..]) + rest;
    PercentBytesCons(bs, rest);
    ReadPercentByte(bs[0], tail);
    ReadEncodedContinuations(bs[1..], rest, LeadBits(bs[0]));
    assert s[3..] == tail && |bs[1..]| == |bs| - 1;
    DecodeOneOfLead(s, bs[0], cp);
  }

  /** The multi-byte case: the continuation bytes fold back to the scalar
      value, which passes the range checks. */
  lemma DecodeMultiByte(c: char, rest: string)
    requires |Utf8(c)| > 1
    ensures var s := PercentBytes(Utf8(c)) + rest;
      DecodeOne(s) == Some((c, |s| - |rest|))
  {
    var bs := Utf8(c);
    Utf8Folds(c);
    DecodeEscapedForm(bs, rest, c as int);
  }

  /** `decodeURIComponent(encodeURIComponent(s)) === s`. */
  lemma {:induction false} DecodeEncode(s: string)
    ensures DecodeURIComponent(EncodeURIComponent(s)) == Some(s)
    decreases |s|
  {
    if s != [] {
      var head := EncodeChar(s[0]);
      var tail := EncodeURIComponent(s[1..]);
      assert EncodeURIComponent(s) == head + tail;
      DecodeOneEncodeChar(s[0], tail);
      assert (head + tail)[|head|..] == tail;
      DecodeEncode(s[1..]);
      assert [s[0]] + s[1..] == s;
    }
  }
}
