/**
 * The promotion verifier (app.js:770-793): the expected code is the first
 * eight hexadecimal digits, upper-cased, of the SHA-256 digest (FIPS 180-4) of
 * `"{STUDENTID}-{level}-{secret}"`. The digest itself is a parameter.
 */
module Promotion {
  import opened Text

  type Byte = b: int | 0 <= b < 256

  /** A SHA-256 digest: 32 bytes. */
  type Digest = d: seq<Byte> | |d| == 32 witness seq(32, _ => 0)

  /** Length of the code in hexadecimal digits. */
  const CodeLength: nat := 8

  /** `toString(16)` digit: 0-9 then lower-case a-f. */
  function LowerHexDigit(v: nat): char
    requires v < 16
  {
    if v < 10 then ('0' as int + v) as char else ('a' as int + v - 10) as char
  }

  /** `b.toString(16)`: one digit below 16, two digits otherwise. */
  function ByteToString16(b: Byte): string
  {
    if b < 16 then [LowerHexDigit(b)] else [LowerHexDigit(b / 16), LowerHexDigit(b % 16)]
  }

  /** `s.padStart(2, '0')` */
  function PadStart2(s: string): string
  {
    if |s| < 2 then "0" + s else s
  }

  /** `hashArray.map(b => b.toString(16).padStart(2, '0')).join('')` */
  function HexJoin(bytes: seq<Byte>): string
  {
    if bytes == [] then [] else PadStart2(ByteToString16(bytes[0])) + HexJoin(bytes[1..])
  }

  /** `generateCode`'s formatting: `hex.substring(0, 8).toUpperCase()`. */
  function GenerateCode(d: Digest): (r: string)
    ensures |r| == CodeLength
  {
    var hex := HexJoin(d);
    HexLength(d);
    ToUpper(hex[..CodeLength])
  }

  /** The upper-case hexadecimal digit of a nibble. */
  function UpperHexDigit(v: nat): (c: char)
    requires v < 16
    ensures ('0' <= c <= '9') || ('A' <= c <= 'F')
  {
    if v < 10 then ('0' as int + v) as char else ('A' as int + v - 10) as char
  }

  predicate IsUpperHexChar(c: char) {
    ('0' <= c <= '9') || ('A' <= c <= 'F')
  }

  function NibbleValue(c: char): int
  {
    if '0' <= c <= '9' then c as int - '0' as int else c as int - 'A' as int + 10
  }

  /** Every byte becomes exactly two digits, high nibble first. */
  lemma {:induction false} HexLength(bytes: seq<Byte>)
    ensures |HexJoin(bytes)| == 2 * |bytes|
    ensures forall i :: 0 <= i < |bytes| ==>
              HexJoin(bytes)[2 * i] == LowerHexDigit(bytes[i] / 16)
              && HexJoin(bytes)[2 * i + 1] == LowerHexDigit(bytes[i] % 16)
  {
    if bytes != [] {
      HexLength(bytes[1..]);
      var head := PadStart2(ByteToString16(bytes[0]));
      var tail := HexJoin(bytes[1..]);
      assert head == [LowerHexDigit(bytes[0] / 16), LowerHexDigit(bytes[0] % 16)];
      assert HexJoin(bytes) == head + tail;
      assert |HexJoin(bytes)| == 2 + |tail| == 2 * |bytes|;
      forall i | 1 <= i < |bytes|
        ensures HexJoin(bytes)[2 * i] == LowerHexDigit(bytes[i] / 16)
        ensures HexJoin(bytes)[2 * i + 1] == LowerHexDigit(bytes[i] % 16)
      {
        assert HexJoin(bytes)[2 * i] == tail[2 * (i - 1)];
        assert HexJoin(bytes)[2 * i + 1] == tail[2 * (i - 1) + 1];
        assert bytes[1..][i - 1] == bytes[i];
      }
    }
  }

  /** Code character `2i` and `2i+1` are the upper-case nibbles of digest byte `i`. */
  lemma GenerateCodeDigits(d: Digest)
    ensures var c := GenerateCode(d);
            forall i :: 0 <= i < 4 ==>
              c[2 * i] == UpperHexDigit(d[i] / 16) && c[2 * i + 1] == UpperHexDigit(d[i] % 16)
  {
    HexLength(d);
  }

  /**
   * The code is 8 characters from 0-9A-F: the first four digest bytes, each
   * as two upper-case digits, high nibble first.
   */
  lemma GenerateCodeShape(d: Digest)
    ensures var c := GenerateCode(d);
            |c| == CodeLength
            && (forall i :: 0 <= i < CodeLength ==> IsUpperHexChar(c[i]))
            && (forall i :: 0 <= i < 4 ==>
                  c[2 * i] == UpperHexDigit(d[i] / 16) && c[2 * i + 1] == UpperHexDigit(d[i] % 16))
  {
    GenerateCodeDigits(d);
    var c := GenerateCode(d);
    forall i | 0 <= i < CodeLength ensures IsUpperHexChar(c[i]) {
      var k := i / 2;
      if i == 2 * k {
        assert c[i] == UpperHexDigit(d[k] / 16);
      } else {
        assert i == 2 * k + 1;
        assert c[i] == UpperHexDigit(d[k] % 16);
      }
    }
  }

  /** The bytes a code stands for: two digits per byte. */
  function DecodeCode(c: string): seq<int>
    requires |c| % 2 == 0
  {
    if c == [] then [] else [NibbleValue(c[0]) * 16 + NibbleValue(c[1])] + DecodeCode(c[2..])
  }

  lemma {:induction false} DecodeDigits(c: string, bytes: seq<Byte>)
    requires |c| == 2 * |bytes|
    requires forall i :: 0 <= i < |bytes| ==>
               c[2 * i] == UpperHexDigit(bytes[i] / 16) && c[2 * i + 1] == UpperHexDigit(bytes[i] % 16)
    ensures DecodeCode(c) == bytes
  {
    if bytes != [] {
      forall i | 0 <= i < |bytes| - 1
        ensures c[2..][2 * i] == UpperHexDigit(bytes[1..][i] / 16)
        ensures c[2..][2 * i + 1] == UpperHexDigit(bytes[1..][i] % 16)
      {
        assert c[2..][2 * i] == c[2 * (i + 1)];
        assert c[2..][2 * i + 1] == c[2 * (i + 1) + 1];
      }
      DecodeDigits(c[2..], bytes[1..]);
    }
  }

  /** The code determines, and is determined by, the first four digest bytes. */
  lemma GenerateCodeRoundTrip(d: Digest)
    ensures DecodeCode(GenerateCode(d)) == d[..4]
  {
    GenerateCodeShape(d);
    DecodeDigits(GenerateCode(d), d[..4]);
  }

  lemma GenerateCodeAgreement(d1: Digest, d2: Digest)
    ensures GenerateCode(d1) == GenerateCode(d2) <==> d1[..4] == d2[..4]
  {
    GenerateCodeRoundTrip(d1);
    GenerateCodeRoundTrip(d2);
    if d1[..4] == d2[..4] {
      GenerateCodeShape(d1);
      GenerateCodeShape(d2);
      var c1, c2 := GenerateCode(d1), GenerateCode(d2);
      forall i | 0 <= i < CodeLength ensures c1[i] == c2[i] {
        var k := i / 2;
        assert d1[k] == d1[..4][k] == d2[..4][k] == d2[k];
        assert i == 2 * k || i == 2 * k + 1;
      }
    }
  }

  /** The hashed message `"{STUDENTID}-{level}-{secret}"`. */
  function Message(studentId: string, level: int, secret: string): string
  {
    ToUpper(studentId) + "-" + DecimalString(level) + "-" + secret
  }

  /** The code a master gives for promoting this student to `level`. */
  function ExpectedCode(studentId: string, level: int, secret: string, sha256: string -> Digest): string
  {
    GenerateCode(sha256(Message(studentId, level, secret)))
  }

  /** `code.trim().toUpperCase() === correctCode.toUpperCase()` */
  predicate CodeAccepted(supplied: string, expected: string)
  {
    ToUpper(Trim(supplied)) == ToUpper(expected)
  }

  /** Different target levels give different hashed messages. */
  lemma MessageDistinguishesLevels(studentId: string, a: int, b: int, secret: string)
    requires a != b
    ensures Message(studentId, a, secret) != Message(studentId, b, secret)
  {
    var u := ToUpper(studentId) + "-";
    var sa, sb := DecimalString(a), DecimalString(b);
    var tail := "-" + secret;
    assert Message(studentId, a, secret) == u + sa + tail;
    assert Message(studentId, b, secret) == u + sb + tail;
    if u + sa + tail == u + sb + tail {
      if |sa| == |sb| {
        assert sa == (u + sa + tail)[|u|..|u| + |sa|];
        assert sb == (u + sb + tail)[|u|..|u| + |sb|];
        DecimalInjective(a, b);
      }
    }
  }

  /**
   * A supplied code is accepted exactly when, trimmed and upper-cased, it is
   * the generated code; so surrounding blanks and lower-case letters are tolerated.
   */
  lemma CodeAcceptedIff(supplied: string, d: Digest)
    ensures CodeAccepted(supplied, GenerateCode(d)) <==> ToUpper(Trim(supplied)) == GenerateCode(d)
  {
    GenerateCodeShape(d);
    var c := GenerateCode(d);
    assert ToUpper(c) == c;
  }

  lemma CodeAcceptedPadded(typed: string, pre: string, post: string, d: Digest)
    requires ToUpper(typed) == GenerateCode(d)
    requires forall i :: 0 <= i < |pre| ==> IsSpace(pre[i])
    requires forall i :: 0 <= i < |post| ==> IsSpace(post[i])
    requires typed == [] || (!IsSpace(typed[0]) && !IsSpace(typed[|typed| - 1]))
    ensures CodeAccepted(pre + typed + post, GenerateCode(d))
  {
    TrimPadded(typed, pre, post);
    TrimStartNoop(typed);
    TrimEndNoop(typed);
    CodeAcceptedIff(pre + typed + post, d);
  }
}
