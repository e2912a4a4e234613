/**
 * The student identifier `WC-<creation time in base 36, upper case>` that a
 * profile receives when it is created (app.js:181) or repaired (app.js:152).
 */
module StudentId {
  import opened Base

  const Prefix: string := "WC-"

  /** Upper-cased base-36 digit: 0-9 then A-Z. */
  function Base36Digit(d: nat): (c: char)
    requires d < 36
    ensures ('0' <= c <= '9') || ('A' <= c <= 'Z')
  {
    if d < 10 then ('0' as int + d) as char else ('A' as int + d - 10) as char
  }

  /** The value of a base-36 digit, the inverse of Base36Digit. */
  function DigitValue(c: char): int
  {
    if '0' <= c <= '9' then c as int - '0' as int
    else if 'A' <= c <= 'Z' then c as int - 'A' as int + 10
    else 0
  }

  predicate IsBase36Char(c: char) {
    ('0' <= c <= '9') || ('A' <= c <= 'Z')
  }

  /** `n.toString(36).toUpperCase()` for a natural number. */
  function Base36(n: nat): (r: string)
    ensures |r| > 0 && forall i :: 0 <= i < |r| ==> IsBase36Char(r[i])
    ensures |r| > 1 ==> r[0] != '0'
    decreases n
  {
    if n < 36 then [Base36Digit(n)] else Base36(n / 36) + [Base36Digit(n % 36)]
  }

  /** Reads a string of base-36 digits back. */
  function ParseBase36(s: string): int
  {
    if s == [] then 0 else ParseBase36(s[..|s| - 1]) * 36 + DigitValue(s[|s| - 1])
  }

  lemma {:induction false} Base36RoundTrip(n: nat)
    ensures ParseBase36(Base36(n)) == n
    decreases n
  {
    var r := Base36(n);
    if n < 36 {
      assert r[..0] == [];
    } else {
      assert r[..|r| - 1] == Base36(n / 36);
      Base36RoundTrip(n / 36);
    }
  }

  /**
   * `getTime().toString(36).toUpperCase()` of a creation timestamp; an absent
   * or unparseable date has time NaN, which renders as "NAN".
   */
  function TimeBase36(createdAt: Option<int>): string
  {
    match createdAt
    case None => "NAN"
    case Some(t) => if t < 0 then "-" + Base36(-t) else Base36(t)
  }

  /** The identifier derived from a creation timestamp. */
  function StudentIdFor(createdAt: Option<int>): (r: string)
    ensures |r| > |Prefix| && r[..|Prefix|] == Prefix
  {
    Prefix + TimeBase36(createdAt)
  }

  /** Reads the creation time back from an identifier of a valid timestamp. */
  function CreationTimeOf(id: string): int
    requires |id| > |Prefix|
  {
    var body := id[|Prefix|..];
    if body[0] == '-' then -ParseBase36(body[1..]) else ParseBase36(body)
  }

  /** The identifier of a valid timestamp encodes that timestamp exactly. */
  lemma StudentIdRoundTrip(t: int)
    ensures CreationTimeOf(StudentIdFor(Some(t))) == t
  {
    var id := StudentIdFor(Some(t));
    if t < 0 {
      assert id[|Prefix|..][1..] == Base36(-t);
      Base36RoundTrip(-t);
    } else {
      assert id[|Prefix|..] == Base36(t);
      Base36RoundTrip(t);
    }
  }

  /** Two profiles created at different instants get different identifiers. */
  lemma StudentIdInjective(a: int, b: int)
    requires StudentIdFor(Some(a)) == StudentIdFor(Some(b))
    ensures a == b
  {
    StudentIdRoundTrip(a);
    StudentIdRoundTrip(b);
  }
}
