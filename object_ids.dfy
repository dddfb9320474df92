/**
 * Mongo ObjectIds as the handlers see them: `ObjectId.isValid` on a request
 * string, and the cast the store applies before it compares ids. A stored id
 * is kept in canonical form, 24 lower-case hexadecimal digits.
 */
module ObjectIds {
  import opened Json

  predicate IsHexDigit(c: char)
  {
    '0' <= c <= '9' || 'a' <= c <= 'f' || 'A' <= c <= 'F'
  }

  predicate IsLowerHexDigit(c: char)
  {
    '0' <= c <= '9' || 'a' <= c <= 'f'
  }

  /** `ObjectId.isValid` on a string: any 12-character string, or 24 hexadecimal digits. */
  predicate IsValidId(s: string)
  {
    |s| == 12 || (|s| == 24 && forall i :: 0 <= i < |s| ==> IsHexDigit(s[i]))
  }

  /** `ObjectId.isValid` on a body value: strings as above, and every number. */
  predicate IsValidIdValue(v: Value)
  {
    match v
    case Str(s) => IsValidId(s)
    case Num(_) => true
    case _ => false
  }

  predicate IsCanonical(s: string)
  {
    |s| == 24 && forall i :: 0 <= i < |s| ==> IsLowerHexDigit(s[i])
  }

  /** The id of a stored record, in its hexadecimal form. */
  type Oid = s: string | IsCanonical(s) witness "000000000000000000000000"

  function LowerHex(c: char): (r: char)
    requires IsHexDigit(c)
    ensures IsLowerHexDigit(r)
  {
    if 'A' <= c <= 'F' then (c as int + 32) as char else c
  }

  function HexDigitChar(d: nat): (c: char)
    requires d < 16
    ensures IsLowerHexDigit(c)
  {
    "0123456789abcdef"[d]
  }

  /** The hexadecimal form of a 12-byte id: two digits per character code (taken modulo 256). */
  function BytesHex(s: string): (r: string)
    ensures |r| == 2 * |s|
    ensures forall i :: 0 <= i < |r| ==> IsLowerHexDigit(r[i])
    ensures forall i :: 0 <= i < |s| ==>
      r[2 * i] == HexDigitChar((s[i] as int % 256) / 16) && r[2 * i + 1] == HexDigitChar((s[i] as int % 256) % 16)
  {
    if s == [] then []
    else
      var b := (s[0] as int) % 256;
      [HexDigitChar(b / 16), HexDigitChar(b % 16)] + BytesHex(s[1..])
  }

  /** Different digit values give different hex digits. */
  lemma HexDigitCharInjective(d: nat, e: nat)
    requires d < 16 && e < 16 && HexDigitChar(d) == HexDigitChar(e)
    ensures d == e
  {
  }

  /**
   * Two 12-character ids cast to the same hex exactly when their character
   * codes agree modulo 256, so ids of different bytes name different records.
   */
  lemma BytesHexInjective(s: string, t: string)
    requires |s| == |t| && BytesHex(s) == BytesHex(t)
    ensures forall i :: 0 <= i < |s| ==> s[i] as int % 256 == t[i] as int % 256
  {
    forall i | 0 <= i < |s|
      ensures s[i] as int % 256 == t[i] as int % 256
    {
      var a, b := s[i] as int % 256, t[i] as int % 256;
      HexDigitCharInjective(a / 16, b / 16);
      HexDigitCharInjective(a % 16, b % 16);
    }
  }

  /** The id a valid request string denotes once the store casts it. */
  function ToOid(s: string): (r: Oid)
    requires IsValidId(s)
    ensures |s| == 24 ==> forall i :: 0 <= i < 24 ==> r[i] == LowerHex(s[i])
  {
    if |s| == 24 then seq(24, i requires 0 <= i < 24 => LowerHex(s[i])) else BytesHex(s)
  }

  /** A canonical id is itself a valid request id and casts to itself. */
  lemma CanonicalRoundTrip(o: Oid)
    ensures IsValidId(o) && ToOid(o) == o
  {
    assert forall i :: 0 <= i < 24 ==> ToOid(o)[i] == o[i];
  }

  /** Two 24-digit ids that differ only in letter case name the same record. */
  lemma {:induction false} CaseInsensitiveIds(s: string, t: string)
    requires |s| == 24 && |t| == 24 && IsValidId(s) && IsValidId(t)
    requires forall i :: 0 <= i < 24 ==> LowerHex(s[i]) == LowerHex(t[i])
    ensures ToOid(s) == ToOid(t)
  {
    assert forall i :: 0 <= i < 24 ==> ToOid(s)[i] == ToOid(t)[i];
  }

  /**
   * What `isValid` accepts: a request string of 12 characters, whatever they
   * are, or of 24 hexadecimal digits, and nothing of any other length; every
   * number; no `null`, boolean, array or object. Every stored id passes.
   */
  lemma ValidIdShapes(s: string, v: Value, o: Oid)
    ensures IsValidId(s) ==> |s| == 12 || |s| == 24
    ensures |s| == 12 ==> IsValidId(s)
    ensures IsValidIdValue(v) <==> (v.Str? && IsValidId(v.s)) || v.Num?
    ensures IsValidId(o)
  {
  }

  /** The two ids quoted by the folder tests: 14 characters is invalid, 12 is valid. */
  lemma TestIds()
    ensures !IsValidId("NOT-A-VALID-ID") && IsValidId("DOESNOTEXIST")
  {
  }
}
