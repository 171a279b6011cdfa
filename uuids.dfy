/**
 * UUIDs as the handlers see them: 16 bytes, written out as 36 characters of
 * lower-case hexadecimal in the groups 8-4-4-4-12, and read back by the
 * library parser `uuid.Parse`, which accepts four textual forms.
 */
module Uuids {
  import opened Wrappers

  type Byte = b: int | 0 <= b < 256

  type Uuid = s: seq<Byte> | |s| == 16 witness [0, 0, 0, 0, 0, 0, 0, 0, 0, 0, 0, 0, 0, 0, 0, 0]

  /** `uuid.Nil`, the zero value of a UUID field. */
  const Nil: Uuid := [0, 0, 0, 0, 0, 0, 0, 0, 0, 0, 0, 0, 0, 0, 0, 0]

  /** Value of one hexadecimal digit; either case is accepted. */
  function HexValue(c: char): (r: Option<int>)
    ensures r.Some? ==> 0 <= r.value < 16
    ensures r.Some? <==> ('0' <= c <= '9' || 'a' <= c <= 'f' || 'A' <= c <= 'F')
  {
    if '0' <= c <= '9' then Some(c as int - '0' as int)
    else if 'a' <= c <= 'f' then Some(c as int - 'a' as int + 10)
    else if 'A' <= c <= 'F' then Some(c as int - 'A' as int + 10)
    else None
  }

  /** The lower-case digit that `String()` writes for a nibble. */
  function HexDigit(n: int): (c: char)
    requires 0 <= n < 16
    ensures HexValue(c) == Some(n)
    ensures !('A' <= c <= 'Z')
  {
    if n < 10 then ('0' as int + n) as char else ('a' as int + n - 10) as char
  }

  /** Two hexadecimal digits as one byte, high nibble first (the library's `xtob`). */
  function HexPair(hi: char, lo: char): (r: Option<Byte>)
    ensures r.Some? <==> HexValue(hi).Some? && HexValue(lo).Some?
    ensures r.Some? ==> r.value / 16 == HexValue(hi).value && r.value % 16 == HexValue(lo).value
  {
    match (HexValue(hi), HexValue(lo))
    case (Some(h), Some(l)) => Some(h * 16 + l)
    case _ => None
  }

  /** Decodes an even-length run of hexadecimal digits, failing on the first bad pair. */
  function DecodeHex(s: string): (r: Option<seq<Byte>>)
    requires |s| % 2 == 0
    ensures r.Some? ==> 2 * |r.value| == |s|
    decreases |s|
  {
    if s == [] then Some([])
    else
      match (HexPair(s[0], s[1]), DecodeHex(s[2..]))
      case (Some(b), Some(rest)) => Some([b] + rest)
      case _ => None
  }

  /** Bytes written as lower-case hexadecimal, two digits per byte. */
  function HexRun(bytes: seq<Byte>): (s: string)
    ensures |s| == 2 * |bytes|
  {
    if bytes == [] then []
    else [HexDigit(bytes[0] / 16), HexDigit(bytes[0] % 16)] + HexRun(bytes[1..])
  }

  /** Five digit groups of lengths 8, 4, 4, 4 and 12 joined by dashes. */
  function Dashed(a: string, b: string, c: string, d: string, e: string): (s: string)
    requires |a| == 8 && |b| == 4 && |c| == 4 && |d| == 4 && |e| == 12
    ensures |s| == 36
    ensures s[8] == '-' && s[13] == '-' && s[18] == '-' && s[23] == '-'
  {
    a + "-" + b + "-" + c + "-" + d + "-" + e
  }

  /** `UUID.String()`: the canonical form xxxxxxxx-xxxx-xxxx-xxxx-xxxxxxxxxxxx. */
  function Format(u: Uuid): (s: string)
    ensures |s| == 36
    ensures s[8] == '-' && s[13] == '-' && s[18] == '-' && s[23] == '-'
  {
    Dashed(HexRun(u[0..4]), HexRun(u[4..6]), HexRun(u[6..8]), HexRun(u[8..10]), HexRun(u[10..16]))
  }

  /** The 32 digits of a 36-character form, with the four dashes left out. */
  function Digits(s: string): (d: string)
    requires |s| == 36
    ensures |d| == 32
  {
    s[0..8] + s[9..13] + s[14..18] + s[19..23] + s[24..36]
  }

  /** Reads a 36-character form: dashes at 8, 13, 18 and 23, hex pairs elsewhere. */
  function ParseDashed(s: string): (r: Option<Uuid>)
    requires |s| == 36
    ensures r.Some? ==> s[8] == '-' && s[13] == '-' && s[18] == '-' && s[23] == '-'
    ensures r.Some? ==> DecodeHex(Digits(s)).Some? && DecodeHex(Digits(s)).value == r.value
    ensures s[8] == '-' && s[13] == '-' && s[18] == '-' && s[23] == '-' && DecodeHex(Digits(s)).Some? ==> r.Some?
  {
    if s[8] != '-' || s[13] != '-' || s[18] != '-' || s[23] != '-' then None
    else
      match DecodeHex(Digits(s))
      case Some(b) => Some(b)
      case None => None
  }

  /** ASCII lower-casing, enough for the fold-insensitive "urn:uuid:" prefix test. */
  function Lower(c: char): (l: char)
    ensures 'A' <= c <= 'Z' ==> l as int == c as int + 32
    ensures !('A' <= c <= 'Z') ==> l == c
  {
    if 'A' <= c <= 'Z' then (c as int + 32) as char else c
  }

  /** The first nine characters spell "urn:uuid:" in any mix of cases. */
  predicate UrnPrefix(s: string)
    requires |s| >= 9
  {
    forall i :: 0 <= i < 9 ==> Lower(s[i]) == "urn:uuid:"[i]
  }

  /**
   * `uuid.Parse`. By length: 36 is the dashed form; 45 is "urn:uuid:" then the
   * dashed form; 38 drops its first character and reads the next 36 as the
   * dashed form (the enclosing braces themselves are never inspected); 32 is
   * bare hexadecimal. Every other length is an error.
   */
  function Parse(s: string): (r: Option<Uuid>)
    ensures |s| !in {32, 36, 38, 45} ==> r.None?
    ensures |s| == 36 ==> r == ParseDashed(s)
    ensures |s| == 38 ==> r == ParseDashed(s[1..37])
  {
    if |s| == 36 then ParseDashed(s)
    else if |s| == 45 then
      if UrnPrefix(s) then ParseDashed(s[9..]) else None
    else if |s| == 38 then ParseDashed(s[1..37])
    else if |s| == 32 then
      match DecodeHex(s)
      case Some(b) => Some(b)
      case None => None
    else None
  }

  lemma {:induction false} HexRunAppend(a: seq<Byte>, b: seq<Byte>)
    ensures HexRun(a + b) == HexRun(a) + HexRun(b)
  {
    if a == [] {
      assert a + b == b;
    } else {
      assert (a + b)[0] == a[0];
      assert (a + b)[1..] == a[1..] + b;
      HexRunAppend(a[1..], b);
    }
  }

  /** Decoding what `HexRun` wrote gives back the bytes. */
  lemma {:induction false} DecodeHexRun(b: seq<Byte>)
    ensures DecodeHex(HexRun(b)) == Some(b)
  {
    if b != [] {
      var s := HexRun(b);
      assert s[2..] == HexRun(b[1..]);
      DecodeHexRun(b[1..]);
      var p := HexPair(s[0], s[1]);
      assert p.Some? && p.value / 16 == b[0] / 16 && p.value % 16 == b[0] % 16;
      assert p.value == b[0];
      assert [b[0]] + b[1..] == b;
    }
  }

  /** Removing the dashes from a joined form gives back the groups, in order. */
  lemma DigitsOfDashed(a: string, b: string, c: string, d: string, e: string)
    requires |a| == 8 && |b| == 4 && |c| == 4 && |d| == 4 && |e| == 12
    ensures Digits(Dashed(a, b, c, d, e)) == a + b + c + d + e
  {
  }

  /** Removing the dashes from the canonical text leaves the hex of all 16 bytes. */
  lemma DigitsOfFormat(u: Uuid)
    ensures Digits(Format(u)) == HexRun(u)
  {
    var p0, p1, p2, p3, p4 := u[0..4], u[4..6], u[6..8], u[8..10], u[10..16];
    assert u == p0 + p1 + p2 + p3 + p4;
    HexRunAppend(p0, p1);
    HexRunAppend(p0 + p1, p2);
    HexRunAppend(p0 + p1 + p2, p3);
    HexRunAppend(p0 + p1 + p2 + p3, p4);
    DigitsOfDashed(HexRun(p0), HexRun(p1), HexRun(p2), HexRun(p3), HexRun(p4));
  }

  /** Round trip: `uuid.Parse(u.String())` gives back `u`. */
  lemma ParseFormat(u: Uuid)
    ensures Parse(Format(u)) == Some(u)
  {
    DigitsOfFormat(u);
    DecodeHexRun(u);
  }

  /** The round trip, for every UUID at once. */
  lemma ParseFormatAll()
    ensures forall u: Uuid :: Parse(Format(u)) == Some(u)
  {
    forall u: Uuid ensures Parse(Format(u)) == Some(u) {
      ParseFormat(u);
    }
  }

  /** Distinct UUIDs have distinct canonical texts. */
  lemma FormatInjective(u: Uuid, v: Uuid)
    requires Format(u) == Format(v)
    ensures u == v
  {
    ParseFormat(u);
    ParseFormat(v);
  }

  /** The 32-character form: bare hexadecimal of the 16 bytes parses back. */
  lemma ParseBare(u: Uuid)
    ensures Parse(HexRun(u)) == Some(u)
  {
    DecodeHexRun(u);
  }

  /**
   * The 38-character form: the first and last characters are never looked
   * at, so the canonical text between any two characters parses back.
   */
  lemma ParseIgnoresEnclosing(u: Uuid, open: char, close: char)
    ensures Parse([open] + Format(u) + [close]) == Some(u)
  {
    var s := [open] + Format(u) + [close];
    assert s[1..37] == Format(u);
    ParseFormat(u);
  }

  /** The 45-character form: "urn:uuid:" in either case, then the canonical text. */
  lemma ParseUrn(u: Uuid)
    ensures Parse("urn:uuid:" + Format(u)) == Some(u)
    ensures Parse("URN:UUID:" + Format(u)) == Some(u)
  {
    var lower, upper := "urn:uuid:" + Format(u), "URN:UUID:" + Format(u);
    assert lower[9..] == Format(u) && upper[9..] == Format(u);
    assert UrnPrefix(lower);
    assert UrnPrefix(upper);
    ParseFormat(u);
  }
}
