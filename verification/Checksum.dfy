/** Image checksums: SHA-256 in upper-case hex, compared without regard to case (src/checksum.rs). */
module Checksum {
  import opened Common

  /** The digest function is not modelled: everything here holds of any. */
  type Digest = seq<byte> -> seq<byte>

  function HexDigit(n: nat): char
    requires n < 16
  {
    if n < 10 then ('0' as int + n) as char else ('A' as int + (n - 10)) as char
  }

  function HexUpper(bytes: seq<byte>): string {
    if bytes == [] then "" else [HexDigit(bytes[0] / 16), HexDigit(bytes[0] % 16)] + HexUpper(bytes[1..])
  }

  function AsciiLower(c: char): char {
    if 'A' <= c <= 'Z' then (c as int + 32) as char else c
  }

  /** `eq_ignore_ascii_case`. */
  predicate Matches(expected: string, actual: string) {
    |expected| == |actual| && forall i :: 0 <= i < |expected| ==> AsciiLower(expected[i]) == AsciiLower(actual[i])
  }

  /** The hasher, which holds what it has been given. */
  class Sha256 {
    const digest: Digest
    var absorbed: seq<byte>

    constructor (digest: Digest)
      ensures absorbed == [] && this.digest == digest
    {
      this.digest, absorbed := digest, [];
    }

    method Update(chunk: seq<byte>)
      modifies this
      ensures absorbed == old(absorbed) + chunk
    {
      absorbed := absorbed + chunk;
    }

    method FinalizeHexUpper() returns (hex: string)
      ensures hex == HexUpper(digest(absorbed))
    {
      hex := "";
      var bytes := digest(absorbed);
      assert bytes[0..] == bytes;
      for i := 0 to |bytes|
        invariant hex + HexUpper(bytes[i..]) == HexUpper(bytes)
      {
        assert bytes[i..][1..] == bytes[i + 1..];
        assert hex + ([HexDigit(bytes[i] / 16), HexDigit(bytes[i] % 16)] + HexUpper(bytes[i + 1..]))
            == (hex + [HexDigit(bytes[i] / 16), HexDigit(bytes[i] % 16)]) + HexUpper(bytes[i + 1..]);
        hex := hex + [HexDigit(bytes[i] / 16), HexDigit(bytes[i] % 16)];
      }
    }
  }

  // ---------- What a match means ----------

  function Nibble(c: char): (n: Option<nat>)
    ensures n.Some? ==> n.value < 16
  {
    if '0' <= c <= '9' then Some(c as int - '0' as int)
    else if 'A' <= c <= 'F' then Some(c as int - 'A' as int + 10)
    else if 'a' <= c <= 'f' then Some(c as int - 'a' as int + 10)
    else None
  }

  /** The bytes hex stands for, in either case. */
  function ParseHex(s: string): Option<seq<byte>> {
    if s == "" then Some([])
    else if |s| == 1 then None
    else
      var rest := ParseHex(s[2..]);
      if Nibble(s[0]).None? || Nibble(s[1]).None? || rest.None? then None
      else Some([16 * Nibble(s[0]).value + Nibble(s[1]).value] + rest.value)
  }

  lemma DigitMatches(c: char, n: nat)
    requires n < 16
    ensures AsciiLower(c) == AsciiLower(HexDigit(n)) <==> Nibble(c) == Some(n)
  {}

  lemma PairMatches(s: string, b: byte)
    requires |s| == 2
    ensures Matches(s, [HexDigit(b / 16), HexDigit(b % 16)]) <==>
              Nibble(s[0]) == Some(b / 16) && Nibble(s[1]) == Some(b % 16)
  {
    DigitMatches(s[0], b / 16);
    DigitMatches(s[1], b % 16);
  }

  lemma MatchesAppend(a: string, b: string, c: string, d: string)
    requires |a| == |c|
    ensures Matches(a + b, c + d) <==> Matches(a, c) && Matches(b, d)
  {
    if Matches(a + b, c + d) {
      forall i | 0 <= i < |a| ensures AsciiLower(a[i]) == AsciiLower(c[i]) {
        assert (a + b)[i] == a[i] && (c + d)[i] == c[i];
      }
      forall i | 0 <= i < |b| ensures AsciiLower(b[i]) == AsciiLower(d[i]) {
        assert (a + b)[|a| + i] == b[i] && (c + d)[|c| + i] == d[i];
      }
    }
  }

  lemma HexUpperStep(digest: seq<byte>)
    requires digest != []
    ensures HexUpper(digest) == [HexDigit(digest[0] / 16), HexDigit(digest[0] % 16)] + HexUpper(digest[1..])
  {}

  lemma ParseHexStep(s: string, b: byte, rest: seq<byte>)
    requires |s| >= 2
    ensures ParseHex(s) == Some([b] + rest) <==>
              Nibble(s[0]) == Some(b / 16) && Nibble(s[1]) == Some(b % 16) && ParseHex(s[2..]) == Some(rest)
  {
    assert ([b] + rest)[0] == b && ([b] + rest)[1..] == rest;
    if ParseHex(s).Some? {
      var high, low := Nibble(s[0]).value, Nibble(s[1]).value;
      assert ParseHex(s).value[0] == 16 * high + low && ParseHex(s).value[1..] == ParseHex(s[2..]).value;
      NibblesOf(high, low, b);
    }
  }

  lemma NibblesOf(high: nat, low: nat, b: byte)
    requires high < 16 && low < 16
    ensures 16 * high + low == b as nat <==> high == b / 16 && low == b % 16
  {}

  /** The digest in hex is upper case, two digits to a byte, and reads back. */
  lemma {:induction false} HexReadsBack(bytes: seq<byte>)
    ensures |HexUpper(bytes)| == 2 * |bytes| && ParseHex(HexUpper(bytes)) == Some(bytes)
    ensures forall i :: 0 <= i < |HexUpper(bytes)| ==> HexUpper(bytes)[i] in "0123456789ABCDEF"
  {
    if bytes == [] {
      assert HexUpper(bytes) == "";
    } else {
      hide HexUpper, HexDigit, ParseHex, Nibble;
      HexReadsBack(bytes[1..]);
      HexUpperStep(bytes);
      DigitReadsBack(bytes[0] / 16);
      DigitReadsBack(bytes[0] % 16);
      var s := HexUpper(bytes);
      assert s[2..] == HexUpper(bytes[1..]) && bytes == [bytes[0]] + bytes[1..];
      ParseHexStep(s, bytes[0], bytes[1..]);
    }
  }

  lemma DigitReadsBack(n: nat)
    requires n < 16
    ensures Nibble(HexDigit(n)) == Some(n) && HexDigit(n) in "0123456789ABCDEF"
  {}

  lemma TooShort(expected: string, digest: seq<byte>)
    requires digest == [] || |expected| < 2
    ensures Matches(expected, HexUpper(digest)) <==> ParseHex(expected) == Some(digest)
  {}

  /** An advertised checksum matches exactly when it is hex, in any case, for the digest itself. */
  lemma {:induction false} MatchIsTheDigest(expected: string, digest: seq<byte>)
    ensures Matches(expected, HexUpper(digest)) <==> ParseHex(expected) == Some(digest)
  {
    hide HexUpper, HexDigit, Matches, ParseHex, Nibble;
    if digest == [] || |expected| < 2 {
      TooShort(expected, digest);
    } else {
      var head, tail, b := expected[..2], expected[2..], digest[0];
      var pair := [HexDigit(b / 16), HexDigit(b % 16)];
      HexUpperStep(digest);
      MatchIsTheDigest(tail, digest[1..]);
      PairMatches(head, b);
      MatchesAppend(head, tail, pair, HexUpper(digest[1..]));
      ParseHexStep(expected, b, digest[1..]);
      assert head + tail == expected && digest == [b] + digest[1..];
    }
  }
}
