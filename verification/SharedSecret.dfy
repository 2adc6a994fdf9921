/**
 The encoders behind shared-secret authentication (src/shared_secret.rs).

 Each encoder comes with a decoder written from the format it writes -- base64url from
 section 5 of RFC 4648, integers and tuples from Erlang's external term format -- and the
 lemmas say that decoding gives back what was encoded. HMAC-SHA256 is a parameter.
 */
module SharedSecret {
  import opened Common
  import opened Decimal

  // ---------- base64url, without padding ----------

  /** `ALPHABET[i]`. */
  function Letter(i: nat): char
    requires i < 64
  {
    if i < 26 then ('A' as int + i) as char
    else if i < 52 then ('a' as int + (i - 26)) as char
    else if i < 62 then ('0' as int + (i - 52)) as char
    else if i == 62 then '-' else '_'
  }

  /** Table 2 of RFC 4648: three runs, and the two letters that are safe in a URL. */
  lemma LettersAreTheUrlSafeOnes(i: nat)
    requires i < 64
    ensures i == 0 ==> Letter(i) == 'A'
    ensures i == 26 ==> Letter(i) == 'a'
    ensures i == 52 ==> Letter(i) == '0'
    ensures i == 62 ==> Letter(i) == '-'
    ensures i == 63 ==> Letter(i) == '_'
    ensures i !in {0, 26, 52, 62, 63} ==> Letter(i) as int == Letter(i - 1) as int + 1
  {}

  function Index(c: char): Option<nat> {
    if 'A' <= c <= 'Z' then Some(c as int - 'A' as int)
    else if 'a' <= c <= 'z' then Some(c as int - 'a' as int + 26)
    else if '0' <= c <= '9' then Some(c as int - '0' as int + 52)
    else if c == '-' then Some(62)
    else if c == '_' then Some(63)
    else None
  }

  function At(chunk: seq<byte>, i: nat): byte {
    if i < |chunk| then chunk[i] else 0
  }

  function EncodeChunk(chunk: seq<byte>): string
    requires 0 < |chunk| <= 3
  {
    var n := Word(chunk);
    [Letter(n / 262144 % 64), Letter(n / 4096 % 64)]
    + (if |chunk| > 1 then [Letter(n / 64 % 64)] else [])
    + (if |chunk| > 2 then [Letter(n % 64)] else [])
  }

  function Base64url(bytes: seq<byte>): string {
    if bytes == [] then ""
    else if |bytes| <= 3 then EncodeChunk(bytes)
    else EncodeChunk(bytes[..3]) + Base64url(bytes[3..])
  }

  method EncodeBase64url(bytes: seq<byte>) returns (out: string)
    ensures out == Base64url(bytes)
  {
    out := "";
    var i := 0;
    while i < |bytes|
      invariant 0 <= i <= |bytes|
      invariant out + Base64url(bytes[i..]) == Base64url(bytes)
    {
      var end := if |bytes| - i < 3 then |bytes| else i + 3;
      var chunk := bytes[i..end];
      assert chunk == if |bytes[i..]| <= 3 then bytes[i..] else bytes[i..][..3];
      assert bytes[end..] == if |bytes[i..]| <= 3 then [] else bytes[i..][3..];
      out := out + EncodeChunk(chunk);
      i := end;
    }
  }

  function Sextet(s: string, i: nat): nat {
    if i < |s| && Index(s[i]).Some? then Index(s[i]).value else 0
  }

  predicate InAlphabet(s: string) { forall i :: 0 <= i < |s| ==> Index(s[i]).Some? }

  /** The 24 bits that letters make, and the bytes in them. */
  function SextetWord(s: string): nat {
    Sextet(s, 0) * 262144 + Sextet(s, 1) * 4096 + Sextet(s, 2) * 64 + Sextet(s, 3)
  }

  function WordBytes(n: nat): seq<byte> {
    [n / 65536 % 256, n / 256 % 256, n % 256]
  }

  function DecodeChunk(s: string): seq<byte>
    requires 2 <= |s| <= 4 && InAlphabet(s)
  {
    WordBytes(SextetWord(s))[..|s| - 1]
  }

  function DecodeBase64url(s: string): Option<seq<byte>> {
    if s == "" then Some([])
    else if |s| == 1 || !InAlphabet(s) then None
    else if |s| <= 4 then Some(DecodeChunk(s))
    else
      var rest := DecodeBase64url(s[4..]);
      if rest.None? then None else Some(DecodeChunk(s[..4]) + rest.value)
  }

  /** The 24 bits a chunk makes, which are also those its letters make. */
  function Word(chunk: seq<byte>): nat {
    At(chunk, 0) as nat * 65536 + At(chunk, 1) as nat * 256 + At(chunk, 2)
  }

  lemma WordOfSextets(n: nat)
    requires n < 16777216
    ensures (n / 262144 % 64) * 262144 + (n / 4096 % 64) * 4096 + (n / 64 % 64) * 64 + n % 64 == n
  {
    var a, b, c := n / 64, n / 4096, n / 262144;
    assert a / 64 == b && b / 64 == c && c < 64;
    assert n == a * 64 + n % 64 && a == b * 64 + a % 64 && b == c * 64 + b % 64;
  }

  lemma WordIsSmall(chunk: seq<byte>)
    ensures Word(chunk) < 16777216
    ensures |chunk| <= 2 ==> Word(chunk) % 64 == 0
    ensures |chunk| <= 1 ==> Word(chunk) / 64 % 64 == 0
  {}

  lemma BytesOfWord(chunk: seq<byte>)
    ensures WordBytes(Word(chunk)) == [At(chunk, 0), At(chunk, 1), At(chunk, 2)]
  {
    var n, high := Word(chunk), At(chunk, 0) as nat * 256 + At(chunk, 1);
    assert n == high * 256 + At(chunk, 2);
    assert n / 256 == high;
    assert n / 65536 == At(chunk, 0);
  }

  lemma LettersOfChunk(chunk: seq<byte>)
    requires 0 < |chunk| <= 3
    ensures |EncodeChunk(chunk)| == |chunk| + 1 && InAlphabet(EncodeChunk(chunk))
    ensures SextetWord(EncodeChunk(chunk)) == Word(chunk)
  {
    var s, n := EncodeChunk(chunk), Word(chunk);
    WordIsSmall(chunk);
    WordOfSextets(n);
    forall i: nat | i < 64 ensures Index(Letter(i)) == Some(i) {}
    assert Sextet(s, 0) == n / 262144 % 64 && Sextet(s, 1) == n / 4096 % 64;
    assert Sextet(s, 2) == n / 64 % 64 && Sextet(s, 3) == n % 64;
  }

  lemma ChunkRoundTrips(chunk: seq<byte>)
    requires 0 < |chunk| <= 3
    ensures |EncodeChunk(chunk)| == |chunk| + 1 && InAlphabet(EncodeChunk(chunk))
    ensures DecodeChunk(EncodeChunk(chunk)) == chunk
  {
    LettersOfChunk(chunk);
    BytesOfWord(chunk);
    assert [At(chunk, 0), At(chunk, 1), At(chunk, 2)][..|chunk|] == chunk;
  }

  /** Every byte string comes back, and takes the fewest letters that could hold it. */
  lemma {:induction false} Base64urlRoundTrips(bytes: seq<byte>)
    ensures InAlphabet(Base64url(bytes)) && |Base64url(bytes)| == (8 * |bytes| + 5) / 6
    ensures DecodeBase64url(Base64url(bytes)) == Some(bytes)
  {
    if bytes == [] {
    } else if |bytes| <= 3 {
      ChunkRoundTrips(bytes);
    } else {
      var first, rest := EncodeChunk(bytes[..3]), Base64url(bytes[3..]);
      ChunkRoundTrips(bytes[..3]);
      Base64urlRoundTrips(bytes[3..]);
      DecodeAppend(first, rest);
      assert bytes[..3] + bytes[3..] == bytes;
    }
  }

  lemma DecodeAppend(first: string, rest: string)
    requires |first| == 4 && |rest| >= 2 && InAlphabet(first) && InAlphabet(rest)
    ensures InAlphabet(first + rest)
    ensures DecodeBase64url(first + rest)
         == if DecodeBase64url(rest).None? then None else Some(DecodeChunk(first) + DecodeBase64url(rest).value)
  {
    assert (first + rest)[..4] == first && (first + rest)[4..] == rest;
  }

  lemma KnownChunk(chunk: seq<byte>, word: nat)
    requires 0 < |chunk| <= 3 && Word(chunk) == word
    ensures
      var s := EncodeChunk(chunk);
      && s[0] == Letter(word / 262144 % 64) && s[1] == Letter(word / 4096 % 64) && |s| == |chunk| + 1
      && (|chunk| > 1 ==> s[2] == Letter(word / 64 % 64)) && (|chunk| > 2 ==> s[3] == Letter(word % 64))
  {
    hide Letter, Word;
  }

  /** Two examples from section 10 of RFC 4648, and one that takes both of the last two letters. */
  lemma KnownEncodings()
    ensures Base64url([102]) == "Zg" && Base64url([102, 111, 111]) == "Zm9v" && Base64url([0xfb, 0xff]) == "-_8"
  {
    KnownChunk([102], 6684672);
    KnownChunk([102, 111, 111], 6713199);
    KnownChunk([0xfb, 0xff], 16514816);
    hide EncodeChunk;
    assert EncodeChunk([102]) == "Zg";
    assert EncodeChunk([102, 111, 111]) == "Zm9v";
    assert EncodeChunk([0xfb, 0xff]) == "-_8";
  }

  lemma KnownHeaderChunks()
    ensures EncodeChunk([72, 83, 50]) == "SFMy" && EncodeChunk([53, 54]) == "NTY"
  {
    KnownChunk([72, 83, 50], 4739890);
    KnownChunk([53, 54], 3487232);
    hide EncodeChunk;
  }

  /** The header of every token says "HS256". */
  lemma KnownHeader()
    ensures DecodeBase64url("SFMyNTY") == Some([72, 83, 50, 53, 54])
  {
    hide EncodeChunk, DecodeChunk, Letter, Index;
    KnownHeaderChunks();
    ChunkRoundTrips([72, 83, 50]);
    ChunkRoundTrips([53, 54]);
    DecodeAppend("SFMy", "NTY");
    assert "SFMy" + "NTY" == "SFMyNTY" && [72, 83, 50] + [53, 54] == [72, 83, 50, 53, 54];
  }

  // ---------- Erlang's external term format ----------

  const I64_MIN: int := -0x8000_0000_0000_0000
  const I64_MAX: int := 0x7fff_ffff_ffff_ffff

  type i64 = n: int | I64_MIN <= n <= I64_MAX

  /** `unsigned_abs`, which has room for every `i64`. */
  function Abs(n: int): nat { if n < 0 then -n else n }

  const TWO32: nat := 0x1_0000_0000

  /** `to_be_bytes` of a 32-bit word. */
  function BigEndian32(n: nat): seq<byte>
    requires n < TWO32
  {
    [n / 16777216, n / 65536 % 256, n / 256 % 256, n % 256]
  }

  function FromBigEndian32(s: seq<byte>): nat
    requires |s| == 4
  {
    s[0] as nat * 16777216 + s[1] as nat * 65536 + s[2] as nat * 256 + s[3]
  }

  function LittleEndian(n: nat): seq<byte> {
    if n == 0 then [] else [n % 256] + LittleEndian(n / 256)
  }

  function FromLittleEndian(s: seq<byte>): nat {
    if s == [] then 0 else s[0] + 256 * FromLittleEndian(s[1..])
  }

  function Integer(value: i64): seq<byte> {
    if 0 <= value <= 255 then [97, value]
    else if -0x8000_0000 <= value <= 0x7fff_ffff then [98] + BigEndian32(value % TWO32)
    else
      var digits := LittleEndian(Abs(value));
      [110, |digits| % 256, if value < 0 then 1 else 0] + digits
  }

  method EncodeDigits(n: nat) returns (digits: seq<byte>)
    ensures digits == LittleEndian(n)
  {
    digits := [];
    var remaining := n;
    while remaining > 0
      invariant digits + LittleEndian(remaining) == LittleEndian(n)
    {
      assert digits + LittleEndian(remaining) == (digits + [remaining % 256]) + LittleEndian(remaining / 256);
      digits := digits + [remaining % 256];
      remaining := remaining / 256;
    }
  }

  method EncodeInteger(buffer: seq<byte>, value: i64) returns (out: seq<byte>)
    ensures out == buffer + Integer(value)
  {
    if 0 <= value <= 255 {
      out := buffer + [97, value];
    } else if -0x8000_0000 <= value <= 0x7fff_ffff {
      var form := [98] + BigEndian32(value % TWO32);
      out := buffer + form;
    } else {
      var digits := EncodeDigits(Abs(value));
      var form := [110, |digits| % 256, if value < 0 then 1 else 0] + digits;
      out := buffer + form;
    }
  }

  /** The term at the front of `s`, and what follows it. */
  function DecodeInteger(s: seq<byte>): Option<(int, seq<byte>)> {
    if |s| >= 2 && s[0] == 97 then Some((s[1], s[2..]))
    else if |s| >= 5 && s[0] == 98 then
      var n := FromBigEndian32(s[1..5]);
      Some((if n >= 0x8000_0000 then n - TWO32 else n, s[5..]))
    else if |s| >= 3 && s[0] == 110 && |s| >= 3 + s[1] as nat && s[2] <= 1 then
      var n: int := FromLittleEndian(s[3..3 + s[1] as nat]);
      Some((if s[2] == 1 then -n else n, s[3 + s[1] as nat..]))
    else None
  }

  lemma {:induction false} LittleEndianRoundTrips(n: nat)
    ensures FromLittleEndian(LittleEndian(n)) == n
    ensures n > 0 ==> LittleEndian(n) != [] && LittleEndian(n)[|LittleEndian(n)| - 1] != 0
  {
    if n > 0 {
      LittleEndianRoundTrips(n / 256);
      assert LittleEndian(n)[1..] == LittleEndian(n / 256);
    }
  }

  function Pow256(k: nat): nat {
    if k == 0 then 1 else 256 * Pow256(k - 1)
  }

  lemma {:induction false} LittleEndianIsShort(n: nat, k: nat)
    requires n < Pow256(k)
    ensures |LittleEndian(n)| <= k
  {
    if n > 0 {
      LittleEndianIsShort(n / 256, k - 1);
    }
  }

  lemma BigEndian32RoundTrips(n: nat)
    requires n < TWO32
    ensures FromBigEndian32(BigEndian32(n)) == n
  {
    DivideTwice(n, 256);
    DivideTwice(n, 65536);
  }

  lemma DivideTwice(n: nat, d: nat)
    requires d == 256 || d == 65536
    ensures n / d / 256 == n / (d * 256)
  {}

  lemma IntegerFormRoundTrips(value: i64, more: seq<byte>)
    requires -0x8000_0000 <= value <= 0x7fff_ffff && !(0 <= value <= 255)
    ensures DecodeInteger(Integer(value) + more) == Some((value as int, more))
  {
    var s := Integer(value) + more;
    BigEndian32RoundTrips(value % TWO32);
    assert s[0] == 98;
    assert s[1..5] == BigEndian32(value % TWO32) && s[5..] == more;
  }

  /** The big form is minimal: the last of its digits, the most significant, is not zero. */
  lemma BigFormDigits(value: i64)
    requires !(-0x8000_0000 <= value <= 0x7fff_ffff)
    ensures
      var digits := LittleEndian(Abs(value));
      && 4 <= |digits| <= 8 && digits[|digits| - 1] != 0
      && FromLittleEndian(digits) == Abs(value)
      && Integer(value) == [110, |digits|, if value < 0 then 1 else 0] + digits
  {
    LittleEndianRoundTrips(Abs(value));
    assert Pow256(4) == 0x1_0000_0000;
    assert Pow256(8) == 0x1_0000_0000_0000_0000;
    LittleEndianIsShort(Abs(value), 8);
    LittleEndianIsLong(Abs(value));
  }

  lemma BigFormRoundTrips(value: i64, more: seq<byte>)
    requires !(-0x8000_0000 <= value <= 0x7fff_ffff)
    ensures DecodeInteger(Integer(value) + more) == Some((value as int, more))
  {
    var digits := LittleEndian(Abs(value));
    BigFormDigits(value);
    var s := Integer(value) + more;
    assert s[0] == 110 && s[1] == |digits| && s[2] == if value < 0 then 1 else 0;
    assert s[3..3 + |digits|] == digits && s[3 + |digits|..] == more;
  }

  /** Every `i64` decodes back to itself, whatever follows it. */
  lemma IntegerRoundTrips(value: i64, more: seq<byte>)
    ensures DecodeInteger(Integer(value) + more) == Some((value as int, more))
  {
    if 0 <= value <= 255 {
      assert (Integer(value) + more)[2..] == more;
    } else if -0x8000_0000 <= value <= 0x7fff_ffff {
      IntegerFormRoundTrips(value, more);
    } else {
      BigFormRoundTrips(value, more);
    }
  }

  /** The form is the one `term_to_binary` takes: the smallest that the value fits. */
  lemma FormFitsTheValue(value: i64)
    ensures
      var form := Integer(value);
      if 0 <= value <= 255 then |form| == 2 && form[0] == 97
      else if -2147483648 <= value <= 2147483647 then |form| == 5 && form[0] == 98
      else 7 <= |form| <= 11 && form[0] == 110 && form[|form| - 1] != 0
  {
    if !(-0x8000_0000 <= value <= 0x7fff_ffff) {
      BigFormDigits(value);
    }
  }

  lemma LittleEndianIsLong(n: nat)
    requires n >= 0x7fff_ffff
    ensures |LittleEndian(n)| >= 4
  {
    var a, b, c := n / 256, n / 65536, n / 16777216;
    assert a / 256 == b && b / 256 == c && c > 0;
    assert LittleEndian(c) != [];
    assert LittleEndian(b) == [b % 256] + LittleEndian(c);
    assert LittleEndian(a) == [a % 256] + LittleEndian(b);
    assert LittleEndian(n) == [n % 256] + LittleEndian(a);
  }

  /** `{identifier, signed_at_ms, max_age}`; the length of a binary is 32 bits. */
  function Payload(identifier: seq<byte>, signedAtMs: i64, maxAge: i64): seq<byte> {
    [131, 104, 3, 109] + BigEndian32(|identifier| % TWO32) + identifier + Integer(signedAtMs) + Integer(maxAge)
  }

  method EncodePayload(identifier: seq<byte>, signedAtMs: i64, maxAge: i64) returns (out: seq<byte>)
    ensures out == Payload(identifier, signedAtMs, maxAge)
  {
    out := [131, 104, 3];
    out := out + [109] + BigEndian32(|identifier| % TWO32) + identifier;
    out := EncodeInteger(out, signedAtMs);
    out := EncodeInteger(out, maxAge);
  }

  function DecodeNumbers(s: seq<byte>): Option<(int, int)> {
    var signedAt := DecodeInteger(s);
    if signedAt.None? then None else
      var maxAge := DecodeInteger(signedAt.value.1);
      if maxAge.None? || maxAge.value.1 != [] then None
      else Some((signedAt.value.0, maxAge.value.0))
  }

  /** The identifier, and the two terms after it. */
  function SplitPayload(s: seq<byte>): Option<(seq<byte>, seq<byte>)> {
    if |s| < 8 || s[..4] != [131, 104, 3, 109] then None else
      var length := FromBigEndian32(s[4..8]);
      if |s| < 8 + length then None else Some((s[8..8 + length], s[8 + length..]))
  }

  function DecodePayload(s: seq<byte>): Option<(seq<byte>, int, int)> {
    var split := SplitPayload(s);
    if split.None? then None else
      var numbers := DecodeNumbers(split.value.1);
      if numbers.None? then None else Some((split.value.0, numbers.value.0, numbers.value.1))
  }

  lemma SplitHeader(length: nat, body: seq<byte>)
    requires length < TWO32
    ensures SplitPayload([131, 104, 3, 109] + BigEndian32(length) + body)
         == if |body| < length then None else Some((body[..length], body[length..]))
  {
    var tag, size := [131, 104, 3, 109], BigEndian32(length);
    var s := tag + size + body;
    BigEndian32RoundTrips(length);
    assert s[..4] == tag && s[4..8] == size && s[8..] == body;
    if |body| >= length {
      assert s[8..8 + length] == body[..length] && s[8 + length..] == body[length..];
    }
  }

  lemma NumbersRoundTrip(signedAtMs: i64, maxAge: i64)
    ensures DecodeNumbers(Integer(signedAtMs) + Integer(maxAge)) == Some((signedAtMs as int, maxAge as int))
  {
    IntegerRoundTrips(signedAtMs, Integer(maxAge));
    IntegerRoundTrips(maxAge, []);
    assert Integer(maxAge) + [] == Integer(maxAge);
  }

  lemma PayloadIs(identifier: seq<byte>, signedAtMs: i64, maxAge: i64)
    ensures Payload(identifier, signedAtMs, maxAge)
         == [131, 104, 3, 109] + BigEndian32(|identifier| % TWO32)
            + (identifier + (Integer(signedAtMs) + Integer(maxAge)))
  {
    var header := [131, 104, 3, 109] + BigEndian32(|identifier| % TWO32);
    var a, b := Integer(signedAtMs), Integer(maxAge);
    assert header + identifier + a + b == header + (identifier + (a + b));
  }

  lemma SplitIdentifier(identifier: seq<byte>, numbers: seq<byte>)
    ensures
      var split := SplitPayload([131, 104, 3, 109] + BigEndian32(|identifier| % TWO32) + (identifier + numbers));
      if |identifier| < TWO32 then split == Some((identifier, numbers))
      else split.Some? && |split.value.0| < TWO32
  {
    var body := identifier + numbers;
    SplitHeader(|identifier| % TWO32, body);
    if |identifier| < TWO32 {
      assert body[..|identifier|] == identifier && body[|identifier|..] == numbers;
    }
  }

  /** A payload says what it was made of exactly when the identifier's length fits its field. */
  lemma PayloadRoundTrips(identifier: seq<byte>, signedAtMs: i64, maxAge: i64)
    ensures |identifier| < TWO32 <==>
              DecodePayload(Payload(identifier, signedAtMs, maxAge))
              == Some((identifier, signedAtMs as int, maxAge as int))
  {
    PayloadIs(identifier, signedAtMs, maxAge);
    var numbers := Integer(signedAtMs) + Integer(maxAge);
    SplitIdentifier(identifier, numbers);
    NumbersRoundTrip(signedAtMs, maxAge);
  }

  // ---------- The token ----------

  const PROTECTED: string := "SFMyNTY"

  type Mac = (seq<byte>, string) -> seq<byte>

  function Token(key: seq<byte>, payload: seq<byte>, mac: Mac): string {
    var plainText := PROTECTED + "." + Base64url(payload);
    plainText + "." + Base64url(mac(key, plainText))
  }

  /** What comes before the first dot, and after it. */
  function SplitDot(s: string): (string, string) {
    if s == "" then ("", "")
    else if s[0] == '.' then ("", s[1..])
    else var (head, tail) := SplitDot(s[1..]); ([s[0]] + head, tail)
  }

  lemma {:induction false} SplitDotAppend(head: string, tail: string)
    requires '.' !in head
    ensures SplitDot(head + "." + tail) == (head, tail)
  {
    var s := head + "." + tail;
    if head == "" {
      assert s[0] == '.' && s[1..] == tail;
    } else {
      assert s[0] == head[0] && s[0] != '.' && s[1..] == head[1..] + "." + tail;
      SplitDotAppend(head[1..], tail);
      assert [head[0]] + head[1..] == head;
    }
  }

  lemma NoDots(s: string)
    requires InAlphabet(s)
    ensures '.' !in s
  {}

  /** Splitting a token at its dots gives the header, the payload and the signature back. */
  lemma TokenParses(key: seq<byte>, payload: seq<byte>, mac: Mac)
    ensures
      var (header, rest) := SplitDot(Token(key, payload, mac));
      var (body, signature) := SplitDot(rest);
      && header == "SFMyNTY"
      && DecodeBase64url(body) == Some(payload)
      && DecodeBase64url(signature) == Some(mac(key, header + "." + body))
      && '.' !in signature
  {
    var body := Base64url(payload);
    var plainText := PROTECTED + "." + body;
    var signature := Base64url(mac(key, plainText));
    Base64urlRoundTrips(payload);
    Base64urlRoundTrips(mac(key, plainText));
    NoDots(body);
    NoDots(signature);
    assert Token(key, payload, mac) == PROTECTED + "." + (body + "." + signature);
    SplitDotAppend(PROTECTED, body + "." + signature);
    SplitDotAppend(body, signature);
  }

  // ---------- The salt ----------

  const SALT_LABEL: string := "NH1:device-socket:shared-secret:connect\n\nx-nh-alg=NH1-HMAC-"

  function Salt(alg: string, key: string, signedAt: int): string {
    SALT_LABEL + alg + "\nx-nh-key=" + key + "\nx-nh-time=" + Signed(signedAt) + "\n"
  }

  /** The first line, and the rest. */
  function SplitLine(s: string): (string, string) {
    if s == "" then ("", "")
    else if s[0] == '\n' then ("", s[1..])
    else var (line, rest) := SplitLine(s[1..]); ([s[0]] + line, rest)
  }

  lemma {:induction false} SplitLineAppend(line: string, rest: string)
    requires '\n' !in line
    ensures SplitLine(line + "\n" + rest) == (line, rest)
  {
    var s := line + "\n" + rest;
    if line == "" {
      assert s[0] == '\n' && s[1..] == rest;
    } else {
      assert s[0] == line[0] && s[0] != '\n' && s[1..] == line[1..] + "\n" + rest;
      SplitLineAppend(line[1..], rest);
      assert [line[0]] + line[1..] == line;
    }
  }

  /** Line by line: what it is for, a blank, and the three headers it binds. */
  lemma SaltIsTheHeaders(alg: string, key: string, signedAt: int)
    requires '\n' !in alg && '\n' !in key
    ensures
      var (purpose, rest1) := SplitLine(Salt(alg, key, signedAt));
      var (blank, rest2) := SplitLine(rest1);
      var (algorithm, rest3) := SplitLine(rest2);
      var (keyed, rest4) := SplitLine(rest3);
      var (time, rest5) := SplitLine(rest4);
      && purpose == "NH1:device-socket:shared-secret:connect" && blank == ""
      && algorithm == "x-nh-alg=NH1-HMAC-" + alg && keyed == "x-nh-key=" + key
      && time == "x-nh-time=" + Signed(signedAt) && rest5 == ""
  {
    var purpose := "NH1:device-socket:shared-secret:connect";
    var algorithm, keyed, time := "x-nh-alg=NH1-HMAC-" + alg, "x-nh-key=" + key, "x-nh-time=" + Signed(signedAt);
    var rest4 := time + "\n" + "";
    var rest3 := keyed + "\n" + rest4;
    var rest2 := algorithm + "\n" + rest3;
    var rest1 := "" + "\n" + rest2;
    SaltInLines(alg, key, signedAt);
    SplitLineAppend(purpose, rest1);
    SplitLineAppend("", rest2);
    SplitLineAppend(algorithm, rest3);
    SplitLineAppend(keyed, rest4);
    SplitLineAppend(time, "");
  }

  lemma SaltInLines(alg: string, key: string, signedAt: int)
    ensures
      var time := "x-nh-time=" + Signed(signedAt);
      var rest3 := "x-nh-key=" + key + "\n" + (time + "\n" + "");
      var rest2 := "x-nh-alg=NH1-HMAC-" + alg + "\n" + rest3;
      Salt(alg, key, signedAt) == "NH1:device-socket:shared-secret:connect" + "\n" + ("" + "\n" + rest2)
  {
    var digits := Signed(signedAt);
    hide Signed;
    var p, a, k, t := "NH1:device-socket:shared-secret:connect", "x-nh-alg=NH1-HMAC-", "x-nh-key=", "x-nh-time=";
    SaltLabelIs(p, a);
    assert "\nx-nh-key=" == "\n" + k && "\nx-nh-time=" == "\n" + t;
    SaltRegroups(p, a, alg, k, key, t, digits);
  }

  lemma SaltLabelIs(p: string, a: string)
    requires p == "NH1:device-socket:shared-secret:connect" && a == "x-nh-alg=NH1-HMAC-"
    ensures SALT_LABEL == p + "\n" + "\n" + a
  {}

  lemma SaltRegroups(p: string, a: string, alg: string, k: string, key: string, t: string, digits: string)
    ensures
      var end := "\n";
      p + end + end + a + alg + (end + k) + key + (end + t) + digits + end
      == p + end + ("" + end + (a + alg + end + (k + key + end + (t + digits + end + ""))))
  {
    var end := "\n";
    var time := t + digits + end;
    assert (end + t) + digits + end == end + time && time + "" == time;
    assert p + end + end + a + alg + (end + k) + key + (end + t) + digits + end
        == p + end + end + a + alg + (end + k) + key + (end + time);
    assert (end + k) + key + (end + time) == end + (k + key + end + time);
    assert p + end + end + a + alg + (end + k) + key + (end + time)
        == p + end + end + a + alg + (end + (k + key + end + time));
  }

  /** What follows the last `=`. */
  function LastField(s: string): string {
    if s == "" || s[|s| - 1] == '=' then "" else LastField(s[..|s| - 1]) + [s[|s| - 1]]
  }

  lemma {:induction false} LastFieldOf(a: string, field: string)
    requires '=' !in field
    ensures LastField(a + "=" + field) == field
  {
    var s := a + "=" + field;
    if field != "" {
      var most := field[..|field| - 1];
      assert s[..|s| - 1] == a + "=" + most;
      LastFieldOf(a, most);
      assert most + [field[|field| - 1]] == field;
    }
  }

  lemma SameTail(a: string, m: string, b: string, n: string)
    requires '=' !in m && '=' !in n && a + "=" + m == b + "=" + n
    ensures a == b && m == n
  {
    LastFieldOf(a, m);
    LastFieldOf(b, n);
    assert (a + "=" + m)[..|a|] == a && (b + "=" + n)[..|b|] == b;
  }

  lemma SameMiddle(p: string, k1: string, k2: string, field: string)
    requires p + k1 + field == p + k2 + field
    ensures k1 == k2
  {
    var s := p + k1 + field;
    assert s[|p|..|p| + |k1|] == k1 && s[|p|..|p| + |k2|] == k2;
  }

  lemma SameLine(t1: int, t2: int)
    requires Signed(t1) + "\n" == Signed(t2) + "\n"
    ensures t1 == t2
  {
    var m, n := Signed(t1) + "\n", Signed(t2) + "\n";
    assert m[..|m| - 1] == Signed(t1) && n[..|n| - 1] == Signed(t2);
    ValueOfSigned(t1);
    ValueOfSigned(t2);
  }

  /** For one algorithm, no two keys and times share a salt, whatever is in the key. */
  lemma SaltIsInjective(alg: string, k1: string, t1: int, k2: string, t2: int)
    requires Salt(alg, k1, t1) == Salt(alg, k2, t2)
    ensures k1 == k2 && t1 == t2
  {
    var p := SALT_LABEL + alg + "\nx-nh-key=";
    var a, b := p + k1 + "\nx-nh-time", p + k2 + "\nx-nh-time";
    SaltEnds(alg, k1, t1);
    SaltEnds(alg, k2, t2);
    SameTail(a, Signed(t1) + "\n", b, Signed(t2) + "\n");
    SameMiddle(p, k1, k2, "\nx-nh-time");
    SameLine(t1, t2);
  }

  lemma SaltEnds(alg: string, key: string, signedAt: int)
    ensures Salt(alg, key, signedAt)
         == (SALT_LABEL + alg + "\nx-nh-key=") + key + "\nx-nh-time" + "=" + (Signed(signedAt) + "\n")
  {
    assert "\nx-nh-time=" == "\nx-nh-time" + "=";
  }
}
