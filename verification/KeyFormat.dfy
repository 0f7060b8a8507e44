/** Virtual key strings: base-62 digits and the signed key format
    (internal/core/virtualkey-format.go). CRC-32 and the hexadecimal SHA-256 digest are
    parameters. */
module KeyFormat {
  import opened Arithmetic

  const PREFIX := "dk-"
  const PAYLOAD_LEN := 18
  const CHECKSUM_LEN := 4
  const TOTAL_LEN := 25
  const RAW_LIMIT: nat := 0x1_0000_0000_0000_0000_0000_0000_0000   // 14 random bytes

  function Pow62(k: nat): (p: nat)
    ensures p > 0
  {
    if k == 0 then 1 else 62 * Pow62(k - 1)
  }

  /** The digits in order: 0-9, A-Z, a-z. */
  function Digit(d: nat): char
    requires d < 62
  {
    if d < 10 then '0' + d as char else if d < 36 then 'A' + (d - 10) as char else 'a' + (d - 36) as char
  }

  predicate IsBase62Char(c: char) { '0' <= c <= '9' || 'A' <= c <= 'Z' || 'a' <= c <= 'z' }

  function Value(c: char): (d: nat)
    requires IsBase62Char(c)
    ensures d < 62 && Digit(d) == c
  {
    if c <= '9' then (c - '0') as nat else if c <= 'Z' then (c - 'A') as nat + 10 else (c - 'a') as nat + 36
  }

  predicate IsBase62(s: string) { forall i :: 0 <= i < |s| ==> IsBase62Char(s[i]) }

  /** The number a string of digits stands for. */
  function Decode(s: string): nat
    requires IsBase62(s)
  {
    if s == "" then 0 else 62 * Decode(s[..|s| - 1]) + Value(s[|s| - 1])
  }

  /** The last `length` digits of n. */
  function Encode(n: nat, length: nat): (s: string)
    ensures |s| == length && IsBase62(s)
  {
    if length == 0 then "" else Encode(n / 62, length - 1) + [Digit(n % 62)]
  }

  lemma {:induction false} DecodeIsBounded(s: string)
    requires IsBase62(s)
    ensures Decode(s) < Pow62(|s|)
  {
    if s != "" { DecodeIsBounded(s[..|s| - 1]); }
  }

  lemma DivModStep(n: nat, p: nat)
    requires p > 0
    ensures n % (62 * p) == 62 * ((n / 62) % p) + n % 62
  {
    var q := n / 62;
    var a, b := q / p, q % p;
    assert q == p * a + b;
    assert n == 62 * (p * a + b) + n % 62;
    assert n == (62 * p) * a + (62 * b + n % 62);
    assert 0 <= 62 * b + n % 62 < 62 * p;
    Remainder(n, 62 * p, a, 62 * b + n % 62);
  }

  lemma SplitDigit(n: nat, d: nat)
    requires d < 62
    ensures (62 * n + d) / 62 == n && (62 * n + d) % 62 == d
  {}

  /** Encoding keeps the number modulo 62 to the length. */
  lemma {:induction false} EncodeDecodes(n: nat, length: nat)
    ensures Decode(Encode(n, length)) == n % Pow62(length)
  {
    if length > 0 {
      EncodeDecodes(n / 62, length - 1);
      var s := Encode(n, length);
      assert s[..|s| - 1] == Encode(n / 62, length - 1);
      DivModStep(n, Pow62(length - 1));
    }
  }

  /** Every string of digits is the encoding of its value. */
  lemma {:induction false} DecodeEncodes(s: string)
    requires IsBase62(s)
    ensures Encode(Decode(s), |s|) == s
  {
    if s != "" {
      var front, d := s[..|s| - 1], Value(s[|s| - 1]);
      DecodeEncodes(front);
      SplitDigit(Decode(front), d);
      assert Encode(62 * Decode(front) + d, |s|) == Encode(Decode(front), |s| - 1) + [Digit(d)];
      assert s == front + [s[|s| - 1]];
    }
  }

  lemma EncodeCollides(m: nat, n: nat, length: nat)
    ensures Encode(m, length) == Encode(n, length) <==> m % Pow62(length) == n % Pow62(length)
  {
    EncodeDecodes(m, length);
    EncodeDecodes(n, length);
    DecodeEncodes(Encode(m, length));
    DecodeEncodes(Encode(n, length));
  }

  /** The first difference decides, as in a dictionary. */
  ghost predicate Precedes(s: string, t: string) {
    |s| == |t| && exists i :: 0 <= i < |s| && s[..i] == t[..i] && s[i] < t[i]
  }

  /** Encodings sort like the numbers they stand for. */
  lemma {:induction false} EncodeAscends(m: nat, n: nat, length: nat)
    requires m < n < Pow62(length)
    ensures Precedes(Encode(m, length), Encode(n, length))
  {
    if m / 62 < n / 62 { EncodeAscends(m / 62, n / 62, length - 1); }
    OneMoreDigit(Encode(m / 62, length - 1), Encode(n / 62, length - 1), Digit(m % 62), Digit(n % 62));
  }

  lemma OneMoreDigit(s: string, t: string, c: char, d: char)
    requires Precedes(s, t) || (s == t && c < d)
    ensures Precedes(s + [c], t + [d])
  {
    var x, y := s + [c], t + [d];
    if s == t {
      assert x[..|s|] == y[..|s|] && x[|s|] < y[|s|];
    } else {
      var i :| 0 <= i < |s| && s[..i] == t[..i] && s[i] < t[i];
      assert x[..i] == y[..i] && x[i] < y[i];
    }
  }

  // ---- The encoder: digits last to first, then turned around in place.

  /** Two strings that read the same, one from the front and one from the back. */
  predicate Mirrored(s: string, t: string) {
    |s| == |t| && forall k :: 0 <= k < |s| ==> t[k] == s[|s| - 1 - k]
  }

  /** Exchange the ends, then what lies between them. */
  method TurnAround(digits: array<char>)
    modifies digits
    ensures Mirrored(old(digits[..]), digits[..])
  {
    var i, j := 0, digits.Length - 1;
    while i < j
      invariant i + j == digits.Length - 1 && 0 <= i <= j + 1
      invariant forall k :: 0 <= k < digits.Length ==>
        digits[k] == old(digits[if k < i || j < k then digits.Length - 1 - k else k])
    {
      digits[i], digits[j] := digits[j], digits[i];
      i, j := i + 1, j - 1;
    }
  }

  /** `n` after `k` digits were split off. */
  function Shifted(n: nat, k: nat): nat { if k == 0 then n else Shifted(n / 62, k - 1) }

  lemma {:induction false} ShiftedOnce(n: nat, k: nat)
    ensures Shifted(n, k + 1) == Shifted(n, k) / 62
  {
    if k > 0 { ShiftedOnce(n / 62, k - 1); }
  }

  /** The next digit goes in front. */
  lemma {:induction false} EncodeMore(n: nat, k: nat)
    ensures Encode(n, k + 1) == [Digit(Shifted(n, k) % 62)] + Encode(n, k)
  {
    if k == 0 {
      assert Encode(n, 1) == Encode(n / 62, 0) + [Digit(n % 62)];
      assert Encode(n, 1) == [Digit(n % 62)] == [Digit(n % 62)] + Encode(n, 0);
    } else {
      EncodeMore(n / 62, k - 1);
    }
  }

  method Base62Encode(n: nat, length: nat) returns (s: string)
    ensures s == Encode(n, length)
  {
    var rest := n;
    var result := new char[length];
    for k := 0 to length
      invariant rest == Shifted(n, k)
      invariant Mirrored(Encode(n, k), result[..k])
    {
      var digit := rest % 62;
      rest := rest / 62;
      ShiftedOnce(n, k);
      EncodeMore(n, k);
      result[k] := Digit(digit);
    }
    assert result[..length] == result[..];
    TurnAround(result);
    s := result[..];
  }

  // ---- Keys.

  type Crc = string -> nat

  function Checksum(crc: Crc, signed: string): (s: string)
    ensures |s| == CHECKSUM_LEN && IsBase62(s)
  {
    Encode(crc(signed) % Pow62(CHECKSUM_LEN), CHECKSUM_LEN)
  }

  function KeyOf(crc: Crc, raw: nat): string {
    var signed := PREFIX + Encode(raw, PAYLOAD_LEN);
    signed + Checksum(crc, signed)
  }

  type Digest = string -> string

  /** The signature rule: prefix, payload digits, and the checksum of both. */
  ghost predicate Signed(crc: Crc, key: string) {
    exists payload: string ::
      |payload| == PAYLOAD_LEN && IsBase62(payload) && key == PREFIX + payload + Checksum(crc, PREFIX + payload)
  }

  method GenerateVirtualKey(crc: Crc, sha: Digest, raw: nat) returns (key: string, hash: string, prefix: string)
    requires raw < RAW_LIMIT
    ensures key == KeyOf(crc, raw) && |key| == TOTAL_LEN && prefix == key[..11] && hash == sha(key)
    ensures Signed(crc, key)
  {
    var payload := Base62Encode(raw, PAYLOAD_LEN);
    var part := PREFIX + payload;
    var checksum := Base62Encode(crc(part) % Pow62(CHECKSUM_LEN), CHECKSUM_LEN);
    key := part + checksum;
    prefix, hash := key[..11], sha(key);
  }

  /** A key is signed if its last four digits stand for the CRC of the rest modulo 62^4. */
  lemma SignedIffChecksum(crc: Crc, key: string)
    ensures Signed(crc, key) <==>
      && |key| == 25 && key[..3] == "dk-" && IsBase62(key[3..21]) && IsBase62(key[21..])
      && Decode(key[21..]) == crc(key[..21]) % 14776336
  {
    assert Pow62(4) == 14776336;
    if |key| == 25 && key[..3] == "dk-" && IsBase62(key[3..21]) && IsBase62(key[21..]) {
      var payload, ending := key[3..21], key[21..];
      assert key[..21] == PREFIX + payload && key == PREFIX + payload + ending;
      OneChecksumPerPayload(crc, payload, ending);
      EncodingIs(crc(key[..21]) % 14776336, ending);
    }
  }

  lemma EncodingIs(n: nat, s: string)
    requires IsBase62(s) && n < Pow62(|s|)
    ensures s == Encode(n, |s|) <==> Decode(s) == n
  {
    EncodeDecodes(n, |s|);
    DecodeEncodes(s);
  }

  method ValidateKeySignature(crc: Crc, key: string) returns (ok: bool)
    ensures ok <==> Signed(crc, key)
  {
    if |key| != TOTAL_LEN { return false; }
    if key[..|PREFIX|] != PREFIX { return false; }
    for i := |PREFIX| to TOTAL_LEN
      invariant forall k :: |PREFIX| <= k < i ==> IsBase62Char(key[k])
    {
      if !IsBase62Char(key[i]) {
        NotSigned(crc, key, i);
        return false;
      }
    }
    var signed := key[..|PREFIX| + PAYLOAD_LEN];
    var checksum := Base62Encode(crc(signed) % Pow62(CHECKSUM_LEN), CHECKSUM_LEN);
    ok := key[|PREFIX| + PAYLOAD_LEN..] == checksum;
    assert key == signed + key[|PREFIX| + PAYLOAD_LEN..];
    assert signed == PREFIX + signed[|PREFIX|..];
    if ok { assert Signed(crc, key) by { assert IsBase62(signed[|PREFIX|..]); } }
    else { OtherChecksum(crc, key); }
  }

  /** A signed key has only digits after the prefix. */
  lemma NotSigned(crc: Crc, key: string, i: nat)
    requires |key| == TOTAL_LEN && |PREFIX| <= i < |key| && !IsBase62Char(key[i])
    ensures !Signed(crc, key)
  {
    forall payload: string | |payload| == PAYLOAD_LEN && IsBase62(payload)
      ensures key != PREFIX + payload + Checksum(crc, PREFIX + payload)
    {
      var k, c := PREFIX + payload + Checksum(crc, PREFIX + payload), Checksum(crc, PREFIX + payload);
      assert k[i] == if i < 21 then payload[i - 3] else c[i - 21];
    }
  }

  lemma OtherChecksum(crc: Crc, key: string)
    requires |key| == TOTAL_LEN && key[21..] != Checksum(crc, key[..21])
    ensures !Signed(crc, key)
  {
    forall payload: string | |payload| == PAYLOAD_LEN && IsBase62(payload)
      ensures key != PREFIX + payload + Checksum(crc, PREFIX + payload)
    {
      var k := PREFIX + payload + Checksum(crc, PREFIX + payload);
      assert k[..21] == PREFIX + payload && k[21..] == Checksum(crc, PREFIX + payload);
    }
  }

  /** The accepted keys are exactly those a generator can draw. */
  lemma SignedIffGenerated(crc: Crc, key: string)
    ensures Signed(crc, key) <==> exists raw: nat :: raw < RAW_LIMIT && key == KeyOf(crc, raw)
  {
    if Signed(crc, key) {
      var payload: string :|
        |payload| == PAYLOAD_LEN && IsBase62(payload) && key == PREFIX + payload + Checksum(crc, PREFIX + payload);
      DecodeEncodes(payload);
      DecodeIsBounded(payload);
      PayloadsFit();
      assert key == KeyOf(crc, Decode(payload));
    }
  }

  lemma PayloadsFit()
    ensures Pow62(PAYLOAD_LEN) < RAW_LIMIT
  {
    assert Pow62(4) == 14776336;
    assert Pow62(8) == 62 * 62 * 62 * 62 * Pow62(4);
    assert Pow62(12) == 62 * 62 * 62 * 62 * Pow62(8);
    assert Pow62(16) == 62 * 62 * 62 * 62 * Pow62(12);
    assert Pow62(18) == 62 * 62 * Pow62(16);
  }

  /** Of the 62^4 endings of a payload exactly one is accepted. */
  lemma OneChecksumPerPayload(crc: Crc, payload: string, ending: string)
    requires |payload| == PAYLOAD_LEN && IsBase62(payload)
    ensures Signed(crc, PREFIX + payload + ending) <==> ending == Checksum(crc, PREFIX + payload)
  {
    var key := PREFIX + payload + ending;
    if Signed(crc, key) {
      var p: string :| |p| == PAYLOAD_LEN && IsBase62(p) && key == PREFIX + p + Checksum(crc, PREFIX + p);
      assert key[3..21] == p == payload;
      assert key[21..] == ending;
    }
  }

  /** Two draws give the same key exactly when they agree modulo 62^18. */
  lemma KeysCollideExactly(crc: Crc, a: nat, b: nat)
    ensures KeyOf(crc, a) == KeyOf(crc, b) <==> a % Pow62(PAYLOAD_LEN) == b % Pow62(PAYLOAD_LEN)
  {
    EncodeCollides(a, b, PAYLOAD_LEN);
    assert KeyOf(crc, a)[3..21] == Encode(a, PAYLOAD_LEN);
    assert KeyOf(crc, b)[3..21] == Encode(b, PAYLOAD_LEN);
  }
}
