/**
 * `generateReferralCode` of backend/routes/referral.js: draw four random bytes,
 * write them as eight lower-case hexadecimal characters, and draw again while
 * a referral already uses that code. The random source is a finite stream of
 * four-byte samples supplied by the caller.
 */
module ReferralCode {
  import opened Wrappers
  import opened ReferralModel
  import opened LedgerQueries

  type Byte = b: int | 0 <= b < 256

  /** One draw of `crypto.randomBytes(4)`. */
  type Sample = s: seq<Byte> | |s| == 4 witness [0, 0, 0, 0]

  predicate IsHexDigit(ch: char)
  {
    '0' <= ch <= '9' || 'a' <= ch <= 'f'
  }

  function HexDigit(n: int): (ch: char)
    requires 0 <= n < 16
    ensures IsHexDigit(ch)
  {
    if n < 10 then ('0' as int + n) as char else ('a' as int + n - 10) as char
  }

  function DigitValue(ch: char): (n: int)
    requires IsHexDigit(ch)
    ensures 0 <= n < 16 && HexDigit(n) == ch
  {
    if ch <= '9' then ch as int - '0' as int else ch as int - 'a' as int + 10
  }

  /** `Buffer.toString('hex')`: two lower-case digits per byte, high nibble first. */
  function ToHex(bytes: seq<Byte>): (s: string)
    ensures |s| == 2 * |bytes|
    ensures forall i :: 0 <= i < |s| ==> IsHexDigit(s[i])
  {
    if |bytes| == 0 then ""
    else [HexDigit(bytes[0] / 16), HexDigit(bytes[0] % 16)] + ToHex(bytes[1..])
  }

  /** Reads a hexadecimal string back into bytes. */
  function FromHex(s: string): seq<Byte>
    requires |s| % 2 == 0
    requires forall i :: 0 <= i < |s| ==> IsHexDigit(s[i])
  {
    if |s| == 0 then []
    else [DigitValue(s[0]) * 16 + DigitValue(s[1])] + FromHex(s[2..])
  }

  lemma {:induction false} FromHexToHex(bytes: seq<Byte>)
    ensures FromHex(ToHex(bytes)) == bytes
  {
    if |bytes| > 0 {
      var b := bytes[0];
      var s := ToHex(bytes);
      assert s[2..] == ToHex(bytes[1..]);
      assert DigitValue(HexDigit(b / 16)) == b / 16;
      assert DigitValue(HexDigit(b % 16)) == b % 16;
      FromHexToHex(bytes[1..]);
    }
  }

  /** Distinct draws give distinct codes. */
  lemma ToHexInjective(a: seq<Byte>, b: seq<Byte>)
    requires ToHex(a) == ToHex(b)
    ensures a == b
  {
    FromHexToHex(a);
    FromHexToHex(b);
  }

  /** The shape of every generated code: eight lower-case hexadecimal characters. */
  predicate IsReferralCode(code: Code)
  {
    |code| == 8 && forall i :: 0 <= i < 8 ==> IsHexDigit(code[i])
  }

  predicate CodeTaken(refs: seq<Referral>, code: Code)
  {
    FindByCode(refs, code).Some?
  }

  /**
   * The retry loop. It returns the code of the first draw that no referral
   * uses, and `draws`, the number of samples it consumed; every earlier draw
   * collided. If the stream runs out first, every draw collided.
   */
  method GenerateReferralCode(refs: seq<Referral>, samples: seq<Sample>) returns (code: Option<Code>, draws: nat)
    ensures draws <= |samples|
    ensures code.Some? ==> 0 < draws && code.value == ToHex(samples[draws - 1])
    ensures code.Some? ==> IsReferralCode(code.value) && !CodeTaken(refs, code.value)
    ensures code.None? ==> draws == |samples|
    ensures forall k :: 0 <= k < draws && (code.None? || k < draws - 1) ==> CodeTaken(refs, ToHex(samples[k]))
  {
    code := None;
    draws := 0;
    var isUnique := false;
    while !isUnique && draws < |samples|
      invariant draws <= |samples|
      invariant isUnique <==> code.Some?
      invariant code.Some? ==> 0 < draws && code.value == ToHex(samples[draws - 1]) && !CodeTaken(refs, code.value)
      invariant forall k :: 0 <= k < draws && (code.None? || k < draws - 1) ==> CodeTaken(refs, ToHex(samples[k]))
      decreases |samples| - draws
    {
      var candidate := ToHex(samples[draws]);
      draws := draws + 1;
      var existing := FindByCode(refs, candidate);
      if existing.None? {
        code := Some(candidate);
        isUnique := true;
      }
    }
  }
}
