/** The client-side reading of a JSON Web Token (RFC 7519): the payload segment,
    the `exp` claim of section 4.1.4 and the refresh schedule derived from it.
    The payload is decoded with the browser's `atob`, which implements base64
    (section 4 of RFC 4648), not the base64url alphabet that section 2 of
    RFC 7515 prescribes for JWT segments. */
module Jwt {
  import opened Wrappers

  /** What `JSON.parse(atob(segment)).exp` yields: an exception, an absent claim, or
      a number of seconds since the epoch. */
  datatype ExpClaim = Malformed | Missing | ExpiresAt(seconds: int)

  /** The part of `s` before the first `c` (all of `s` when there is none). */
  function Before(s: string, c: char): (p: string)
    ensures c !in p
    ensures |p| <= |s| && p == s[..|p|]
  {
    if s == [] || s[0] == c then [] else [s[0]] + Before(s[1..], c)
  }

  /** The part of `s` after the first `c`, absent when `s` has no `c`. */
  function After(s: string, c: char): (r: Option<string>)
    ensures r.Some? <==> c in s
    ensures r.Some? ==> s == Before(s, c) + [c] + r.value
  {
    if s == [] then None
    else if s[0] == c then Some(s[1..])
    else
      var r := After(s[1..], c);
      assert r.Some? ==> s == [s[0]] + s[1..];
      r
  }

  /** `token.split('.')[1]`: the text between the first and the second dot. */
  function PayloadSegment(token: string): (seg: Option<string>)
    ensures seg.Some? <==> '.' in token
    ensures seg.Some? ==> '.' !in seg.value
  {
    match After(token, '.')
    case None => None
    case Some(rest) => Some(Before(rest, '.'))
  }

  /** The characters `atob` accepts: the base64 alphabet, padding and ASCII whitespace. */
  predicate AtobChar(c: char) {
    ('A' <= c <= 'Z') || ('a' <= c <= 'z') || ('0' <= c <= '9')
    || c == '+' || c == '/' || c == '='
    || c == ' ' || c == '\t' || c == '\n' || c == '\r' || c == '\U{C}'
  }

  predicate AtobAlphabet(s: string) {
    forall i :: 0 <= i < |s| ==> AtobChar(s[i])
  }

  /** The `exp` claim of `token`. `parse` stands for `JSON.parse(atob(segment)).exp`
      on segments made of atob's alphabet; a token without a dot hands
      `atob(undefined)`, that is `atob("undefined")`, nine characters that are no
      base64 quantum, and a segment with any other character makes atob throw. */
  function DecodeExp(token: string, parse: string -> ExpClaim): (claim: ExpClaim)
    ensures '.' !in token ==> claim == Malformed
    ensures PayloadSegment(token).Some? && !AtobAlphabet(PayloadSegment(token).value) ==> claim == Malformed
    ensures PayloadSegment(token).Some? && AtobAlphabet(PayloadSegment(token).value) ==>
              claim == parse(PayloadSegment(token).value)
  {
    match PayloadSegment(token)
    case None => Malformed
    case Some(seg) => if AtobAlphabet(seg) then parse(seg) else Malformed
  }

  /** `isTokenExpired`: decoding failures count as expired; an absent claim makes
      `undefined < now` false. */
  function IsTokenExpired(token: string, now: int, parse: string -> ExpClaim): (expired: bool)
  {
    match DecodeExp(token, parse)
    case Malformed => true
    case Missing => false
    case ExpiresAt(exp) => exp < now
  }

  /** A token whose `exp` is `e` is expired exactly when `e < now`: at `e == now`
      it is still accepted. */
  lemma ExpiredIffStrictlyPast(token: string, now: int, parse: string -> ExpClaim, e: int)
    requires DecodeExp(token, parse) == ExpiresAt(e)
    ensures IsTokenExpired(token, now, parse) <==> e < now
    ensures !IsTokenExpired(token, e, parse)
  {
  }

  /** Expiry is permanent: a token expired at `now` stays expired later. */
  lemma ExpiryIsMonotone(token: string, now: int, later: int, parse: string -> ExpClaim)
    requires now <= later
    requires IsTokenExpired(token, now, parse)
    ensures IsTokenExpired(token, later, parse)
  {
  }

  /** A token whose payload segment uses the base64url characters '-' or '_' is
      expired at every time and for every payload parser. */
  lemma UrlSafePayloadIsExpired(token: string, now: int, parse: string -> ExpClaim, i: nat)
    requires PayloadSegment(token).Some?
    requires i < |PayloadSegment(token).value|
    requires PayloadSegment(token).value[i] in {'-', '_'}
    ensures DecodeExp(token, parse) == Malformed
    ensures IsTokenExpired(token, now, parse)
  {
    var seg := PayloadSegment(token).value;
    assert !AtobChar(seg[i]);
  }

  /** A token without a payload segment is expired. */
  lemma DotlessTokenIsExpired(token: string, now: int, parse: string -> ExpClaim)
    requires '.' !in token
    ensures IsTokenExpired(token, now, parse)
  {
  }

  function Max(a: int, b: int): int { if a >= b then a else b }

  /** `Math.max(timeUntilExpiry - 3600, 60000)`: seconds until the refresh fires. */
  function RefreshDelaySeconds(exp: int, now: int): (delay: int)
    ensures delay >= 60000
    ensures exp - now > 63600 ==> delay == exp - now - 3600
    ensures exp - now <= 63600 ==> delay == 60000
  {
    Max(exp - now - 3600, 60000)
  }

  /** The delay in milliseconds that `setupTokenRefresh` hands to `setTimeout`, or
      None when decoding throws and no timer is set. An absent claim makes the
      delay NaN, which a timer treats as zero. */
  function RefreshTimerMs(claim: ExpClaim, now: int): (ms: Option<int>)
    ensures claim.Malformed? <==> ms.None?
    ensures claim.Missing? ==> ms == Some(0)
    ensures claim.ExpiresAt? ==> ms.Some? && ms.value >= 60000000
                                 && ms.value == 1000 * RefreshDelaySeconds(claim.seconds, now)
  {
    match claim
    case Malformed => None
    case Missing => Some(0)
    case ExpiresAt(exp) => Some(RefreshDelaySeconds(exp, now) * 1000)
  }

  /** The 60000 floor is in seconds (16 h 40 min), not one minute: every token with
      less than that left is refreshed only after it has expired. */
  lemma RefreshFiresAfterExpiry(exp: int, now: int)
    requires exp - now < 60000
    ensures now + RefreshDelaySeconds(exp, now) > exp
  {
  }

  /** The wait a browser timer actually applies to a delay of `ms` milliseconds:
      the delay is converted to a signed 32-bit `long`, so it wraps modulo 2^32,
      and a negative result is treated as zero (section 8.6 of the HTML Living
      Standard, with Web IDL's conversion to `long`). */
  function TimerWaitMs(ms: int): (wait: int)
    ensures 0 <= wait < 0x8000_0000
    ensures 0 <= ms < 0x8000_0000 ==> wait == ms
    ensures 0x8000_0000 <= ms < 0x1_0000_0000 ==> wait == 0
  {
    var low := ms % 0x1_0000_0000;
    if low < 0x8000_0000 then low else 0
  }

  /** Tokens with more than 63600 s left, up to the largest delay a timer holds,
      are refreshed exactly one hour before expiry. */
  lemma RefreshOneHourEarly(exp: int, now: int)
    requires 63600 < exp - now <= 2151083
    ensures now + RefreshDelaySeconds(exp, now) == exp - 3600
    ensures TimerWaitMs(1000 * RefreshDelaySeconds(exp, now)) == 1000 * (exp - 3600 - now)
  {
  }

  /** From 2151084 s left (about 24.9 days) the delay in milliseconds passes
      2^31 - 1 and wraps negative: up to 4298567 s left the refresh fires at once. */
  lemma LongLivedTokenRefreshesAtOnce(exp: int, now: int)
    requires 2151084 <= exp - now <= 4298567
    ensures TimerWaitMs(1000 * RefreshDelaySeconds(exp, now)) == 0
  {
  }
}
