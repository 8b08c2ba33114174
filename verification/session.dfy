/**
 * Session resolution for a scan: reuse the `userSessionId` cookie when the
 * client sent a non-empty one, otherwise mint an id from 16 random bytes and
 * tell the transport to set the cookie (index.js lines 69-71 and 92-105).
 */
module Session {
  import opened Wrappers

  type byte = b: int | 0 <= b < 256

  const HexDigits: string := "0123456789abcdef"

  const SessionCookie: string := "userSessionId"

  /** `24 * 60 * 60 * 1000`: one day, in milliseconds. */
  const OneDayMs: int := 86_400_000

  /** Number of random bytes `crypto.randomBytes(16)` supplies. */
  const SessionIdBytes: nat := 16

  predicate IsLowerHex(s: string)
  {
    forall i :: 0 <= i < |s| ==> s[i] in HexDigits
  }

  /** `Buffer.toString('hex')`: two lower-case digits per byte, high nibble first. */
  function HexEncode(bytes: seq<byte>): (s: string)
    ensures |s| == 2 * |bytes|
    ensures IsLowerHex(s)
  {
    if |bytes| == 0 then ""
    else [HexDigits[bytes[0] / 16], HexDigits[bytes[0] % 16]] + HexEncode(bytes[1..])
  }

  /** The value of one lower-case hex digit, if it is one. */
  function HexValue(c: char): (v: Option<nat>)
    ensures v.Some? ==> v.value < 16 && HexDigits[v.value] == c
    ensures v.None? ==> c !in HexDigits
  {
    if '0' <= c <= '9' then Some(c as int - '0' as int)
    else if 'a' <= c <= 'f' then Some(c as int - 'a' as int + 10)
    else None
  }

  /** Reads a lower-case hex string back into bytes; the reference inverse of `HexEncode`. */
  function HexDecode(s: string): Option<seq<byte>>
  {
    if |s| == 0 then Some([])
    else if |s| == 1 then None
    else
      var hi, lo, rest := HexValue(s[0]), HexValue(s[1]), HexDecode(s[2..]);
      if hi.Some? && lo.Some? && rest.Some? then Some([hi.value * 16 + lo.value] + rest.value)
      else None
  }

  /** Each byte's two digits read back as that byte. */
  lemma {:induction false} ByteDigits(b: byte)
    ensures HexValue(HexDigits[b / 16]).Some? && HexValue(HexDigits[b % 16]).Some?
    ensures HexValue(HexDigits[b / 16]).value * 16 + HexValue(HexDigits[b % 16]).value == b
  {
    var hi, lo := b / 16, b % 16;
    assert HexValue(HexDigits[hi]) == Some(hi);
    assert HexValue(HexDigits[lo]) == Some(lo);
  }

  /** One step of `HexDecode` over a well-formed leading pair. */
  lemma HexDecodeUnfold(s: string)
    requires |s| >= 2 && HexValue(s[0]).Some? && HexValue(s[1]).Some? && HexDecode(s[2..]).Some?
    ensures HexDecode(s) == Some([HexValue(s[0]).value * 16 + HexValue(s[1]).value] + HexDecode(s[2..]).value)
  {
  }

  /** Decoding a byte's two digits in front of an encoded tail. */
  lemma {:induction false} DecodeStep(b: byte, tail: string, rest: seq<byte>)
    requires HexDecode(tail) == Some(rest)
    ensures HexDecode([HexDigits[b / 16], HexDigits[b % 16]] + tail) == Some([b] + rest)
  {
    var s := [HexDigits[b / 16], HexDigits[b % 16]] + tail;
    assert s[2..] == tail;
    ByteDigits(b);
    HexDecodeUnfold(s);
  }

  /** Decoding an encoding gives back the bytes. */
  lemma {:induction false} HexRoundTrip(bytes: seq<byte>)
    ensures HexDecode(HexEncode(bytes)) == Some(bytes)
  {
    if |bytes| > 0 {
      HexRoundTrip(bytes[1..]);
      DecodeStep(bytes[0], HexEncode(bytes[1..]), bytes[1..]);
      assert [bytes[0]] + bytes[1..] == bytes;
    }
  }

  /** Distinct random bytes give distinct session ids. */
  lemma HexEncodeInjective(a: seq<byte>, b: seq<byte>)
    ensures HexEncode(a) == HexEncode(b) <==> a == b
  {
    HexRoundTrip(a);
    HexRoundTrip(b);
  }

  /** `generateUniqueSessionId()`, with the random bytes supplied by the caller. */
  function NewSessionId(random: seq<byte>): (id: string)
    requires |random| == SessionIdBytes
    ensures |id| == 32 && IsLowerHex(id)
    ensures HexDecode(id) == Some(random)
  {
    HexRoundTrip(random);
    HexEncode(random)
  }

  /** The `res.cookie(name, value, options)` instruction handed to the transport. */
  datatype SetCookie = SetCookie(name: string, value: string, httpOnly: bool, secure: bool, maxAgeMs: int)

  /** The session a request is tracked under and the cookie, if any, to set on the reply. */
  datatype Resolution = Resolution(sessionId: string, setCookie: Option<SetCookie>)

  /** `!userSessionId` on the value cookie-parser yields: missing or empty. */
  predicate Falsy(cookie: Option<string>)
  {
    cookie.None? || cookie.value == ""
  }

  /**
   * Reuses a truthy cookie verbatim and sets nothing; otherwise mints a
   * 32-digit hex id from the random bytes and issues it in an http-only,
   * one-day cookie that is secure exactly in production.
   */
  function Resolve(cookie: Option<string>, random: seq<byte>, production: bool): (r: Resolution)
    requires |random| == SessionIdBytes
    ensures r.sessionId != ""
    ensures !Falsy(cookie) ==> r.sessionId == cookie.value && r.setCookie.None?
    ensures Falsy(cookie) ==>
      && |r.sessionId| == 32 && IsLowerHex(r.sessionId)
      && HexDecode(r.sessionId) == Some(random)
      && r.setCookie == Some(SetCookie(SessionCookie, r.sessionId, true, production, OneDayMs))
  {
    if Falsy(cookie) then
      var id := NewSessionId(random);
      Resolution(id, Some(SetCookie(SessionCookie, id, true, production, OneDayMs)))
    else
      Resolution(cookie.value, None)
  }
}
