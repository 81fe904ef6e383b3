/**
 * The parts of a JSON Web Token (RFC 7519) that both sides of the session
 * contract rely on: the claims the backend signs, and the client's way of
 * finding the payload in the JWS compact serialization (section 7.1 of
 * RFC 7515), `header.payload.signature`, with JavaScript's `split('.')`.
 */
module Jwt {
  import opened Wrappers

  /** `expiresIn: '1h'`, in seconds. */
  const ExpiresIn: int := 3600

  /** The claims of a token issued at `iat` for user `userId`; `exp` is when it lapses. */
  datatype Claims = Claims(userId: nat, iat: int, exp: int)

  /** The claims `jwt.sign({ userId }, secret, { expiresIn: '1h' })` puts in a token issued at `now`. */
  function IssueClaims(userId: nat, now: int): (c: Claims)
    ensures c.userId == userId && c.iat == now
    ensures c.exp - c.iat == ExpiresIn
  {
    Claims(userId, now, now + ExpiresIn)
  }

  /** The pieces joined back together, `sep` between consecutive pieces (`pieces.join(sep)`). */
  function Join(pieces: seq<string>, sep: char): string
    requires |pieces| >= 1
  {
    if |pieces| == 1 then pieces[0] else pieces[0] + [sep] + Join(pieces[1..], sep)
  }

  /** `s.split(sep)` for a one-character separator: the maximal runs between separators, empty runs included. */
  function Split(s: string, sep: char): (pieces: seq<string>)
    ensures |pieces| >= 1
    ensures forall i :: 0 <= i < |pieces| ==> sep !in pieces[i]
    ensures Join(pieces, sep) == s
    ensures |pieces| == 1 <==> sep !in s
    decreases |s|
  {
    if |s| == 0 then [""]
    else if s[0] == sep then
      var rest := Split(s[1..], sep);
      assert s == [sep] + s[1..];
      [""] + rest
    else
      var rest := Split(s[1..], sep);
      var pieces := [[s[0]] + rest[0]] + rest[1..];
      assert pieces[1..] == rest[1..];
      assert s == [s[0]] + s[1..];
      pieces
  }

  /**
   * `t.split('.')[1]`: the second dot-separated segment, which in a compact
   * JWS is the encoded payload; `None` (JavaScript's `undefined`) when `t`
   * holds no dot at all.
   */
  function MiddleSegment(t: string): (seg: Option<string>)
    ensures seg.Some? <==> '.' in t
    ensures seg.Some? ==> '.' !in seg.value
  {
    var pieces := Split(t, '.');
    if |pieces| >= 2 then Some(pieces[1]) else None
  }

  /** Splitting at a first piece that holds no separator peels that piece off. */
  lemma {:induction false} SplitAfterPiece(x: string, sep: char, y: string)
    requires sep !in x
    ensures Split(x + [sep] + y, sep) == [x] + Split(y, sep)
    decreases |x|
  {
    if |x| == 0 {
      assert x + [sep] + y == [sep] + y;
      assert ([sep] + y)[1..] == y;
    } else {
      var s := x + [sep] + y;
      assert s[1..] == x[1..] + [sep] + y;
      SplitAfterPiece(x[1..], sep, y);
      assert [x[0]] + x[1..] == x;
    }
  }

  /** In a compact serialization `header.payload.signature` the middle segment is the payload. */
  lemma CompactPayload(header: string, payload: string, signature: string)
    requires '.' !in header && '.' !in payload
    ensures MiddleSegment(header + "." + payload + "." + signature) == Some(payload)
  {
    var t := header + "." + payload + "." + signature;
    assert t == header + ['.'] + (payload + ['.'] + signature);
    SplitAfterPiece(header, '.', payload + ['.'] + signature);
    SplitAfterPiece(payload, '.', signature);
  }
}
