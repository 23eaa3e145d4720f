/**
 * Password hashing of the back end: bcrypt, with long passwords first
 * replaced by the hexadecimal SHA-256 digest of their UTF-8 bytes, because
 * bcrypt only looks at (and newer versions refuse more than) 72 bytes.
 * bcrypt and SHA-256 themselves are opaque: they are fields of `Primitives`.
 */
module Passwords {
  import opened Common
  import opened Unicode

  /** bcrypt considers at most this many bytes of a password. */
  const BCRYPT_MAX_BYTES := 72

  type Digest = d: seq<byte> | |d| == 32 witness seq(32, _ => 0)

  /** The opaque primitives: SHA-256, `bcrypt.hashpw` (already decoded to text) and `bcrypt.checkpw`, which yields None when it raises. */
  datatype Primitives = Primitives(
    sha256: seq<byte> -> Digest,
    hashpw: (seq<byte>, seq<byte>) -> string,
    checkpw: (seq<byte>, seq<byte>) -> Option<bool>)

  /** What bcrypt promises and the round trip needs: a hash made from at most 72 bytes is non-empty text that checks against those same bytes. */
  ghost predicate BcryptRoundTrips(p: Primitives)
  {
    forall pw: seq<byte>, salt: seq<byte> {:trigger p.hashpw(pw, salt)} ::
      |pw| <= BCRYPT_MAX_BYTES ==>
        p.hashpw(pw, salt) != "" && p.checkpw(pw, Utf8Encode(p.hashpw(pw, salt))) == Some(true)
  }

  const HEX_DIGITS: string := "0123456789abcdef"

  /** `hexdigest()`: two lower-case hexadecimal digits per byte, high nibble first. */
  function HexDigest(d: seq<byte>): (r: string)
    ensures |r| == 2 * |d|
    ensures IsAscii(r)
    ensures forall i :: 0 <= i < |d| ==> r[2 * i] == HEX_DIGITS[d[i] / 16] && r[2 * i + 1] == HEX_DIGITS[d[i] % 16]
  {
    seq(2 * |d|, i requires 0 <= i < 2 * |d| =>
      if i % 2 == 0 then HEX_DIGITS[d[i / 2] / 16] else HEX_DIGITS[d[i / 2] % 16])
  }

  /** The bytes handed to bcrypt for `password`: its UTF-8 encoding, or, when that is longer than 72 bytes, the UTF-8 encoding of its SHA-256 hex digest. */
  function PreHash(password: string, sha256: seq<byte> -> Digest): (r: seq<byte>)
    ensures |r| <= BCRYPT_MAX_BYTES
    ensures |Utf8Encode(password)| <= BCRYPT_MAX_BYTES ==> r == Utf8Encode(password)
    ensures |Utf8Encode(password)| > BCRYPT_MAX_BYTES ==> |r| == 64 && r == Utf8Encode(HexDigest(sha256(Utf8Encode(password))))
  {
    var bytes := Utf8Encode(password);
    if |bytes| > BCRYPT_MAX_BYTES then
      var hex := HexDigest(sha256(bytes));
      AsciiEncoding(hex);
      Utf8Encode(hex)
    else bytes
  }

  /** `hash_password`: bcrypt of the pre-hashed bytes under `salt` (`bcrypt.gensalt()` is an input). */
  function HashPassword(p: Primitives, password: string, salt: seq<byte>): (r: string)
    ensures exists b :: |b| <= BCRYPT_MAX_BYTES && r == p.hashpw(b, salt)
  {
    p.hashpw(PreHash(password, p.sha256), salt)
  }

  /** `verify_password`: bcrypt's check of the pre-hashed bytes, False when bcrypt raises. */
  function VerifyPassword(p: Primitives, password: string, hashed: string): (r: bool)
    ensures r <==> p.checkpw(PreHash(password, p.sha256), Utf8Encode(hashed)) == Some(true)
  {
    match p.checkpw(PreHash(password, p.sha256), Utf8Encode(hashed))
    case Some(ok) => ok
    case None => false
  }

  /** Hashing and verifying pre-process alike, so a password always verifies against its own hash, however long it is. */
  lemma HashThenVerify(p: Primitives, password: string, salt: seq<byte>)
    requires BcryptRoundTrips(p)
    ensures HashPassword(p, password, salt) != ""
    ensures VerifyPassword(p, password, HashPassword(p, password, salt))
  {
    var b := PreHash(password, p.sha256);
    assert p.checkpw(b, Utf8Encode(p.hashpw(b, salt))) == Some(true);
  }

  /** A failing bcrypt check is a plain rejection, never an error. */
  lemma VerifyFailsClosed(p: Primitives, password: string, hashed: string)
    requires p.checkpw(PreHash(password, p.sha256), Utf8Encode(hashed)).None?
    ensures !VerifyPassword(p, password, hashed)
  {
  }
}
