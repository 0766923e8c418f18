// The administrator record of the quiz bot's web API, its password check
// and the reconstruction of the logged-in administrator from the session.
//
// `hash_password` is SHA-256 over the UTF-8 encoding of the password,
// rendered as lower-case hex.  The UTF-8 encoding and the hex rendering
// are modelled here; SHA-256 itself is passed in as a function value
// (`sha256`), so nothing is assumed about it beyond being a function.

module AdminModels {
  import opened Wrappers
  import opened PyValues

  type Byte = b: int | 0 <= b < 256

  /**
   * The dataclass `Admin(id, email, password=None)`.  `id` and `email`
   * are whatever the session held (a dataclass does not check its
   * annotations); `password` is the stored hex digest, or None.
   */
  datatype Admin = Admin(id: Json, email: Json, password: Option<string>)

  // ---------------------------------------------------------------
  // str.encode(): UTF-8 (Dafny chars are Unicode scalar values)
  // ---------------------------------------------------------------

  /** The UTF-8 bytes of one scalar value: 1 to 4 bytes by range. */
  function EncodeChar(c: char): (r: seq<Byte>)
    ensures 1 <= |r| <= 4
    ensures |r| == 1 <==> (c as int) < 0x80
    ensures |r| == 1 ==> r[0] == c as int
    ensures forall i :: 1 <= i < |r| ==> 0x80 <= r[i] < 0xC0
  {
    var n := c as int;
    if n < 0x80 then [n]
    else if n < 0x800 then [0xC0 + n / 64, 0x80 + n % 64]
    else if n < 0x10000 then [0xE0 + n / 4096, 0x80 + n / 64 % 64, 0x80 + n % 64]
    else [0xF0 + n / 0x40000, 0x80 + n / 4096 % 64, 0x80 + n / 64 % 64, 0x80 + n % 64]
  }

  /** `s.encode()`: the concatenation of every character's encoding. */
  function Utf8(s: string): (r: seq<Byte>)
    ensures |s| <= |r| <= 4 * |s|
    decreases |s|
  {
    if s == [] then [] else EncodeChar(s[0]) + Utf8(s[1..])
  }

  predicate IsScalar(n: int) {
    0 <= n < 0xD800 || 0xE000 <= n < 0x110000
  }

  function ScalarOf(n: int, len: nat): Option<(char, nat)> {
    if IsScalar(n) then Some((n as char, len)) else None
  }

  /** Reads one character from the front of `bs`: the character and the number of bytes it took. */
  function DecodeChar(bs: seq<Byte>): (r: Option<(char, nat)>)
    requires |bs| > 0
    ensures r.Some? ==> 1 <= r.value.1 <= |bs|
  {
    var b: seq<int> := bs;
    if b[0] < 0x80 then Some((b[0] as char, 1))
    else if b[0] < 0xC0 then None
    else if b[0] < 0xE0 then
      if |b| < 2 then None else ScalarOf((b[0] - 0xC0) * 64 + (b[1] - 0x80), 2)
    else if b[0] < 0xF0 then
      if |b| < 3 then None
      else ScalarOf((b[0] - 0xE0) * 4096 + (b[1] - 0x80) * 64 + (b[2] - 0x80), 3)
    else
      if |b| < 4 then None
      else ScalarOf((b[0] - 0xF0) * 0x40000 + (b[1] - 0x80) * 4096 + (b[2] - 0x80) * 64 + (b[3] - 0x80), 4)
  }

  /** The inverse of `Utf8`, used to show that encoding loses nothing. */
  function Utf8Decode(bs: seq<Byte>): Option<string>
    decreases |bs|
  {
    if bs == [] then Some([])
    else match DecodeChar(bs)
      case None => None
      case Some((c, n)) =>
        match Utf8Decode(bs[n..])
        case None => None
        case Some(rest) => Some([c] + rest)
  }

  lemma DecodeEncodeChar(c: char, t: seq<Byte>)
    ensures DecodeChar(EncodeChar(c) + t) == Some((c, |EncodeChar(c)|))
  {
    var n := c as int;
    var e := EncodeChar(c);
    if n < 0x80 {
    } else if n < 0x800 {
      assert (n / 64) * 64 + n % 64 == n;
    } else if n < 0x10000 {
      assert (n / 4096) * 4096 + (n / 64 % 64) * 64 + n % 64 == n by {
        assert n / 64 == (n / 4096) * 64 + n / 64 % 64;
      }
    } else {
      assert (n / 0x40000) * 0x40000 + (n / 4096 % 64) * 4096 + (n / 64 % 64) * 64 + n % 64 == n by {
        assert n / 64 == (n / 4096) * 64 + n / 64 % 64;
        assert n / 4096 == (n / 0x40000) * 64 + n / 4096 % 64;
      }
    }
  }

  /** Decoding the encoding gives the string back. */
  lemma {:induction false} Utf8RoundTrip(s: string)
    ensures Utf8Decode(Utf8(s)) == Some(s)
    decreases |s|
  {
    if s != [] {
      var e, t := EncodeChar(s[0]), Utf8(s[1..]);
      assert Utf8(s) == e + t;
      DecodeEncodeChar(s[0], t);
      assert (e + t)[|e|..] == t;
      Utf8RoundTrip(s[1..]);
      assert [s[0]] + s[1..] == s;
    }
  }

  /** Distinct passwords have distinct encodings. */
  lemma Utf8Injective(p: string, q: string)
    ensures Utf8(p) == Utf8(q) <==> p == q
  {
    if Utf8(p) == Utf8(q) {
      Utf8RoundTrip(p);
      Utf8RoundTrip(q);
    }
  }

  // ---------------------------------------------------------------
  // .hexdigest(): two lower-case hex digits per byte
  // ---------------------------------------------------------------

  function HexDigit(n: nat): (ch: char)
    requires n < 16
  {
    if n < 10 then ('0' as int + n) as char else ('a' as int + n - 10) as char
  }

  predicate IsHexDigit(ch: char) {
    '0' <= ch <= '9' || 'a' <= ch <= 'f'
  }

  function HexValue(ch: char): int {
    if ch <= '9' then ch as int - '0' as int else ch as int - 'a' as int + 10
  }

  lemma HexDigitValue(n: nat)
    requires n < 16
    ensures IsHexDigit(HexDigit(n)) && HexValue(HexDigit(n)) == n
  {
  }

  /** `hexdigest()`: each byte as two lower-case hex digits, high nibble first. */
  function HexDigest(d: seq<Byte>): (r: string)
    ensures |r| == 2 * |d|
    ensures forall i :: 0 <= i < |r| ==> IsHexDigit(r[i])
    decreases |d|
  {
    if d == [] then ""
    else
      HexDigitValue(d[0] / 16);
      HexDigitValue(d[0] % 16);
      [HexDigit(d[0] / 16), HexDigit(d[0] % 16)] + HexDigest(d[1..])
  }

  /** Reads pairs of hex digits back into bytes. */
  function FromHex(s: string): seq<int>
    decreases |s|
  {
    if |s| < 2 then [] else [HexValue(s[0]) * 16 + HexValue(s[1])] + FromHex(s[2..])
  }

  lemma {:induction false} FromHexDigest(d: seq<Byte>)
    ensures FromHex(HexDigest(d)) == d
    decreases |d|
  {
    if d != [] {
      HexDigitValue(d[0] / 16);
      HexDigitValue(d[0] % 16);
      var h := HexDigest(d);
      assert h[2..] == HexDigest(d[1..]);
      FromHexDigest(d[1..]);
      assert [d[0]] + d[1..] == d;
    }
  }

  lemma HexDigestInjective(a: seq<Byte>, b: seq<Byte>)
    ensures HexDigest(a) == HexDigest(b) <==> a == b
  {
    if HexDigest(a) == HexDigest(b) {
      FromHexDigest(a);
      FromHexDigest(b);
    }
  }

  // ---------------------------------------------------------------
  // Admin.hash_password, Admin.is_password_valid
  // ---------------------------------------------------------------

  /** SHA-256 of the encoded password, rendered as 64 hex digits when the digest is 32 bytes. */
  function HashPassword(sha256: seq<Byte> -> seq<Byte>, password: string): (r: string)
    ensures |r| == 2 * |sha256(Utf8(password))|
    ensures forall i :: 0 <= i < |r| ==> IsHexDigit(r[i])
  {
    HexDigest(sha256(Utf8(password)))
  }

  /**
   * `self.password == self.hash_password(password)`: a stored None
   * never equals the str the hash returns.
   */
  function IsPasswordValid(admin: Admin, sha256: seq<Byte> -> seq<Byte>, password: string): (r: bool)
    ensures r <==> admin.password.Some? && admin.password.value == HashPassword(sha256, password)
  {
    match admin.password
    case None => false
    case Some(stored) => stored == HashPassword(sha256, password)
  }

  /**
   * Two passwords hash alike exactly when SHA-256 gives their encodings
   * the same digest: the hex rendering and the encoding lose nothing.
   */
  lemma HashDeterministic(sha256: seq<Byte> -> seq<Byte>, p: string, q: string)
    ensures HashPassword(sha256, p) == HashPassword(sha256, q) <==> sha256(Utf8(p)) == sha256(Utf8(q))
    ensures p == q ==> HashPassword(sha256, p) == HashPassword(sha256, q)
  {
    HexDigestInjective(sha256(Utf8(p)), sha256(Utf8(q)));
  }

  /**
   * A collision-free hash makes the stored digest identify the password.
   * The hypothesis is an idealisation: SHA-256 maps every input to 32
   * bytes, so it has collisions and does not meet it.  PasswordRoundTrip
   * is the statement about the real hash.
   */
  lemma HashInjective(sha256: seq<Byte> -> seq<Byte>, p: string, q: string)
    requires forall x, y :: sha256(x) == sha256(y) ==> x == y
    ensures HashPassword(sha256, p) == HashPassword(sha256, q) <==> p == q
  {
    HashDeterministic(sha256, p, q);
    Utf8Injective(p, q);
  }

  /**
   * Round trip: an admin stored with `hash_password(p)` accepts `p`, and
   * accepts another candidate exactly when its digest collides with `p`'s.
   */
  lemma PasswordRoundTrip(id: Json, email: Json, sha256: seq<Byte> -> seq<Byte>, p: string, q: string)
    ensures IsPasswordValid(Admin(id, email, Some(HashPassword(sha256, p))), sha256, p)
    ensures IsPasswordValid(Admin(id, email, Some(HashPassword(sha256, p))), sha256, q)
      <==> sha256(Utf8(q)) == sha256(Utf8(p))
  {
    HashDeterministic(sha256, p, q);
  }

  /** An admin without a stored password rejects every candidate. */
  lemma NoPasswordRejects(admin: Admin, sha256: seq<Byte> -> seq<Byte>)
    requires admin.password.None?
    ensures forall p :: !IsPasswordValid(admin, sha256, p)
  {
  }

  // ---------------------------------------------------------------
  // Admin.get_current_session
  // ---------------------------------------------------------------

  /**
   * `cls(id=session["admin"]["id"], email=session["admin"]["email"])`:
   * the keyword arguments are evaluated left to right, so a failure to
   * read `id` is reported before one reading `email`; `password` keeps
   * its default None.
   */
  function GetCurrentSession(session: Json): (r: Result<Admin, PyError>)
    ensures r.Ok? <==> Path(session, ["admin", "id"]).Ok? && Path(session, ["admin", "email"]).Ok?
    ensures r.Ok? ==>
      && r.value.id == Path(session, ["admin", "id"]).value
      && r.value.email == Path(session, ["admin", "email"]).value
      && r.value.password == None
    ensures Path(session, ["admin", "id"]).Err? ==> r == Err(Path(session, ["admin", "id"]).error)
    ensures Path(session, ["admin", "id"]).Ok? && Path(session, ["admin", "email"]).Err? ==>
      r == Err(Path(session, ["admin", "email"]).error)
  {
    var admin :- Index(session, "admin");
    var id :- Index(admin, "id");
    var email :- Index(admin, "email");
    Ok(Admin(id, email, None))
  }

  /** The administrator read from the session validates no password. */
  lemma SessionAdminRejects(session: Json, sha256: seq<Byte> -> seq<Byte>, p: string)
    requires GetCurrentSession(session).Ok?
    ensures !IsPasswordValid(GetCurrentSession(session).value, sha256, p)
  {
  }

  /** Concrete renderings: "é" is two bytes, and bytes render as lower-case hex. */
  lemma EncodingExamples()
    ensures Utf8("aé") == [0x61, 0xC3, 0xA9]
    ensures HexDigest([0xAB, 0x01]) == "ab01"
  {
    assert Utf8("aé") == EncodeChar('a') + (EncodeChar('é') + Utf8(""));
    assert HexDigest([0xAB, 0x01]) == [HexDigit(10), HexDigit(11)] + ([HexDigit(0), HexDigit(1)] + "");
  }
}
