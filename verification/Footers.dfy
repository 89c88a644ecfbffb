// Credential footers of a Tock binary (libraries/tock-tbf/src/parse.rs and
// types.rs): a 2-byte little-endian type, a 2-byte length, then the credential.

module Footers {
  import opened Wrappers

  type Byte = b: int | 0 <= b < 256

  const FOOTER_CREDENTIALS: nat := 128
  const TLV_HEADER_BYTES: nat := 4
  const FORMAT_BYTES: nat := 4

  datatype Format = Reserved | Rsa3072Key | Rsa4096Key | SHA256 | SHA384 | SHA512

  datatype Credentials = Credentials(format: Format, data: seq<Byte>)

  datatype ParseError = NotEnoughFlash | BadTlvEntry(tlvType: nat) | InternalError

  // ------------------------------------------------------- little-endian

  function FromLe(bytes: seq<Byte>): nat
    decreases |bytes|
  {
    if bytes == [] then 0 else bytes[0] + 256 * FromLe(bytes[1..])
  }

  function ToLe(x: nat, width: nat): (bytes: seq<Byte>)
    ensures |bytes| == width
  {
    if width == 0 then [] else [x % 256] + ToLe(x / 256, width - 1)
  }

  function Pow256(n: nat): nat {
    if n == 0 then 1 else 256 * Pow256(n - 1)
  }

  lemma {:induction false} LittleEndian(x: nat, width: nat)
    requires x < Pow256(width)
    ensures FromLe(ToLe(x, width)) == x
    decreases width
  {
    if width > 0 {
      LittleEndian(x / 256, width - 1);
      assert ToLe(x, width)[1..] == ToLe(x / 256, width - 1);
    }
  }

  // -------------------------------------------------------------- formats

  function FormatOf(code: nat): Option<Format> {
    match code
    case 0 => Some(Reserved)
    case 1 => Some(Rsa3072Key)
    case 2 => Some(Rsa4096Key)
    case 3 => Some(SHA256)
    case 4 => Some(SHA384)
    case 5 => Some(SHA512)
    case _ => None
  }

  function CodeOf(format: Format): nat {
    match format
    case Reserved => 0
    case Rsa3072Key => 1
    case Rsa4096Key => 2
    case SHA256 => 3
    case SHA384 => 4
    case SHA512 => 5
  }

  function DataBytes(format: Format): nat {
    match format
    case Reserved => 0
    case Rsa3072Key => 768
    case Rsa4096Key => 1024
    case SHA256 => 32
    case SHA384 => 48
    case SHA512 => 64
  }

  // -------------------------------------------------------------- parsing

  function ParseCredentials(b: seq<Byte>): Result<Credentials, ParseError> {
    if |b| < FORMAT_BYTES then Err(InternalError)
    else
      match FormatOf(FromLe(b[..FORMAT_BYTES]))
      case None => Err(BadTlvEntry(FOOTER_CREDENTIALS))
      case Some(format) =>
        var n := DataBytes(format);
        if |b| < FORMAT_BYTES + n then Err(NotEnoughFlash)
        else Ok(Credentials(format, b[FORMAT_BYTES..FORMAT_BYTES + n]))
  }

  // TbfHeaderTypes as a number: unlisted types all read as Unknown.
  function TypeCode(tipe: nat): nat {
    if tipe in {1, 2, 3, 5, 6, 7, 8, 9, 10, FOOTER_CREDENTIALS} then tipe else 129
  }

  // A parsed footer always lies inside the bytes it was parsed from and takes
  // more than its 4-byte header.
  function ParseFooter(b: seq<Byte>): (r: Result<(Credentials, nat), ParseError>)
    ensures r.Ok? ==> FORMAT_BYTES <= r.value.1 && TLV_HEADER_BYTES + r.value.1 <= |b|
    ensures r.Ok? ==> |r.value.0.data| == DataBytes(r.value.0.format) <= r.value.1 - FORMAT_BYTES
  {
    if |b| < TLV_HEADER_BYTES then Err(NotEnoughFlash)
    else
      var tipe := FromLe(b[..2]);
      var length := FromLe(b[2..4]);
      if tipe != FOOTER_CREDENTIALS then Err(BadTlvEntry(TypeCode(tipe)))
      else if |b| < TLV_HEADER_BYTES + length then Err(NotEnoughFlash)
      else
        match ParseCredentials(b[TLV_HEADER_BYTES..TLV_HEADER_BYTES + length])
        case Err(e) => Err(e)
        case Ok(c) => Ok((c, length))
  }

  function Word16(low: int, high: int): int { low + 256 * high }

  const CREDENTIAL_SIZES: seq<nat> := [0, 768, 1024, 32, 48, 64]

  lemma SliceOfSlice(b: seq<Byte>, i: nat, j: nat, k: nat, l: nat)
    requires i <= j <= |b| && k <= l <= j - i
    ensures b[i..j][k..l] == b[i + k..i + l]
  {
    var inner, outer := b[i..j][k..l], b[i + k..i + l];
    assert forall x :: 0 <= x < l - k ==> inner[x] == b[i..j][k + x] == b[i + k + x] == outer[x];
    assert inner == outer;
  }

  // Exactly the byte strings that start with a well-formed credential footer
  // parse: type 128, a length that is there and holds the format and its data, one
  // of six formats, all little-endian; the data is what follows the format.
  lemma ParsesIff(b: seq<Byte>)
    ensures ParseFooter(b).Ok? <==>
              && |b| >= 8 && b[0] == 128 && b[1] == 0
              && var length := Word16(b[2], b[3]);
                 && |b| >= 4 + length && length >= 4 && b[4] <= 5 && b[5] == b[6] == b[7] == 0
                 && length >= 4 + CREDENTIAL_SIZES[b[4]]
    ensures ParseFooter(b).Ok? ==>
              var (c, length) := ParseFooter(b).value;
              && length == Word16(b[2], b[3]) && b[4] <= 5
              && c.format == [Reserved, Rsa3072Key, Rsa4096Key, SHA256, SHA384, SHA512][b[4]]
              && c.data == b[8..8 + CREDENTIAL_SIZES[b[4]]]
  {
    if |b| >= 4 {
      LeTwo(b[..2]);
      LeTwo(b[2..4]);
      var length := FromLe(b[2..4]);
      if |b| >= 4 + length && length >= 4 {
        var body := b[4..4 + length];
        assert body[..4] == b[4..8];
        LeFour(b[4..8]);
        if b[4] <= 5 && length >= 4 + CREDENTIAL_SIZES[b[4]] {
          SliceOfSlice(b, 4, 4 + length, 4, 4 + CREDENTIAL_SIZES[b[4]]);
        }
      }
    }
  }

  lemma LeTwo(bytes: seq<Byte>)
    requires |bytes| == 2
    ensures FromLe(bytes) == Word16(bytes[0], bytes[1])
  {
    assert bytes[1..] == [bytes[1]] && bytes[1..][1..] == [];
    assert FromLe([bytes[1]]) == bytes[1];
  }

  lemma LeFour(bytes: seq<Byte>)
    requires |bytes| == 4
    ensures FromLe(bytes) == Word16(bytes[0], Word16(bytes[1], Word16(bytes[2], bytes[3])))
  {
    LeTwo(bytes[2..]);
    assert bytes[1..][1..] == bytes[2..];
  }

  // A footer cut short by the end of flash is told from a malformed one.
  lemma CutShortIff(b: seq<Byte>)
    ensures ParseFooter(b) == Err(NotEnoughFlash) <==>
              || |b| < 4
              || (b[0] == 128 && b[1] == 0
                  && var length := Word16(b[2], b[3]);
                     || |b| < 4 + length
                     || (length >= 4 && b[4] <= 5 && b[5] == b[6] == b[7] == 0
                         && length < 4 + CREDENTIAL_SIZES[b[4]]))
  {
    if |b| >= 4 {
      LeTwo(b[..2]);
      LeTwo(b[2..4]);
      var length := FromLe(b[2..4]);
      if |b| >= 4 + length && length >= 4 {
        var body := b[4..4 + length];
        assert body[..4] == b[4..8];
        LeFour(b[4..8]);
      }
    }
  }

  // The other refusals: not a credential footer, with its type if that is one of
  // the listed ones and 129 if not; no room for a format; an unknown format.
  lemma MalformedIff(b: seq<Byte>)
    requires |b| >= 4 && ParseFooter(b).Err? && ParseFooter(b) != Err(NotEnoughFlash)
    ensures var (e, tipe) := (ParseFooter(b).error, Word16(b[0], b[1]));
            && (tipe in {1, 2, 3, 5, 6, 7, 8, 9, 10} ==> e == BadTlvEntry(tipe))
            && (tipe !in {1, 2, 3, 5, 6, 7, 8, 9, 10, 128} ==> e == BadTlvEntry(129))
            && (tipe == 128 ==> e == if Word16(b[2], b[3]) < 4 then InternalError else BadTlvEntry(128))
  {
    LeTwo(b[..2]);
    LeTwo(b[2..4]);
    CutShortIff(b);
  }

  // ------------------------------------------------------------ encoding

  // The footer a signing tool writes for c.
  function EncodeFooter(c: Credentials): seq<Byte> {
    ToLe(FOOTER_CREDENTIALS, 2) + ToLe(FORMAT_BYTES + |c.data|, 2) + ToLe(CodeOf(c.format), 4) + c.data
  }

  lemma ParseEncoded(c: Credentials, rest: seq<Byte>)
    requires |c.data| == DataBytes(c.format)
    ensures ParseFooter(EncodeFooter(c) + rest) == Ok((c, FORMAT_BYTES + |c.data|))
  {
    var b := EncodeFooter(c) + rest;
    var length := FORMAT_BYTES + |c.data|;
    assert Pow256(4) == 256 * 256 * 256 * 256 && Pow256(2) == 256 * 256;
    LittleEndian(FOOTER_CREDENTIALS, 2);
    LittleEndian(length, 2);
    LittleEndian(CodeOf(c.format), 4);
    var (head, format) := (ToLe(FOOTER_CREDENTIALS, 2) + ToLe(length, 2), ToLe(CodeOf(c.format), 4));
    var body := format + c.data;
    assert b == head + (body + rest);
    assert b[..2] == ToLe(FOOTER_CREDENTIALS, 2) && b[2..4] == ToLe(length, 2);
    assert b[4..4 + length] == body by { assert b[4..] == body + rest; }
    BodyParses(c, format);
  }

  lemma BodyParses(c: Credentials, format: seq<Byte>)
    requires |format| == 4 && FromLe(format) == CodeOf(c.format) && |c.data| == DataBytes(c.format)
    ensures ParseCredentials(format + c.data) == Ok(c)
  {
    var body := format + c.data;
    assert body[..4] == format && body[4..] == c.data;
    assert body[4..4 + |c.data|] == body[4..];
  }

  // ------------------------------------------------------- footer sequences

  // The bytes after the footer parsed at the head of b.
  function Rest(b: seq<Byte>): seq<Byte>
    requires ParseFooter(b).Ok?
  {
    b[ParseFooter(b).value.1 + TLV_HEADER_BYTES..]
  }

  // All credentials up to the end or the first malformed footer.
  function Parsed(b: seq<Byte>): (cs: seq<Credentials>)
    ensures 8 * |cs| <= |b|
    decreases |b|
  {
    match ParseFooter(b)
    case Err(_) => []
    case Ok((c, _)) => [c] + Parsed(Rest(b))
  }

  // The error that ends the sequence.
  function EndError(b: seq<Byte>): ParseError
    decreases |b|
  {
    match ParseFooter(b)
    case Err(e) => e
    case Ok(_) => EndError(Rest(b))
  }

  // The bytes left after n footers.
  function After(b: seq<Byte>, n: nat): (rest: seq<Byte>)
    requires n <= |Parsed(b)|
    ensures Parsed(rest) == Parsed(b)[n..] && EndError(rest) == EndError(b)
    decreases n
  {
    if n == 0 then b else After(Rest(b), n - 1)
  }

  lemma {:induction false} AfterNext(b: seq<Byte>, n: nat)
    requires n < |Parsed(b)|
    ensures ParseFooter(After(b, n)).Ok? && Rest(After(b, n)) == After(b, n + 1)
    decreases n
  {
    if n > 0 { AfterNext(Rest(b), n - 1); }
  }

  function EncodeAll(cs: seq<Credentials>, padding: seq<Byte>): seq<Byte> {
    if cs == [] then padding else EncodeFooter(cs[0]) + EncodeAll(cs[1..], padding)
  }

  // Writing footers and reading them back gives the same footers, whatever
  // unparseable bytes follow.
  lemma {:induction false} FootersRoundTrip(cs: seq<Credentials>, padding: seq<Byte>)
    requires forall c :: c in cs ==> |c.data| == DataBytes(c.format)
    requires ParseFooter(padding).Err?
    ensures Parsed(EncodeAll(cs, padding)) == cs
    decreases |cs|
  {
    if cs != [] {
      var tail := EncodeAll(cs[1..], padding);
      ParseEncoded(cs[0], tail);
      assert Rest(EncodeFooter(cs[0]) + tail) == tail;
      FootersRoundTrip(cs[1..], padding);
    }
  }
}
