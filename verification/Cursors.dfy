/** The cursor codecs: a position bound to one exact request, in two nested levels of base64url.

    The three codecs of the program (batch reads, lists, searches) differ in the position they carry
    and in the prefix of the token.  Printing and parsing JSON and hashing are foreign code: a codec
    holds them as functions, `Faithful` says what is relied on. */
module Cursors {
  import opened Options
  import opened Base64

  const MAX_CURSOR_CHARS := 4096

  datatype Payload<P> = Payload(version: int, binding: string, position: P)

  datatype Envelope = Envelope(payload: string, checksum: string)

  datatype Codec<!P> = Codec(
    printPayload: Payload<P> -> seq<Byte>,
    parsePayload: seq<Byte> -> Option<Payload<P>>,
    printEnvelope: Envelope -> seq<Byte>,
    parseEnvelope: seq<Byte> -> Option<Envelope>,
    digest: seq<Byte> -> string,
    prefix: string)

  /** Parsing undoes printing, and no JSON text is empty. */
  ghost predicate Faithful<P(!new)>(c: Codec<P>) {
    && (forall p :: c.parsePayload(c.printPayload(p)) == Some(p))
    && (forall e :: c.parseEnvelope(c.printEnvelope(e)) == Some(e) && c.printEnvelope(e) != [])
  }

  datatype Result<P> = Ok(position: P) | Malformed | WrongBinding | InvalidPosition

  function Token(b: seq<Byte>): string {
    Strip(Encode(b))
  }

  function Bytes(token: string): Option<seq<Byte>> {
    Decode(Pad(token))
  }

  /** `_encode_cursor`, `_encode_search_cursor`. */
  function EncodeCursor<P>(c: Codec<P>, binding: string, position: P): string {
    var raw := c.printPayload(Payload(1, binding, position));
    c.prefix + Token(c.printEnvelope(Envelope(Token(raw), c.digest(raw))))
  }

  /** The payload of a token whose checksum holds. */
  function Unwrap<P>(c: Codec<P>, token: string): Option<Payload<P>> {
    if token == "" || !(c.prefix <= token) || |token| > MAX_CURSOR_CHARS then None
    else
      match Bytes(token[|c.prefix|..])
      case None => None
      case Some(outer) =>
        match c.parseEnvelope(outer)
        case None => None
        case Some(envelope) =>
          match Bytes(envelope.payload)
          case None => None
          case Some(raw) => if envelope.checksum != c.digest(raw) then None else c.parsePayload(raw)
  }

  /** `_decode_cursor`, `_decode_search_cursor`; `valid` is the check of the position's range. */
  function DecodeCursor<P>(c: Codec<P>, token: string, binding: string, valid: P -> bool): Result<P> {
    match Unwrap(c, token)
    case None => Malformed
    case Some(payload) =>
      if payload.version != 1 || payload.binding != binding then WrongBinding
      else if !valid(payload.position) then InvalidPosition
      else Ok(payload.position)
  }

  /** The token wraps this payload: behind the prefix stands an envelope, and its checksum is the digest of
      the payload's own bytes. */
  ghost predicate Wraps<P>(c: Codec<P>, token: string, payload: Payload<P>) {
    && 0 < |token| <= 4096 && c.prefix <= token
    && exists outer, envelope, raw ::
         && Bytes(token[|c.prefix|..]) == Some(outer) && c.parseEnvelope(outer) == Some(envelope)
         && Bytes(envelope.payload) == Some(raw) && envelope.checksum == c.digest(raw) && c.parsePayload(raw) == Some(payload)
  }

  /** What every token decodes to, issued or made up: it is accepted for a position exactly when it wraps
      that position under version 1 and this binding, and the position is in range. */
  lemma DecodedIff<P>(c: Codec<P>, token: string, binding: string, valid: P -> bool)
    ensures forall position ::
      DecodeCursor(c, token, binding, valid) == Ok(position) <==> Wraps(c, token, Payload(1, binding, position)) && valid(position)
    ensures DecodeCursor(c, token, binding, valid).Malformed? <==> forall payload :: !Wraps(c, token, payload)
    ensures DecodeCursor(c, token, binding, valid).WrongBinding? <==>
      exists payload :: Wraps(c, token, payload) && !(payload.version == 1 && payload.binding == binding)
    ensures DecodeCursor(c, token, binding, valid).InvalidPosition? <==>
      exists position :: Wraps(c, token, Payload(1, binding, position)) && !valid(position)
  {
    UnwrapIs(c, token);
    hide Unwrap, Wraps;
    var unwrapped := Unwrap(c, token);
    if unwrapped.Some? {
      assert Wraps(c, token, unwrapped.value);
      var p := unwrapped.value;
      assert p == Payload(p.version, p.binding, p.position);
    }
  }

  lemma UnwrapIs<P>(c: Codec<P>, token: string)
    ensures forall payload :: Wraps(c, token, payload) <==> Unwrap(c, token) == Some(payload)
  {
    hide Bytes;
  }

  lemma UnwrapEncoded<P(!new)>(c: Codec<P>, binding: string, position: P)
    requires Faithful(c) && |EncodeCursor(c, binding, position)| <= MAX_CURSOR_CHARS
    ensures Unwrap(c, EncodeCursor(c, binding, position)) == Some(Payload(1, binding, position))
  {
    hide Strip, Encode, Decode, Pad;
    var raw := c.printPayload(Payload(1, binding, position));
    var envelope := Envelope(Token(raw), c.digest(raw));
    var outer := c.printEnvelope(envelope);
    var token := EncodeCursor(c, binding, position);
    TokenRoundTrip(raw);
    TokenRoundTrip(outer);
    EncodeShape(outer);
    assert token[|c.prefix|..] == Token(outer) && token[..|c.prefix|] == c.prefix;
    assert Bytes(Token(outer)) == Some(outer) && Bytes(Token(raw)) == Some(raw);
  }

  /** Decoding an issued cursor under any binding: the position comes back exactly under its own
      binding, if it is in range; a token over the length bound is never accepted. */
  lemma CursorRoundTrip<P(!new)>(c: Codec<P>, binding: string, position: P, other: string, valid: P -> bool)
    requires Faithful(c)
    ensures
      DecodeCursor(c, EncodeCursor(c, binding, position), other, valid) ==
      if |EncodeCursor(c, binding, position)| > MAX_CURSOR_CHARS then Malformed
      else if other != binding then WrongBinding
      else if !valid(position) then InvalidPosition
      else Ok(position)
  {
    hide Faithful, EncodeCursor;
    if |EncodeCursor(c, binding, position)| <= MAX_CURSOR_CHARS {
      UnwrapEncoded(c, binding, position);
      hide Unwrap;
    }
  }

  /** A cursor issued for one request is rejected for every other one, given that requests are bound
      injectively. */
  lemma OtherRequestIsRejected<P(!new), R>(c: Codec<P>, bind: R -> string, issued: R, used: R, position: P, valid: P -> bool)
    requires Faithful(c)
    requires bind(issued) == bind(used) ==> issued == used
    ensures DecodeCursor(c, EncodeCursor(c, bind(issued), position), bind(used), valid).Ok? ==> issued == used
  {
    hide Faithful, EncodeCursor, DecodeCursor;
    CursorRoundTrip(c, bind(issued), position, bind(used), valid);
  }

  /** No token at all, issued or made up, is accepted under two bindings or for two positions. */
  lemma AcceptedUnderOneBinding<P>(c: Codec<P>, token: string, one: string, two: string, valid: P -> bool, valid': P -> bool)
    requires DecodeCursor(c, token, one, valid).Ok? && DecodeCursor(c, token, two, valid').Ok?
    ensures one == two && DecodeCursor(c, token, one, valid) == DecodeCursor(c, token, two, valid')
  {
    hide Unwrap;
  }

  /** Cursors of the same codec are equal only for the same binding and position. */
  lemma CursorsAreDistinct<P(!new)>(c: Codec<P>, b1: string, p1: P, b2: string, p2: P)
    requires Faithful(c) && EncodeCursor(c, b1, p1) == EncodeCursor(c, b2, p2)
    requires |EncodeCursor(c, b1, p1)| <= MAX_CURSOR_CHARS
    ensures b1 == b2 && p1 == p2
  {
    hide Faithful, EncodeCursor, Unwrap;
    UnwrapEncoded(c, b1, p1);
    UnwrapEncoded(c, b2, p2);
  }
}
