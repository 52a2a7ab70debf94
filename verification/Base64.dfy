/** The URL-safe alphabet of section 5 of RFC 4648, with the padding stripped for transport and
    restored before decoding.

    The decoder is the lenient one the program relies on: it skips characters outside the alphabet,
    also takes the characters of the standard alphabet, and stops at complete padding. */
module Base64 {
  import opened Options

  type Byte = x: int | 0 <= x < 256

  type Sextet = x: int | 0 <= x < 64

  function Symbol(x: Sextet): (c: char)
    ensures c != '='
  {
    if x < 26 then 'A' + x as char
    else if x < 52 then 'a' + (x - 26) as char
    else if x < 62 then '0' + (x - 52) as char
    else if x == 62 then '-'
    else '_'
  }

  function Value(c: char): Option<Sextet> {
    if 'A' <= c <= 'Z' then Some((c - 'A') as int)
    else if 'a' <= c <= 'z' then Some(26 + (c - 'a') as int)
    else if '0' <= c <= '9' then Some(52 + (c - '0') as int)
    else if c == '-' || c == '+' then Some(62)
    else if c == '_' || c == '/' then Some(63)
    else None
  }

  lemma ValueOfSymbol(x: Sextet)
    ensures Value(Symbol(x)) == Some(x)
  {
    if x < 26 {
      assert ('A' + x as char) - 'A' == x as char;
    } else if x < 52 {
      assert ('a' + (x - 26) as char) - 'a' == (x - 26) as char;
    } else if x < 62 {
      assert ('0' + (x - 52) as char) - '0' == (x - 52) as char;
    }
  }

  // The four sextets of the bytes `a`, `b`, `c`.

  function First(a: Byte): Sextet {
    a / 4
  }

  function Second(a: Byte, b: Byte): Sextet {
    a % 4 * 16 + b / 16
  }

  function Third(b: Byte, c: Byte): Sextet {
    b % 16 * 4 + c / 64
  }

  function Fourth(c: Byte): Sextet {
    c % 64
  }

  /** Groups of three bytes become four characters; a last short group is padded. */
  function Encode(b: seq<Byte>): string {
    if |b| == 0 then ""
    else if |b| == 1 then [Symbol(First(b[0])), Symbol(Second(b[0], 0))] + "=="
    else if |b| == 2 then [Symbol(First(b[0])), Symbol(Second(b[0], b[1])), Symbol(Third(b[1], 0))] + "="
    else [Symbol(First(b[0])), Symbol(Second(b[0], b[1])), Symbol(Third(b[1], b[2])), Symbol(Fourth(b[2]))] + Encode(b[3..])
  }

  /** The decoder's state: how many characters of a group have been read, the bits left over from the
      last one, and how many padding characters were seen since. */
  datatype Quad = Quad(count: nat, left: nat, pads: nat)

  ghost predicate ValidQuad(s: Quad) {
    s.count < 4 && s.left < (if s.count == 0 then 1 else if s.count == 1 then 64 else if s.count == 2 then 16 else 4)
  }

  /** The state after one more character of the alphabet. */
  function Next(s: Quad, v: Sextet): (r: Quad)
    requires ValidQuad(s)
    ensures ValidQuad(r)
  {
    match s.count
    case 0 => Quad(1, v, 0)
    case 1 => Quad(2, v % 16, 0)
    case 2 => Quad(3, v % 4, 0)
    case _ => Quad(0, 0, 0)
  }

  /** The byte that character completes. */
  function Output(s: Quad, v: Sextet): seq<Byte>
    requires ValidQuad(s)
  {
    match s.count
    case 0 => []
    case 1 => [s.left * 4 + v / 16]
    case 2 => [s.left * 16 + v / 4]
    case _ => [s.left * 64 + v]
  }

  function Emit(b: seq<Byte>, rest: Option<seq<Byte>>): Option<seq<Byte>> {
    if rest.None? then None else Some(b + rest.value)
  }

  function DecodeFrom(t: string, s: Quad): Option<seq<Byte>>
    requires ValidQuad(s)
    decreases |t|
  {
    if t == "" then (if s.count == 0 then Some([]) else None)
    else if t[0] as int >= 128 then None
    else if t[0] == '=' then
      if s.count >= 2 && s.count + s.pads + 1 >= 4 then Some([])
      else DecodeFrom(t[1..], if s.count >= 2 then s.(pads := s.pads + 1) else s)
    else
      match Value(t[0])
      case None => DecodeFrom(t[1..], s)
      case Some(v) => Emit(Output(s, v), DecodeFrom(t[1..], Next(s, v)))
  }

  function Decode(t: string): Option<seq<Byte>> {
    DecodeFrom(t, Quad(0, 0, 0))
  }

  lemma DecodeSymbol(x: Sextet, t: string, s: Quad)
    requires ValidQuad(s)
    ensures DecodeFrom([Symbol(x)] + t, s) == Emit(Output(s, x), DecodeFrom(t, Next(s, x)))
  {
    ValueOfSymbol(x);
    assert Symbol(x) as int < 128;
    hide Symbol, Value, Emit, Output, Next;
    var u := [Symbol(x)] + t;
    assert u[1..] == t && u[0] == Symbol(x);
  }

  /** The states the decoder goes through on a group, and the bytes it gives on the way. */
  lemma Outputs(a: Byte, b: Byte, c: Byte)
    ensures
      var w, x, y, z := First(a), Second(a, b), Third(b, c), Fourth(c);
      && Next(Quad(0, 0, 0), w) == Quad(1, w, 0) && Output(Quad(0, 0, 0), w) == []
      && Next(Quad(1, w, 0), x) == Quad(2, x % 16, 0) && Output(Quad(1, w, 0), x) == [a]
      && Next(Quad(2, x % 16, 0), y) == Quad(3, y % 4, 0) && Output(Quad(2, x % 16, 0), y) == [b]
      && Next(Quad(3, y % 4, 0), z) == Quad(0, 0, 0) && Output(Quad(3, y % 4, 0), z) == [c]
  {
    assert Second(a, b) / 16 == a % 4 && Second(a, b) % 16 == b / 16;
    assert Third(b, c) / 4 == b % 16 && Third(b, c) % 4 == c / 64;
  }

  /** A complete group decodes to its three bytes. */
  lemma DecodeGroup(a: Byte, b: Byte, c: Byte, t: string)
    ensures
      Decode([Symbol(First(a)), Symbol(Second(a, b)), Symbol(Third(b, c)), Symbol(Fourth(c))] + t) == Emit([a, b, c], Decode(t))
  {
    hide Symbol, DecodeFrom, First, Second, Third, Fourth, Output, Next;
    var w, x, y, z := First(a), Second(a, b), Third(b, c), Fourth(c);
    Outputs(a, b, c);
    assert [Symbol(w), Symbol(x), Symbol(y), Symbol(z)] + t == [Symbol(w)] + ([Symbol(x)] + ([Symbol(y)] + ([Symbol(z)] + t)));
    DecodeSymbol(w, [Symbol(x)] + ([Symbol(y)] + ([Symbol(z)] + t)), Quad(0, 0, 0));
    DecodeSymbol(x, [Symbol(y)] + ([Symbol(z)] + t), Quad(1, w, 0));
    DecodeSymbol(y, [Symbol(z)] + t, Quad(2, x % 16, 0));
    DecodeSymbol(z, t, Quad(3, y % 4, 0));
    if Decode(t).Some? {
      assert [] + ([a] + ([b] + ([c] + Decode(t).value))) == [a, b, c] + Decode(t).value;
    }
  }

  /** Padding that completes a group ends the text. */
  lemma DecodePads(s: Quad)
    requires ValidQuad(s) && s.count >= 2
    ensures s.count + s.pads >= 3 ==> DecodeFrom("=", s) == Some([])
    ensures s.count + s.pads == 2 ==> DecodeFrom("==", s) == Some([])
  {
    assert "=="[1..] == "=";
  }

  lemma DecodeTwo(a: Byte)
    ensures Decode([Symbol(First(a)), Symbol(Second(a, 0))] + "==") == Some([a])
  {
    hide Symbol, DecodeFrom, First, Second, Third, Fourth, Output, Next;
    var w, x := First(a), Second(a, 0);
    Outputs(a, 0, 0);
    assert [Symbol(w), Symbol(x)] + "==" == [Symbol(w)] + ([Symbol(x)] + "==");
    DecodeSymbol(w, [Symbol(x)] + "==", Quad(0, 0, 0));
    DecodeSymbol(x, "==", Quad(1, w, 0));
    DecodePads(Quad(2, x % 16, 0));
    assert [] + ([a] + []) == [a];
  }

  lemma DecodeThree(a: Byte, b: Byte)
    ensures Decode([Symbol(First(a)), Symbol(Second(a, b)), Symbol(Third(b, 0))] + "=") == Some([a, b])
  {
    hide Symbol, DecodeFrom, First, Second, Third, Fourth, Output, Next;
    var w, x, y := First(a), Second(a, b), Third(b, 0);
    Outputs(a, b, 0);
    assert [Symbol(w), Symbol(x), Symbol(y)] + "=" == [Symbol(w)] + ([Symbol(x)] + ([Symbol(y)] + "="));
    DecodeSymbol(w, [Symbol(x)] + ([Symbol(y)] + "="), Quad(0, 0, 0));
    DecodeSymbol(x, [Symbol(y)] + "=", Quad(1, w, 0));
    DecodeSymbol(y, "=", Quad(2, x % 16, 0));
    DecodePads(Quad(3, y % 4, 0));
    assert [] + ([a] + ([b] + [])) == [a, b];
  }

  lemma {:induction false} DecodeEncode(b: seq<Byte>)
    ensures Decode(Encode(b)) == Some(b)
  {
    hide Symbol, DecodeFrom, Decode, First, Second, Third, Fourth;
    if |b| == 0 {
      DecodeNothing();
    } else if |b| == 1 {
      DecodeTwo(b[0]);
      assert b == [b[0]];
    } else if |b| == 2 {
      DecodeThree(b[0], b[1]);
      assert b == [b[0], b[1]];
    } else {
      DecodeEncode(b[3..]);
      DecodeGroup(b[0], b[1], b[2], Encode(b[3..]));
      assert b == [b[0], b[1], b[2]] + b[3..];
    }
  }

  lemma DecodeNothing()
    ensures Decode("") == Some([])
  {
  }

  // ----- padding stripped and restored -----

  /** `rstrip("=")`. */
  function Strip(t: string): string {
    if t != "" && t[|t| - 1] == '=' then Strip(t[..|t| - 1]) else t
  }

  function Pads(n: nat): string {
    if n == 0 then "" else Pads(n - 1) + "="
  }

  /** `t + "=" * (-len(t) % 4)`. */
  function Pad(t: string): string {
    t + Pads((4 - |t| % 4) % 4)
  }

  lemma StripPads()
    ensures Strip("") == "" && Strip("=") == "" && Strip("==") == ""
    ensures Pads(0) == "" && Pads(1) == "=" && Pads(2) == "=="
  {
    assert "="[..0] == "" && "=="[..1] == "=";
    assert Pads(2) == Pads(1) + "=" && Pads(1) == Pads(0) + "=";
  }

  lemma LastGroup(core: string, pads: string)
    requires |core| + |pads| == 4 && pads in {"=", "=="} && core[|core| - 1] != '='
    ensures Strip(core + pads) == core && Pad(core) == core + pads
  {
    hide Strip, Pads;
    StripPads();
    StripAppend(core, pads);
    assert core + "" == core;
  }

  lemma {:induction false} EncodeShape(b: seq<Byte>)
    ensures |Encode(b)| % 4 == 0
    ensures Pad(Strip(Encode(b))) == Encode(b)
    ensures Strip(Encode(b)) == "" <==> b == []
  {
    hide Symbol, Strip, Pad, First, Second, Third, Fourth;
    if |b| == 0 {
      EmptyShape();
    } else if |b| == 1 {
      LastGroup([Symbol(First(b[0])), Symbol(Second(b[0], 0))], "==");
    } else if |b| == 2 {
      LastGroup([Symbol(First(b[0])), Symbol(Second(b[0], b[1])), Symbol(Third(b[1], 0))], "=");
    } else {
      var group := [Symbol(First(b[0])), Symbol(Second(b[0], b[1])), Symbol(Third(b[1], b[2])), Symbol(Fourth(b[2]))];
      EncodeShape(b[3..]);
      StripAppend(group, Encode(b[3..]));
      PadAppend(group, Strip(Encode(b[3..])));
    }
  }

  lemma EmptyShape()
    ensures Strip("") == "" && Pad("") == ""
  {
  }

  lemma PadAppend(a: string, t: string)
    requires |a| % 4 == 0
    ensures Pad(a + t) == a + Pad(t)
  {
    hide Pads;
    assert |a + t| % 4 == |t| % 4;
  }

  /** Stripping does not reach past a last character that is not padding. */
  lemma {:induction false} StripAppend(a: string, t: string)
    requires a != "" && a[|a| - 1] != '='
    ensures Strip(a + t) == a + Strip(t)
    decreases |t|
  {
    if t == "" {
      assert a + t == a;
    } else if t[|t| - 1] == '=' {
      assert (a + t)[..|a + t| - 1] == a + t[..|t| - 1];
      StripAppend(a, t[..|t| - 1]);
    }
  }

  /** The transport of a byte string and back. */
  lemma TokenRoundTrip(b: seq<Byte>)
    ensures Decode(Pad(Strip(Encode(b)))) == Some(b)
  {
    hide Decode, Encode, Strip, Pad;
    EncodeShape(b);
    DecodeEncode(b);
  }

  // ----- what the decoder takes besides -----

  /** ASCII without padding. */
  predicate Plain(t: string) {
    forall i :: 0 <= i < |t| ==> t[i] as int < 128 && t[i] != '='
  }

  /** The characters of the alphabet in `t`, those of the standard one in their URL-safe form. */
  function Canonical(t: string): (r: string)
    ensures forall i :: 0 <= i < |r| ==> exists x: Sextet :: r[i] == Symbol(x)
  {
    if t == "" then ""
    else match Value(t[0])
      case None => Canonical(t[1..])
      case Some(v) => [Symbol(v)] + Canonical(t[1..])
  }

  lemma {:induction false} DecodeCanonical(t: string, s: Quad)
    requires Plain(t) && ValidQuad(s)
    ensures DecodeFrom(t, s) == DecodeFrom(Canonical(t), s)
    decreases |t|
  {
    if t != "" {
      match Value(t[0])
      case None => DecodeCanonical(t[1..], s);
      case Some(v) =>
        DecodeCanonical(t[1..], Next(s, v));
        DecodeSymbol(v, Canonical(t[1..]), s);
        hide Symbol, Output, Next;
    }
  }

  lemma {:induction false} DecodedCount(t: string, s: Quad)
    requires ValidQuad(s) && Plain(t)
    ensures DecodeFrom(t, s).Some? <==> (s.count + |Canonical(t)|) % 4 == 0
    decreases |t|
  {
    hide Symbol, Output;
    if t != "" {
      match Value(t[0])
      case None => DecodedCount(t[1..], s);
      case Some(v) => DecodedCount(t[1..], Next(s, v));
    }
  }

  /** Four characters of the alphabet are the encoding of three bytes. */
  lemma ThreeBytes(w: Sextet, x: Sextet, y: Sextet, z: Sextet) returns (a: Byte, b: Byte, c: Byte)
    ensures First(a) == w && Second(a, b) == x && Third(b, c) == y && Fourth(c) == z
  {
    a, b, c := w * 4 + x / 16, x % 16 * 16 + y / 4, y % 4 * 64 + z;
  }

  lemma {:induction false} Preimage(t: string) returns (b: seq<Byte>)
    requires |t| % 4 == 0 && forall i :: 0 <= i < |t| ==> exists x: Sextet :: t[i] == Symbol(x)
    ensures Encode(b) == t
  {
    hide Symbol, First, Second, Third, Fourth;
    b := [];
    if t != "" {
      var w: Sextet :| t[0] == Symbol(w);
      var x: Sextet :| t[1] == Symbol(x);
      var y: Sextet :| t[2] == Symbol(y);
      var z: Sextet :| t[3] == Symbol(z);
      var p, q, r := ThreeBytes(w, x, y, z);
      var rest := Preimage(t[4..]);
      b := [p, q, r] + rest;
      assert b[3..] == rest && t == [t[0], t[1], t[2], t[3]] + t[4..];
    }
  }

  /** Without padding the decoder takes exactly the texts whose characters of either alphabet fill whole
      groups, whatever else stands between them, and gives the bytes that those characters encode. */
  lemma DecodeIsLenient(t: string)
    requires Plain(t)
    ensures Decode(t).Some? <==> |Canonical(t)| % 4 == 0
    ensures Decode(t).Some? ==> Encode(Decode(t).value) == Canonical(t)
  {
    var start := Quad(0, 0, 0);
    DecodedCount(t, start);
    DecodeCanonical(t, start);
    hide DecodeFrom, Encode, Canonical, Symbol, Value;
    if |Canonical(t)| % 4 == 0 {
      var b := Preimage(Canonical(t));
      DecodeEncode(b);
    }
  }
}
