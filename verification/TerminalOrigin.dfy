/** URL-safe base64 of section 5 of RFC 4648, with the padding stripped when a terminal origin is encoded and restored
    from the length alone when it is decoded. */
module TerminalOrigin {
  import opened Options

  newtype Byte = b: int | 0 <= b < 256
  newtype Sextet = x: int | 0 <= x < 64

  function Symbol(x: Sextet): char {
    if x < 26 then ('A' as int + x as int) as char
    else if x < 52 then ('a' as int + x as int - 26) as char
    else if x < 62 then ('0' as int + x as int - 52) as char
    else if x == 62 then '-' else '_'
  }

  function Value(c: char): Option<Sextet> {
    if 'A' <= c <= 'Z' then Some((c as int - 'A' as int) as Sextet)
    else if 'a' <= c <= 'z' then Some((c as int - 'a' as int + 26) as Sextet)
    else if '0' <= c <= '9' then Some((c as int - '0' as int + 52) as Sextet)
    else if c == '-' then Some(62)
    else if c == '_' then Some(63)
    else None
  }

  lemma {:induction false} SymbolValue(x: Sextet)
    ensures Value(Symbol(x)) == Some(x) && Symbol(x) != '='
  {
  }

  /** Three bytes as four sextets, and back. */
  function First(a: Byte): Sextet { (a as int / 4) as Sextet }
  function Second(a: Byte, b: Byte): Sextet { (a as int % 4 * 16 + b as int / 16) as Sextet }
  function Third(b: Byte, c: Byte): Sextet { (b as int % 16 * 4 + c as int / 64) as Sextet }
  function Fourth(c: Byte): Sextet { (c as int % 64) as Sextet }

  function ByteA(w: Sextet, x: Sextet): Byte { (w as int * 4 + x as int / 16) as Byte }
  function ByteB(x: Sextet, y: Sextet): Byte { (x as int % 16 * 16 + y as int / 4) as Byte }
  function ByteC(y: Sextet, z: Sextet): Byte { (y as int % 4 * 64 + z as int) as Byte }

  lemma {:induction false} GroupRoundTrip(a: Byte, b: Byte, c: Byte)
    ensures ByteA(First(a), Second(a, b)) == a
    ensures ByteB(Second(a, b), Third(b, c)) == b
    ensures ByteC(Third(b, c), Fourth(c)) == c
  {
  }

  lemma {:induction false} FirstByte(a: Byte, b: Byte)
    ensures ByteA(First(a), Second(a, b)) == a
  {
  }

  /** urlsafe_b64encode */
  function Encode(s: seq<Byte>): string {
    if s == [] then ""
    else if |s| == 1 then [Symbol(First(s[0])), Symbol(Second(s[0], 0)), '=', '=']
    else if |s| == 2 then [Symbol(First(s[0])), Symbol(Second(s[0], s[1])), Symbol(Third(s[1], 0)), '=']
    else
      var group := [Symbol(First(s[0])), Symbol(Second(s[0], s[1])), Symbol(Third(s[1], s[2])), Symbol(Fourth(s[2]))];
      group + Encode(s[3..])
  }

  /** One group of four characters: its bytes, when it is well formed. Padding is only allowed where `last` says the
      group is the final one. */
  function DecodeGroup(g: string, last: bool): Option<seq<Byte>>
    requires |g| == 4
  {
    var w, x := Value(g[0]), Value(g[1]);
    if w.None? || x.None? then None
    else if g[2] == '=' && g[3] == '=' then if last then Some([ByteA(w.value, x.value)]) else None
    else
      var y := Value(g[2]);
      if y.None? then None
      else if g[3] == '=' then if last then Some([ByteA(w.value, x.value), ByteB(x.value, y.value)]) else None
      else
        var z := Value(g[3]);
        if z.None? then None
        else Some([ByteA(w.value, x.value), ByteB(x.value, y.value), ByteC(y.value, z.value)])
  }

  /** urlsafe_b64decode on text made of the alphabet and padding; None is an error. */
  function Decode(s: string): Option<seq<Byte>> {
    if s == "" then Some([])
    else if |s| < 4 then None
    else
      var head, tail := DecodeGroup(s[..4], |s| == 4), Decode(s[4..]);
      if head.None? || tail.None? then None else Some(head.value + tail.value)
  }

  function StripPadding(s: string): string {
    if s != "" && s[|s| - 1] == '=' then StripPadding(s[..|s| - 1]) else s
  }

  function Padding(n: nat): string {
    if n == 0 then "" else "=" + Padding(n - 1)
  }

  /** _encode_terminal_origin, after the text has been turned into bytes */
  function EncodeOrigin(origin: seq<Byte>): string {
    StripPadding(Encode(origin))
  }

  /** _decode_terminal_origin, before the bytes are turned into text and the URL is checked */
  function DecodeOrigin(value: string): Option<seq<Byte>> {
    Decode(value + Padding(-|value| % 4))
  }

  lemma {:induction false} OneByteGroup(a: Byte)
    ensures DecodeGroup([Symbol(First(a)), Symbol(Second(a, 0)), '=', '='], true) == Some([a])
  {
    SymbolValue(First(a));
    SymbolValue(Second(a, 0));
    FirstByte(a, 0);
  }

  lemma {:induction false} TwoByteGroup(a: Byte, b: Byte)
    ensures DecodeGroup([Symbol(First(a)), Symbol(Second(a, b)), Symbol(Third(b, 0)), '='], true) == Some([a, b])
  {
    SymbolValue(First(a));
    SymbolValue(Second(a, b));
    SymbolValue(Third(b, 0));
    GroupRoundTrip(a, b, 0);
  }

  /** The last one or two bytes. */
  lemma {:induction false} DecodeShort(s: seq<Byte>)
    requires |s| <= 2
    ensures Decode(Encode(s)) == Some(s)
  {
    var g := Encode(s);
    if s != [] {
      DecodeOne(g, "");
    }
    if s == [] {
    } else if |s| == 1 {
      OneByteGroup(s[0]);
      assert s == [s[0]];
    } else {
      TwoByteGroup(s[0], s[1]);
      assert s == [s[0], s[1]];
    }
  }

  lemma {:induction false} EncodeLong(s: seq<Byte>) returns (g: string)
    requires |s| > 2
    ensures |g| == 4 && Encode(s) == g + Encode(s[3..])
    ensures forall last :: DecodeGroup(g, last) == Some([s[0], s[1], s[2]])
  {
    g := [Symbol(First(s[0])), Symbol(Second(s[0], s[1])), Symbol(Third(s[1], s[2])), Symbol(Fourth(s[2]))];
    FullGroup(s[0], s[1], s[2], true);
    FullGroup(s[0], s[1], s[2], false);
  }

  lemma {:induction false} DecodeStep(g: string, group: seq<Byte>, text: string, rest: seq<Byte>)
    requires |g| == 4 && Decode(text) == Some(rest)
    requires forall last :: DecodeGroup(g, last) == Some(group)
    ensures Decode(g + text) == Some(group + rest)
  {
    DecodeOne(g, text);
  }

  lemma {:induction false} DecodeLong(s: seq<Byte>)
    requires |s| > 2 && Decode(Encode(s[3..])) == Some(s[3..])
    ensures Decode(Encode(s)) == Some([s[0], s[1], s[2]] + s[3..])
  {
    var g := EncodeLong(s);
    DecodeStep(g, [s[0], s[1], s[2]], Encode(s[3..]), s[3..]);
  }

  lemma {:induction false} FirstThree(s: seq<Byte>)
    requires |s| > 2
    ensures [s[0], s[1], s[2]] + s[3..] == s
  {
  }

  lemma {:induction false} DecodeEncode(s: seq<Byte>)
    ensures Decode(Encode(s)) == Some(s)
    decreases |s|
  {
    if |s| <= 2 {
      DecodeShort(s);
    } else {
      DecodeEncode(s[3..]);
      DecodeLong(s);
      FirstThree(s);
    }
  }

  lemma {:induction false} DecodeOne(g: string, rest: string)
    requires |g| == 4
    ensures var head, tail := DecodeGroup(g, rest == ""), Decode(rest);
            Decode(g + rest) == if head.None? || tail.None? then None else Some(head.value + tail.value)
    ensures rest == "" ==> Decode(g) == DecodeGroup(g, true)
  {
    var s := g + rest;
    assert s[..4] == g && s[4..] == rest;
    if rest == "" {
      assert s == g;
      var head := DecodeGroup(g, true);
      assert head.Some? ==> head.value + [] == head.value;
    }
  }

  lemma {:induction false} FullGroup(a: Byte, b: Byte, c: Byte, last: bool)
    ensures DecodeGroup([Symbol(First(a)), Symbol(Second(a, b)), Symbol(Third(b, c)), Symbol(Fourth(c))], last)
            == Some([a, b, c])
  {
    SymbolValue(First(a));
    SymbolValue(Second(a, b));
    SymbolValue(Third(b, c));
    SymbolValue(Fourth(c));
    GroupRoundTrip(a, b, c);
  }

  /** How many characters of padding the encoding of n bytes ends with. */
  function PadLength(n: nat): nat {
    if n % 3 == 0 then 0 else 3 - n % 3
  }

  lemma {:induction false} StripSnoc(s: string)
    ensures StripPadding(s + ['=']) == StripPadding(s)
  {
    assert (s + ['='])[..|s|] == s;
  }

  lemma {:induction false} PaddingAfter(s: string, n: nat)
    ensures s + Padding(n + 1) == (s + Padding(n)) + ['=']
  {
    PaddingSnoc(n);
  }

  lemma {:induction false} StripOf(s: string, n: nat)
    requires s == "" || s[|s| - 1] != '='
    ensures StripPadding(s + Padding(n)) == s
    decreases n
  {
    if n == 0 {
      assert s + Padding(0) == s;
    } else {
      PaddingAfter(s, n - 1);
      StripSnoc(s + Padding(n - 1));
      StripOf(s, n - 1);
    }
  }

  lemma {:induction false} PaddingSnoc(n: nat)
    ensures Padding(n + 1) == Padding(n) + "=" && |Padding(n)| == n
    decreases n
  {
    if n > 0 {
      PaddingSnoc(n - 1);
      assert "=" + (Padding(n - 1) + "=") == ("=" + Padding(n - 1)) + "=";
    }
  }

  /** The symbols of an encoding, without its padding. */
  function Core(s: seq<Byte>): string {
    if s == [] then ""
    else if |s| == 1 then [Symbol(First(s[0])), Symbol(Second(s[0], 0))]
    else if |s| == 2 then [Symbol(First(s[0])), Symbol(Second(s[0], s[1])), Symbol(Third(s[1], 0))]
    else
      var group := [Symbol(First(s[0])), Symbol(Second(s[0], s[1])), Symbol(Third(s[1], s[2])), Symbol(Fourth(s[2]))];
      group + Core(s[3..])
  }

  lemma {:induction false} CoreThenPadding(s: seq<Byte>)
    ensures Encode(s) == Core(s) + Padding(PadLength(|s|))
    decreases |s|
  {
    if |s| == 1 {
      assert Padding(2) == ['='] + Padding(1) && Padding(1) == ['='] + Padding(0);
    } else if |s| == 2 {
      assert Padding(1) == ['='] + Padding(0);
    } else if |s| > 2 {
      CoreThenPadding(s[3..]);
      assert PadLength(|s|) == PadLength(|s| - 3);
      var g := [Symbol(First(s[0])), Symbol(Second(s[0], s[1])), Symbol(Third(s[1], s[2])), Symbol(Fourth(s[2]))];
      assert g + (Core(s[3..]) + Padding(PadLength(|s|))) == (g + Core(s[3..])) + Padding(PadLength(|s|));
    }
  }

  lemma {:induction false} CoreEnd(s: seq<Byte>)
    ensures Core(s) == "" || Core(s)[|Core(s)| - 1] != '='
    decreases |s|
  {
    if |s| == 1 {
      SymbolValue(Second(s[0], 0));
    } else if |s| == 2 {
      SymbolValue(Third(s[1], 0));
    } else if |s| > 2 {
      SymbolValue(Fourth(s[2]));
      CoreEnd(s[3..]);
    }
  }

  lemma {:induction false} CoreLength(s: seq<Byte>) returns (groups: nat)
    ensures |Core(s)| == 4 * groups - PadLength(|s|)
    decreases |s|
  {
    if |s| < 3 {
      groups := if s == [] then 0 else 1;
    } else {
      var rest := CoreLength(s[3..]);
      groups := rest + 1;
      assert PadLength(|s|) == PadLength(|s| - 3);
    }
  }

  lemma {:induction false} PadArithmetic(length: int, groups: int, pad: int)
    requires length == 4 * groups - pad && 0 <= pad <= 2
    ensures -length % 4 == pad && length % 4 != 1
  {
    assert -length == 4 * -groups + pad;
  }

  /** A stripped length is never 1 modulo 4, and the padding restored from it is what was stripped. */
  lemma {:induction false} PaddingRestored(origin: seq<Byte>)
    ensures |EncodeOrigin(origin)| % 4 != 1
    ensures EncodeOrigin(origin) + Padding(-|EncodeOrigin(origin)| % 4) == Encode(origin)
  {
    CoreThenPadding(origin);
    CoreEnd(origin);
    StripOf(Core(origin), PadLength(|origin|));
    var groups := CoreLength(origin);
    PadArithmetic(|Core(origin)|, groups, PadLength(|origin|));
  }

  /** Every byte string survives encoding, stripping, padding and decoding. */
  lemma {:induction false} TerminalOriginRoundTrip(origin: seq<Byte>)
    ensures DecodeOrigin(EncodeOrigin(origin)) == Some(origin)
  {
    PaddingRestored(origin);
    DecodeEncode(origin);
  }
}
