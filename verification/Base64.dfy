/** Base64 as a take response carries source bytes: sections 4 and 3.5 of RFC 4648, strict decoding. */
module Base64 {
  import opened Results

  type Byte = x: int | 0 <= x < 256
  type Bytes = seq<Byte>
  type Sextet = x: int | 0 <= x < 64

  function Symbol(s: Sextet): (c: char)
    ensures c != '='
  {
    if s < 26 then 'A' + s as char
    else if s < 52 then 'a' + (s - 26) as char
    else if s < 62 then '0' + (s - 52) as char
    else if s == 62 then '+' else '/'
  }

  function Value(c: char): Option<Sextet> {
    if 'A' <= c <= 'Z' then Some((c - 'A') as int)
    else if 'a' <= c <= 'z' then Some((c - 'a') as int + 26)
    else if '0' <= c <= '9' then Some((c - '0') as int + 52)
    else if c == '+' then Some(62)
    else if c == '/' then Some(63)
    else None
  }

  lemma SymbolValue(s: Sextet)
    ensures Value(Symbol(s)) == Some(s)
  {
    if s < 26 {
      assert 'A' <= 'A' + s as char <= 'Z';
    } else if s < 52 {
      assert 'a' <= 'a' + (s - 26) as char <= 'z';
    } else if s < 62 {
      assert '0' <= '0' + (s - 52) as char <= '9';
    }
  }

  function Triple(x: Byte, y: Byte, z: Byte): (g: string)
    ensures |g| == 4 && g[3] != '='
  {
    [Symbol(x / 4), Symbol(x % 4 * 16 + y / 16), Symbol(y % 16 * 4 + z / 64), Symbol(z % 64)]
  }

  function Encode(raw: Bytes): string
    decreases |raw|
  {
    if raw == [] then ""
    else if |raw| == 1 then Triple(raw[0], 0, 0)[..2] + "=="
    else if |raw| == 2 then Triple(raw[0], raw[1], 0)[..3] + "="
    else Triple(raw[0], raw[1], raw[2]) + Encode(raw[3..])
  }

  /** One final group of four characters, padding included. */
  function DecodeLast(g: string): Result<Bytes>
    requires |g| == 4
  {
    var a, b := Value(g[0]), Value(g[1]);
    :- Need(a.Some? && b.Some?);
    if g[2] == '=' then
      :- Need(g[3] == '=');
      Ok([a.value * 4 + b.value / 16])
    else
      var c := Value(g[2]);
      :- Need(c.Some?);
      if g[3] == '=' then Ok([a.value * 4 + b.value / 16, b.value % 16 * 16 + c.value / 4])
      else
        var d := Value(g[3]);
        :- Need(d.Some?);
        Ok([a.value * 4 + b.value / 16, b.value % 16 * 16 + c.value / 4, c.value % 4 * 64 + d.value])
  }

  function Decode(text: string): Result<Bytes>
    decreases |text|
  {
    if text == "" then Ok([])
    else
      :- Need(|text| >= 4);
      if |text| == 4 then DecodeLast(text)
      else
        :- Need(text[3] != '=');
        var head :- DecodeLast(text[..4]);
        var tail :- Decode(text[4..]);
        Ok(head + tail)
  }

  /** What each kind of final group decodes to, by the values of its characters. */
  lemma DecodesTo(g: string, a: Sextet, b: Sextet)
    requires |g| == 4 && Value(g[0]) == Some(a) && Value(g[1]) == Some(b)
    ensures g[2] == '=' && g[3] == '=' ==> DecodeLast(g) == Ok([a * 4 + b / 16])
    ensures g[2] != '=' && Value(g[2]).Some? && g[3] == '=' ==>
      DecodeLast(g) == Ok([a * 4 + b / 16, b % 16 * 16 + Value(g[2]).value / 4])
    ensures g[2] != '=' && Value(g[2]).Some? && g[3] != '=' && Value(g[3]).Some? ==>
      DecodeLast(g) == Ok([a * 4 + b / 16, b % 16 * 16 + Value(g[2]).value / 4,
                           Value(g[2]).value % 4 * 64 + Value(g[3]).value])
  {
  }

  /** The bit arithmetic of one group. */
  lemma BytesBack(x: Byte, y: Byte, z: Byte)
    ensures x / 4 * 4 + (x % 4 * 16 + y / 16) / 16 == x
    ensures (x % 4 * 16 + y / 16) % 16 * 16 + (y % 16 * 4 + z / 64) / 4 == y
    ensures (y % 16 * 4 + z / 64) % 4 * 64 + z % 64 == z
  {
  }

  lemma TripleBack(x: Byte, y: Byte, z: Byte)
    ensures DecodeLast(Triple(x, y, z)) == Ok([x, y, z])
  {
    SymbolValue(x / 4);
    SymbolValue(x % 4 * 16 + y / 16);
    SymbolValue(y % 16 * 4 + z / 64);
    SymbolValue(z % 64);
    DecodesTo(Triple(x, y, z), x / 4, x % 4 * 16 + y / 16);
    BytesBack(x, y, z);
  }

  lemma PairBack(x: Byte, y: Byte)
    ensures DecodeLast(Triple(x, y, 0)[..3] + "=") == Ok([x, y])
  {
    SymbolValue(x / 4);
    SymbolValue(x % 4 * 16 + y / 16);
    SymbolValue(y % 16 * 4);
    DecodesTo(Triple(x, y, 0)[..3] + "=", x / 4, x % 4 * 16 + y / 16);
    BytesBack(x, y, 0);
  }

  lemma SingleBack(x: Byte)
    ensures DecodeLast(Triple(x, 0, 0)[..2] + "==") == Ok([x])
  {
    SymbolValue(x / 4);
    SymbolValue(x % 4 * 16);
    DecodesTo(Triple(x, 0, 0)[..2] + "==", x / 4, x % 4 * 16);
    BytesBack(x, 0, 0);
  }

  lemma DecodeWhole(g: string, raw: Bytes)
    requires |g| == 4 && DecodeLast(g) == Ok(raw)
    ensures Decode(g) == Ok(raw)
  {
  }

  lemma DecodeAppend(g: string, head: Bytes, rest: string, tail: Bytes)
    requires |g| == 4 && g[3] != '=' && DecodeLast(g) == Ok(head) && Decode(rest) == Ok(tail)
    ensures Decode(g + rest) == Ok(head + tail)
  {
    if rest == "" {
      assert g + rest == g;
      assert head + tail == head;
      DecodeWhole(g, head);
    } else {
      assert (g + rest)[..4] == g && (g + rest)[4..] == rest;
    }
  }

  /** Decoding undoes encoding on every byte string. */
  lemma {:induction false} RoundTrip(raw: Bytes)
    ensures Decode(Encode(raw)) == Ok(raw)
    decreases |raw|
  {
    if |raw| >= 3 {
      RoundTrip(raw[3..]);
      RoundTripMore(raw);
    } else if |raw| == 2 {
      RoundTripTwo(raw[0], raw[1]);
      assert raw == [raw[0], raw[1]];
    } else if |raw| == 1 {
      RoundTripOne(raw[0]);
      assert raw == [raw[0]];
    }
  }

  lemma RoundTripMore(raw: Bytes)
    requires |raw| >= 3 && Decode(Encode(raw[3..])) == Ok(raw[3..])
    ensures Decode(Encode(raw)) == Ok(raw)
  {
    var x, y, z, rest := raw[0], raw[1], raw[2], raw[3..];
    TripleBack(x, y, z);
    DecodeAppend(Triple(x, y, z), [x, y, z], Encode(rest), rest);
    EncodeMore(raw);
    Rejoin(raw);
  }

  lemma EncodeMore(raw: Bytes)
    requires |raw| >= 3
    ensures Encode(raw) == Triple(raw[0], raw[1], raw[2]) + Encode(raw[3..])
  {
  }

  lemma Rejoin<T>(items: seq<T>)
    requires |items| >= 3
    ensures [items[0], items[1], items[2]] + items[3..] == items
  {
  }

  lemma RoundTripTwo(x: Byte, y: Byte)
    ensures Decode(Encode([x, y])) == Ok([x, y])
  {
    PairBack(x, y);
    DecodeWhole(Triple(x, y, 0)[..3] + "=", [x, y]);
  }

  lemma RoundTripOne(x: Byte)
    ensures Decode(Encode([x])) == Ok([x])
  {
    SingleBack(x);
    DecodeWhole(Triple(x, 0, 0)[..2] + "==", [x]);
  }

  /** The exact encoded size, which is what bounds a snapshot source. */
  lemma {:induction false} EncodedLength(raw: Bytes)
    ensures |Encode(raw)| == 4 * ((|raw| + 2) / 3)
    decreases |raw|
  {
    if |raw| >= 3 {
      EncodedLength(raw[3..]);
      assert (|raw| + 2) / 3 == (|raw| - 3 + 2) / 3 + 1;
    }
  }
}
