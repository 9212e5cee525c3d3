/** Account identifiers as file names: bytes outside a safe alphabet become percent triples. */
module IdentifierNames {
  import opened Options

  type Byte = n: int | 0 <= n < 256

  const PERCENT: Byte := 0x25
  const SLASH: Byte := 0x2F
  const BACKSLASH: Byte := 0x5C

  predicate Plain(c: Byte) {
    0x61 <= c <= 0x7A || 0x41 <= c <= 0x5A || 0x30 <= c <= 0x39 || c in {0x2E, 0x40, 0x5F, 0x2D}
  }

  /** An upper-case hexadecimal digit. */
  function HexDigit(n: int): Byte
    requires 0 <= n < 16
  {
    if n < 10 then 0x30 + n else 0x41 + (n - 10)
  }

  predicate IsHexDigit(c: Byte) {
    0x30 <= c <= 0x39 || 0x41 <= c <= 0x46
  }

  function HexValue(c: Byte): int {
    if 0x30 <= c <= 0x39 then c - 0x30 else if 0x41 <= c <= 0x46 then c - 0x41 + 10 else 0
  }

  function EncodeByte(c: Byte): seq<Byte> {
    if Plain(c) then [c] else [PERCENT, HexDigit(c / 16), HexDigit(c % 16)]
  }

  function Encode(s: seq<Byte>): seq<Byte> {
    if s == [] then [] else EncodeByte(s[0]) + Encode(s[1..])
  }

  lemma {:induction false} EncodeSnoc(s: seq<Byte>, c: Byte)
    ensures Encode(s + [c]) == Encode(s) + EncodeByte(c)
  {
    if s == [] {
      assert [c][1..] == [];
      assert Encode([c]) == EncodeByte(c) + Encode([]);
    } else {
      assert (s + [c])[1..] == s[1..] + [c];
      EncodeSnoc(s[1..], c);
    }
  }

  /** sanitizeIdentifier's loop. */
  method SanitizeIdentifier(identifier: seq<Byte>) returns (name: seq<Byte>)
    ensures name == Encode(identifier)
    ensures Decode(name) == Some(identifier)
    ensures SLASH !in name && BACKSLASH !in name
  {
    name := [];
    for i := 0 to |identifier|
      invariant name == Encode(identifier[..i])
    {
      var c := identifier[i];
      EncodeSnoc(identifier[..i], c);
      assert identifier[..i + 1] == identifier[..i] + [c];
      if 0x61 <= c <= 0x7A || 0x41 <= c <= 0x5A || 0x30 <= c <= 0x39 || c == 0x2E || c == 0x40 || c == 0x5F || c == 0x2D {
        name := name + [c];
      } else {
        name := name + [PERCENT, HexDigit(c / 16), HexDigit(c % 16)];
      }
    }
    assert identifier[..|identifier|] == identifier;
    RoundTrip(identifier);
    EncodedIsSafe(identifier);
    SafeHasNoSeparator(name);
  }

  /** A reader that recovers what was encoded and refuses everything else. */
  function Decode(name: seq<Byte>): Option<seq<Byte>> {
    if name == [] then Some([])
    else if Plain(name[0]) then
      var rest := Decode(name[1..]);
      if rest.Some? then Some([name[0]] + rest.value) else None
    else if name[0] == PERCENT && |name| >= 3 && IsHexDigit(name[1]) && IsHexDigit(name[2])
            && !Plain(HexValue(name[1]) * 16 + HexValue(name[2])) then
      var rest := Decode(name[3..]);
      if rest.Some? then Some([HexValue(name[1]) * 16 + HexValue(name[2])] + rest.value) else None
    else None
  }

  /** A file name made of plain bytes and upper-case percent triples of bytes that are not plain. */
  predicate Safe(name: seq<Byte>) {
    Decode(name).Some?
  }

  lemma HexDigits(c: Byte)
    ensures IsHexDigit(HexDigit(c / 16)) && IsHexDigit(HexDigit(c % 16))
    ensures HexValue(HexDigit(c / 16)) * 16 + HexValue(HexDigit(c % 16)) == c
  {
  }

  lemma HexValues(a: Byte, b: Byte)
    requires IsHexDigit(a) && IsHexDigit(b)
    ensures var c := HexValue(a) * 16 + HexValue(b); 0 <= c < 256 && HexDigit(c / 16) == a && HexDigit(c % 16) == b
  {
  }

  /** Main result: what is encoded decodes to itself, */
  lemma {:induction false} RoundTrip(s: seq<Byte>)
    ensures Decode(Encode(s)) == Some(s)
  {
    if s != [] {
      RoundTrip(s[1..]);
      var name := Encode(s);
      assert s == [s[0]] + s[1..];
      if Plain(s[0]) {
        assert name[1..] == Encode(s[1..]);
      } else {
        HexDigits(s[0]);
        assert name[3..] == Encode(s[1..]);
      }
    }
  }

  /** and what decodes is the encoding of what it decodes to: the two are inverse bijections between
      identifiers and safe names. */
  lemma {:induction false} DecodedReencodes(name: seq<Byte>)
    requires Decode(name).Some?
    ensures Encode(Decode(name).value) == name
  {
    if name != [] {
      var s := Decode(name).value;
      if Plain(name[0]) {
        DecodedReencodes(name[1..]);
        assert s[1..] == Decode(name[1..]).value;
        assert name == [name[0]] + name[1..];
      } else {
        DecodedReencodes(name[3..]);
        HexValues(name[1], name[2]);
        assert s[1..] == Decode(name[3..]).value;
        assert name == [name[0], name[1], name[2]] + name[3..];
      }
    }
  }

  /** Two accounts never share a file name. */
  lemma EncodeIsInjective(s: seq<Byte>, t: seq<Byte>)
    requires Encode(s) == Encode(t)
    ensures s == t
  {
    RoundTrip(s);
    RoundTrip(t);
  }

  lemma EncodedIsSafe(s: seq<Byte>)
    ensures Safe(Encode(s))
  {
    RoundTrip(s);
  }

  /** Every byte of a safe name is plain, a percent sign or a hexadecimal digit: no path separator. */
  lemma {:induction false} SafeHasNoSeparator(name: seq<Byte>)
    requires Safe(name)
    ensures forall c | c in name :: Plain(c) || c == PERCENT
    ensures SLASH !in name && BACKSLASH !in name
  {
    if name != [] {
      if Plain(name[0]) {
        SafeHasNoSeparator(name[1..]);
        assert name == [name[0]] + name[1..];
      } else {
        SafeHasNoSeparator(name[3..]);
        assert name == [name[0], name[1], name[2]] + name[3..];
      }
    }
  }

  /** Ordinary identifiers pass through unchanged. */
  lemma {:induction false} PlainPassesThrough(s: seq<Byte>)
    ensures Encode(s) == s <==> forall c | c in s :: Plain(c)
  {
    if s != [] {
      PlainPassesThrough(s[1..]);
      assert s == [s[0]] + s[1..];
      EncodeGrows(s[1..]);
      if Plain(s[0]) {
        assert Encode(s)[1..] == Encode(s[1..]);
      } else {
        assert |Encode(s)| > |s|;
      }
    }
  }

  lemma {:induction false} EncodeGrows(s: seq<Byte>)
    ensures |Encode(s)| >= |s|
  {
    if s != [] {
      EncodeGrows(s[1..]);
    }
  }
}
