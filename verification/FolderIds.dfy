/** Folder ids: a location's UTF-8 in unpadded, URL-safe base64 (section 5 of RFC 4648), and
    back, refusing what names no location. */
module FolderIds {
  import opened Options

  type Byte = b: int | 0 <= b < 256
  type Sextet = v: int | 0 <= v < 64

  // ----- UTF-8 -----

  function EncodeChar(c: char): seq<Byte> {
    var n := c as int;
    if n < 0x80 then [n]
    else if n < 0x800 then [0xC0 + n / 64, 0x80 + n % 64]
    else if n < 0x1_0000 then [0xE0 + n / 4096, 0x80 + n / 64 % 64, 0x80 + n % 64]
    else [0xF0 + n / 262144, 0x80 + n / 4096 % 64, 0x80 + n / 64 % 64, 0x80 + n % 64]
  }

  function EncodeUtf8(s: string): seq<Byte> {
    if s == "" then [] else EncodeChar(s[0]) + EncodeUtf8(s[1..])
  }

  /** The number four groups of six bits make. */
  function Joined(a: int, b: int, c: int, d: int): int { a * 262144 + b * 4096 + c * 64 + d }

  lemma DivTwice(n: int)
    requires 0 <= n
    ensures n / 4096 == n / 64 / 64 && n / 262144 == n / 64 / 64 / 64
  {}

  lemma DivMod64(a: int, b: int)
    requires 0 <= a && 0 <= b < 64
    ensures (a * 64 + b) / 64 == a && (a * 64 + b) % 64 == b
  {}

  lemma SplitJoins(n: int)
    requires 0 <= n
    ensures Joined(n / 262144, n / 4096 % 64, n / 64 % 64, n % 64) == n
    ensures n < 0x1_0000 ==> Joined(0, n / 4096, n / 64 % 64, n % 64) == n && n / 4096 < 16
    ensures n < 0x800 ==> Joined(0, 0, n / 64, n % 64) == n && n / 64 < 32
  {
    DivTwice(n);
  }

  lemma JoinSplits(a: int, b: int, c: int, d: int)
    requires 0 <= a && 0 <= b < 64 && 0 <= c < 64 && 0 <= d < 64
    ensures var n := Joined(a, b, c, d); n / 262144 == a && n / 4096 % 64 == b && n / 64 % 64 == c && n % 64 == d
    ensures a == 0 ==> Joined(a, b, c, d) / 4096 == b
    ensures a == 0 && b == 0 ==> Joined(a, b, c, d) / 64 == c
  {
    var y := a * 64 + b;
    var x := y * 64 + c;
    assert Joined(a, b, c, d) == x * 64 + d;
    DivMod64(x, d);
    DivMod64(y, c);
    DivMod64(a, b);
    DivTwice(x * 64 + d);
  }

  predicate Continues(b: Byte) { 0x80 <= b < 0xC0 }

  predicate Scalar(n: int) { 0 <= n < 0xD800 || 0xE000 <= n < 0x11_0000 }

  /** How many bytes the first character has and which one it is; nothing for bytes that
      are cut short, out of range, or longer than they need be. */
  function FirstChar(bytes: seq<Byte>): Option<(nat, int)>
    requires bytes != []
  {
    var b: int := bytes[0];
    if b < 0x80 then Some((1, b))
    else if 0xC2 <= b < 0xE0 && |bytes| >= 2 && Continues(bytes[1]) then
      Some((2, Joined(0, 0, b - 0xC0, bytes[1] - 0x80)))
    else if 0xE0 <= b < 0xF0 && |bytes| >= 3 && Continues(bytes[1]) && Continues(bytes[2]) then
      var n := Joined(0, b - 0xE0, bytes[1] - 0x80, bytes[2] - 0x80);
      if n >= 0x800 && Scalar(n) then Some((3, n)) else None
    else if 0xF0 <= b < 0xF5 && |bytes| >= 4 && Continues(bytes[1]) && Continues(bytes[2]) && Continues(bytes[3]) then
      var n := Joined(b - 0xF0, bytes[1] - 0x80, bytes[2] - 0x80, bytes[3] - 0x80);
      if n >= 0x1_0000 && Scalar(n) then Some((4, n)) else None
    else None
  }

  function DecodeUtf8(bytes: seq<Byte>): Option<string>
    decreases |bytes|
  {
    if bytes == [] then Some("")
    else if FirstChar(bytes).None? then None
    else
      var (size, n) := FirstChar(bytes).value;
      var rest := DecodeUtf8(bytes[size..]);
      if rest.None? then None else Some([n as char] + rest.value)
  }

  lemma CharDecodes(c: char, rest: seq<Byte>)
    ensures FirstChar(EncodeChar(c) + rest) == Some((|EncodeChar(c)|, c as int))
    ensures (EncodeChar(c) + rest)[|EncodeChar(c)|..] == rest
  {
    hide Joined;
    var n := c as int;
    SplitJoins(n);
    var bytes := EncodeChar(c) + rest;
    assert Scalar(n);
    if n < 0x80 {
      assert bytes[0] == n;
    } else if n < 0x800 {
      assert bytes[0] == 0xC0 + n / 64 && bytes[1] == 0x80 + n % 64;
    } else if n < 0x1_0000 {
      assert bytes[0] == 0xE0 + n / 4096 && bytes[1] == 0x80 + n / 64 % 64 && bytes[2] == 0x80 + n % 64;
    } else {
      assert bytes[0] == 0xF0 + n / 262144 && bytes[1] == 0x80 + n / 4096 % 64;
      assert bytes[2] == 0x80 + n / 64 % 64 && bytes[3] == 0x80 + n % 64;
    }
  }

  lemma {:induction false} Utf8RoundTrip(s: string)
    ensures DecodeUtf8(EncodeUtf8(s)) == Some(s)
  {
    if s != "" {
      Utf8RoundTrip(s[1..]);
      CharDecodes(s[0], EncodeUtf8(s[1..]));
      assert s == [s[0]] + s[1..];
    }
  }

  lemma CharEncodes(bytes: seq<Byte>)
    requires bytes != [] && FirstChar(bytes).Some?
    ensures var (size, n) := FirstChar(bytes).value;
      size <= |bytes| && Scalar(n) && EncodeChar(n as char) == bytes[..size]
  {
    hide Joined;
    var b: int := bytes[0];
    if b < 0x80 {
      assert bytes[..1] == [b];
    } else if b < 0xE0 {
      assert bytes[..2] == [b, bytes[1]];
      JoinSplits(0, 0, b - 0xC0, bytes[1] - 0x80);
    } else if b < 0xF0 {
      assert bytes[..3] == [b, bytes[1], bytes[2]];
      JoinSplits(0, b - 0xE0, bytes[1] - 0x80, bytes[2] - 0x80);
    } else {
      assert bytes[..4] == [b, bytes[1], bytes[2], bytes[3]];
      JoinSplits(b - 0xF0, bytes[1] - 0x80, bytes[2] - 0x80, bytes[3] - 0x80);
    }
  }

  lemma EncodeCons(c: char, s: string)
    ensures EncodeUtf8([c] + s) == EncodeChar(c) + EncodeUtf8(s)
  {
    assert ([c] + s)[1..] == s;
  }

  lemma DecodesFirst(bytes: seq<Byte>) returns (c: char, rest: seq<Byte>)
    requires bytes != [] && DecodeUtf8(bytes).Some?
    ensures bytes == EncodeChar(c) + rest && |rest| < |bytes|
    ensures DecodeUtf8(rest).Some? && DecodeUtf8(bytes).value == [c] + DecodeUtf8(rest).value
  {
    hide EncodeChar, FirstChar;
    CharEncodes(bytes);
    var (size, n) := FirstChar(bytes).value;
    c, rest := n as char, bytes[size..];
    assert bytes == bytes[..size] + rest;
  }

  /** Strict decoding loses nothing: only the one encoding of a text decodes to it. */
  lemma {:induction false} Utf8Exact(bytes: seq<Byte>)
    requires DecodeUtf8(bytes).Some?
    ensures EncodeUtf8(DecodeUtf8(bytes).value) == bytes
    decreases |bytes|
  {
    if bytes != [] {
      hide EncodeChar, FirstChar, DecodeUtf8;
      var c, rest := DecodesFirst(bytes);
      Utf8Exact(rest);
      EncodeCons(c, DecodeUtf8(rest).value);
    }
  }

  // ----- base64 -----

  function Symbol(v: Sextet): char {
    if v < 26 then (v + 'A' as int) as char
    else if v < 52 then (v - 26 + 'a' as int) as char
    else if v < 62 then (v - 52 + '0' as int) as char
    else if v == 62 then '-'
    else '_'
  }

  predicate InAlphabet(c: char) { 'A' <= c <= 'Z' || 'a' <= c <= 'z' || '0' <= c <= '9' || c == '-' || c == '_' }

  function Value(c: char): (v: Sextet)
    requires InAlphabet(c)
  {
    if 'A' <= c <= 'Z' then c as int - 'A' as int
    else if 'a' <= c <= 'z' then c as int - 'a' as int + 26
    else if '0' <= c <= '9' then c as int - '0' as int + 52
    else if c == '-' then 62
    else 63
  }

  function Sextet1(a: Byte): Sextet { a / 4 }

  function Sextet2(a: Byte, b: Byte): Sextet { a % 4 * 16 + b / 16 }

  function Sextet3(b: Byte, c: Byte): Sextet { b % 16 * 4 + c / 64 }

  function Sextet4(c: Byte): Sextet { c % 64 }

  function Last2(a: Byte): Sextet { a % 4 * 16 }

  function Last3(b: Byte): Sextet { b % 16 * 4 }

  /** Three bytes as four groups of six bits; what is left over is filled up with zeros. */
  function Sextets(bytes: seq<Byte>): seq<Sextet> {
    if bytes == [] then []
    else if |bytes| == 1 then [Sextet1(bytes[0]), Last2(bytes[0])]
    else if |bytes| == 2 then [Sextet1(bytes[0]), Sextet2(bytes[0], bytes[1]), Last3(bytes[1])]
    else Quad(bytes[0], bytes[1], bytes[2]) + Sextets(bytes[3..])
  }

  function Quad(a: Byte, b: Byte, c: Byte): seq<Sextet> {
    [Sextet1(a), Sextet2(a, b), Sextet3(b, c), Sextet4(c)]
  }

  /** The whole bytes in groups of six bits; what is left over is dropped. */
  function Octets(sextets: seq<Sextet>): seq<Byte> {
    if |sextets| <= 1 then []
    else if |sextets| == 2 then [Octet1(sextets[0], sextets[1])]
    else if |sextets| == 3 then [Octet1(sextets[0], sextets[1]), Octet2(sextets[1], sextets[2])]
    else Triple(sextets[0], sextets[1], sextets[2], sextets[3]) + Octets(sextets[4..])
  }

  function Octet1(w: Sextet, x: Sextet): Byte { (w as int) * 4 + x / 16 }

  function Octet2(x: Sextet, y: Sextet): Byte { (x as int) % 16 * 16 + y / 4 }

  function Octet3(y: Sextet, z: Sextet): Byte { (y as int) % 4 * 64 + z }

  function Triple(w: Sextet, x: Sextet, y: Sextet, z: Sextet): seq<Byte> {
    [Octet1(w, x), Octet2(x, y), Octet3(y, z)]
  }

  function Symbols(sextets: seq<Sextet>): string {
    if sextets == [] then "" else [Symbol(sextets[0])] + Symbols(sextets[1..])
  }

  predicate AllInAlphabet(s: string) { s != "" ==> InAlphabet(s[0]) && AllInAlphabet(s[1..]) }

  function Values(s: string): seq<Sextet>
    requires AllInAlphabet(s)
  {
    if s == "" then [] else [Value(s[0])] + Values(s[1..])
  }

  function Padding(n: nat): string { if n == 0 then "" else "=" + Padding(n - 1) }

  /** `-n % 4`, which rounds `n` up to a multiple of four */
  function PadLength(n: nat): nat { if n % 4 == 0 then 0 else 4 - n % 4 }

  /** `s.rstrip("=")` */
  function Stripped(s: string): string {
    if s == "" then "" else if Stripped(s[1..]) == "" && s[0] == '=' then "" else [s[0]] + Stripped(s[1..])
  }

  function EncodeBase64(bytes: seq<Byte>): string {
    var symbols := Symbols(Sextets(bytes));
    symbols + Padding(PadLength(|symbols|))
  }

  function DecodeBase64(s: string): Option<seq<Byte>> {
    if |s| % 4 == 0 && AllInAlphabet(Stripped(s)) then Some(Octets(Values(Stripped(s)))) else None
  }

  function EncodeFolderId(path: string): string { Stripped(EncodeBase64(EncodeUtf8(path))) }

  /** The location an id names, if it names one. */
  function DecodeFolderId(id: string): Option<string> {
    if id == "" || !AllInAlphabet(id) || |id| % 4 == 1 then None
    else
      var bytes := DecodeBase64(id + Padding(PadLength(|id|)));
      var path := if bytes.Some? then DecodeUtf8(bytes.value) else None;
      if path.Some? && path.value != "" && '\0' !in path.value then path else None
  }

  // ----- the two encodings, by their tables -----

  /** How far a byte is above `base`. */
  function Above(b: Byte, base: int): int { b as int - base }

  /** A character's bytes are its number in groups of six bits after a first byte that says how
      many follow, as in section 3 of RFC 3629. */
  lemma EncodedAs(c: char)
    ensures var (n, bytes) := (c as int, EncodeChar(c));
      if n < 0x80 then bytes == [n]
      else if n < 0x800 then
        |bytes| == 2 && 0xC0 <= bytes[0] < 0xE0 && Continues(bytes[1])
        && n == Above(bytes[0], 0xC0) * 64 + Above(bytes[1], 0x80)
      else if n < 0x1_0000 then
        |bytes| == 3 && 0xE0 <= bytes[0] < 0xF0 && Continues(bytes[1]) && Continues(bytes[2])
        && n == Above(bytes[0], 0xE0) * 4096 + Above(bytes[1], 0x80) * 64 + Above(bytes[2], 0x80)
      else
        |bytes| == 4 && 0xF0 <= bytes[0] < 0xF5 && Continues(bytes[1]) && Continues(bytes[2]) && Continues(bytes[3])
        && n == Above(bytes[0], 0xF0) * 262144 + Above(bytes[1], 0x80) * 4096 + Above(bytes[2], 0x80) * 64
                + Above(bytes[3], 0x80)
  {
    SplitJoins(c as int);
  }

  const CAPITALS := "ABCDEFGHIJKLMNOPQRSTUVWXYZ"
  const SMALL := "abcdefghijklmnopqrstuvwxyz"
  const DIGITS := "0123456789"

  /** The symbols are those of table 2 of RFC 4648, in its order. */
  lemma SymbolTable(v: Sextet)
    ensures v < 26 ==> Symbol(v) == CAPITALS[v]
    ensures 26 <= v < 52 ==> Symbol(v) == SMALL[v - 26]
    ensures 52 <= v < 62 ==> Symbol(v) == DIGITS[v - 52]
    ensures v == 62 ==> Symbol(v) == '-'
    ensures v == 63 ==> Symbol(v) == '_'
  {}

  /** Three bytes are one number of 24 bits, the groups of six its digits; one or two bytes left
      over are moved up by as many bits as are missing. */
  lemma SextetsAreDigits(a: Byte, b: Byte, c: Byte)
    ensures var (x, q) := ((a as int) * 65536 + (b as int) * 256 + c as int, Quad(a, b, c));
      |q| == 4 && x == (q[0] as int) * 262144 + (q[1] as int) * 4096 + (q[2] as int) * 64 + q[3] as int
    ensures var q := Sextets([a]); |q| == 2 && (a as int) * 16 == (q[0] as int) * 64 + q[1] as int
    ensures var (x, q) := ((a as int) * 256 + b as int, Sextets([a, b]));
      |q| == 3 && x * 4 == (q[0] as int) * 4096 + (q[1] as int) * 64 + q[2] as int
  {}

  // ----- the padding comes off and goes back on -----

  lemma ValueSymbol(c: char)
    requires InAlphabet(c)
    ensures Symbol(Value(c)) == c
  {}

  lemma PadsToFours(n: nat)
    ensures (n + PadLength(n)) % 4 == 0
  {}

  lemma {:induction false} PaddingIs(n: nat)
    ensures |Padding(n)| == n && Stripped(Padding(n)) == ""
  {
    if n > 0 {
      PaddingIs(n - 1);
      assert Padding(n)[1..] == Padding(n - 1);
    }
  }

  lemma {:induction false} StrippedIs(s: string, n: nat)
    requires AllInAlphabet(s)
    ensures Stripped(s + Padding(n)) == s
  {
    if s == "" {
      PaddingIs(n);
      assert s + Padding(n) == Padding(n);
    } else {
      StrippedIs(s[1..], n);
      assert (s + Padding(n))[1..] == s[1..] + Padding(n);
      assert s == [s[0]] + s[1..];
    }
  }

  lemma {:induction false} SymbolsAre(sextets: seq<Sextet>)
    ensures AllInAlphabet(Symbols(sextets)) && |Symbols(sextets)| == |sextets|
    ensures Values(Symbols(sextets)) == sextets
  {
    if sextets != [] {
      SymbolsAre(sextets[1..]);
      assert Symbols(sextets)[1..] == Symbols(sextets[1..]);
      assert sextets == [sextets[0]] + sextets[1..];
    }
  }

  lemma {:induction false} ValuesAre(s: string)
    requires AllInAlphabet(s)
    ensures |Values(s)| == |s| && Symbols(Values(s)) == s
  {
    if s != "" {
      ValueSymbol(s[0]);
      hide Symbol, Value, InAlphabet;
      ValuesAre(s[1..]);
      assert Values(s)[1..] == Values(s[1..]);
      assert s == [s[0]] + s[1..];
    }
  }

  // ----- bytes and groups of six bits -----

  lemma DivMod4(a: int, b: int)
    requires 0 <= a && 0 <= b < 4
    ensures (a * 4 + b) / 4 == a && (a * 4 + b) % 4 == b
  {}

  lemma DivMod16(a: int, b: int)
    requires 0 <= a && 0 <= b < 16
    ensures (a * 16 + b) / 16 == a && (a * 16 + b) % 16 == b
  {}

  lemma OctetsBack(a: Byte, b: Byte, c: Byte)
    ensures Octet1(Sextet1(a), Sextet2(a, b)) == a
    ensures Octet2(Sextet2(a, b), Sextet3(b, c)) == b
    ensures Octet3(Sextet3(b, c), Sextet4(c)) == c
  {
    DivMod16(a % 4, b / 16);
    DivMod4(b % 16, c / 64);
  }

  lemma LastBack(a: Byte, b: Byte)
    ensures Octet1(Sextet1(a), Last2(a)) == a
    ensures Octet1(Sextet1(a), Sextet2(a, b)) == a && Octet2(Sextet2(a, b), Last3(b)) == b
  {
    DivMod16(a % 4, b / 16);
  }

  lemma SextetsBack(w: Sextet, x: Sextet, y: Sextet, z: Sextet)
    ensures Sextet1(Octet1(w, x)) == w && Sextet2(Octet1(w, x), Octet2(x, y)) == x
    ensures Sextet3(Octet2(x, y), Octet3(y, z)) == y && Sextet4(Octet3(y, z)) == z
    ensures Last2(Octet1(w, x)) == x / 16 * 16 && Last3(Octet2(x, y)) == y / 4 * 4
  {
    DivMod4(w, x / 16);
    DivMod16(x % 16, y / 4);
    DivMod64(y % 4, z);
  }

  lemma TripleQuad(w: Sextet, x: Sextet, y: Sextet, z: Sextet)
    ensures var t := Triple(w, x, y, z); Quad(t[0], t[1], t[2]) == [w, x, y, z]
  {
    SextetsBack(w, x, y, z);
  }

  lemma SextetsCons(a: Byte, b: Byte, c: Byte, rest: seq<Byte>)
    ensures Sextets([a, b, c] + rest) == Quad(a, b, c) + Sextets(rest)
  {
    assert ([a, b, c] + rest)[3..] == rest;
  }

  lemma OctetsCons(w: Sextet, x: Sextet, y: Sextet, z: Sextet, rest: seq<Sextet>)
    ensures Octets([w, x, y, z] + rest) == Triple(w, x, y, z) + Octets(rest)
  {
    assert ([w, x, y, z] + rest)[4..] == rest;
  }

  lemma QuadBack(a: Byte, b: Byte, c: Byte, rest: seq<Sextet>)
    ensures Octets(Quad(a, b, c) + rest) == [a, b, c] + Octets(rest)
  {
    var q := Quad(a, b, c);
    assert q == [q[0], q[1], q[2], q[3]];
    OctetsBack(a, b, c);
    OctetsCons(q[0], q[1], q[2], q[3], rest);
  }

  lemma {:induction false} OctetsOfSextets(bytes: seq<Byte>)
    ensures Octets(Sextets(bytes)) == bytes
  {
    if |bytes| >= 3 {
      var a, b, c, rest := bytes[0], bytes[1], bytes[2], bytes[3..];
      assert bytes == [a, b, c] + rest;
      OctetsOfSextets(rest);
      SextetsCons(a, b, c, rest);
      QuadBack(a, b, c, Sextets(rest));
    } else if |bytes| == 2 {
      TwoBack(bytes);
    } else if |bytes| == 1 {
      OneBack(bytes);
    }
  }

  lemma {:induction false} SextetsLength(bytes: seq<Byte>)
    ensures |Sextets(bytes)| % 4 != 1 && (|Sextets(bytes)| == 0 <==> |bytes| == 0)
  {
    if |bytes| >= 3 { SextetsLength(bytes[3..]); }
  }

  lemma OneBack(bytes: seq<Byte>)
    requires |bytes| == 1
    ensures Octets(Sextets(bytes)) == bytes
  {
    var a := bytes[0];
    LastBack(a, a);
    assert Sextets(bytes) == [Sextet1(a), Last2(a)];
    assert Octets([Sextet1(a), Last2(a)]) == [a];
  }

  lemma TwoBack(bytes: seq<Byte>)
    requires |bytes| == 2
    ensures Octets(Sextets(bytes)) == bytes
  {
    var a, b := bytes[0], bytes[1];
    LastBack(a, b);
    assert Sextets(bytes) == [Sextet1(a), Sextet2(a, b), Last3(b)];
    assert Octets([Sextet1(a), Sextet2(a, b), Last3(b)]) == [a, b];
  }

  /** No bit is set past the last whole byte. */
  predicate NoBitsLeft(sextets: seq<Sextet>) {
    if |sextets| == 2 then sextets[1] % 16 == 0
    else if |sextets| == 3 then sextets[2] % 4 == 0
    else |sextets| >= 4 ==> NoBitsLeft(sextets[4..])
  }

  lemma {:induction false} SextetsOfOctets(sextets: seq<Sextet>)
    requires |sextets| % 4 != 1
    ensures Sextets(Octets(sextets)) == sextets <==> NoBitsLeft(sextets)
  {
    if |sextets| >= 4 {
      var w, x, y, z, rest := sextets[0], sextets[1], sextets[2], sextets[3], sextets[4..];
      assert sextets == [w, x, y, z] + rest;
      SextetsOfOctets(rest);
      OctetsCons(w, x, y, z, rest);
      TripleQuad(w, x, y, z);
      var t := Triple(w, x, y, z);
      assert t == [t[0], t[1], t[2]];
      SextetsCons(t[0], t[1], t[2], Octets(rest));
      assert ([w, x, y, z] + Sextets(Octets(rest)))[4..] == Sextets(Octets(rest));
    } else if |sextets| == 3 {
      hide Sextets, Octets;
      var w, x, y := sextets[0], sextets[1], sextets[2];
      assert sextets == [w, x, y];
      TripletBack(w, x, y);
      RoundedDown(y, 4);
      assert [w, x, y / 4 * 4][2] == y / 4 * 4;
    } else if |sextets| == 2 {
      hide Sextets, Octets;
      var w, x := sextets[0], sextets[1];
      assert sextets == [w, x];
      PairBack(w, x);
      RoundedDown(x, 16);
      assert [w, x / 16 * 16][1] == x / 16 * 16;
    }
  }

  lemma PairBack(w: Sextet, x: Sextet)
    ensures Sextets(Octets([w, x])) == [w, x / 16 * 16]
  {
    var a := Octet1(w, x);
    SextetsBack(w, x, x, x);
    assert Octets([w, x]) == [a];
    assert Sextets([a]) == [Sextet1(a), Last2(a)];
  }

  lemma TripletBack(w: Sextet, x: Sextet, y: Sextet)
    ensures Sextets(Octets([w, x, y])) == [w, x, y / 4 * 4]
  {
    var a, b := Octet1(w, x), Octet2(x, y);
    SextetsBack(w, x, y, y);
    assert Octets([w, x, y]) == [a, b];
    assert Sextets([a, b]) == [Sextet1(a), Sextet2(a, b), Last3(b)];
  }

  lemma RoundedDown(x: Sextet, k: int)
    requires k == 4 || k == 16
    ensures x / k * k == x <==> x % k == 0
  {}

  // ----- folder ids -----

  lemma PaddedIs(id: string)
    requires AllInAlphabet(id)
    ensures |id + Padding(PadLength(|id|))| % 4 == 0 && Stripped(id + Padding(PadLength(|id|))) == id
  {
    var pad := PadLength(|id|);
    PaddingIs(pad);
    PadsToFours(|id|);
    assert |id + Padding(pad)| == |id| + pad;
    StrippedIs(id, pad);
  }

  lemma PaddedDecodes(id: string)
    requires AllInAlphabet(id) && |id| % 4 != 1
    ensures DecodeBase64(id + Padding(PadLength(|id|))) == Some(Octets(Values(id)))
  {
    PaddedIs(id);
  }

  lemma EncodedIs(bytes: seq<Byte>)
    ensures Stripped(EncodeBase64(bytes)) == Symbols(Sextets(bytes))
    ensures AllInAlphabet(Symbols(Sextets(bytes))) && |Symbols(Sextets(bytes))| % 4 != 1
    ensures Symbols(Sextets(bytes)) == "" <==> bytes == []
    ensures Values(Symbols(Sextets(bytes))) == Sextets(bytes)
  {
    SymbolsAre(Sextets(bytes));
    SextetsLength(bytes);
    StrippedIs(Symbols(Sextets(bytes)), PadLength(|Sextets(bytes)|));
  }

  /** A location decodes from its id, and the id is of URL-safe characters alone. */
  lemma FolderIdRoundTrip(path: string)
    requires path != "" && '\0' !in path
    ensures DecodeFolderId(EncodeFolderId(path)) == Some(path)
    ensures AllInAlphabet(EncodeFolderId(path))
  {
    var bytes := EncodeUtf8(path);
    EncodedIs(bytes);
    PaddedDecodes(EncodeFolderId(path));
    OctetsOfSextets(bytes);
    Utf8RoundTrip(path);
  }

  /** An id that names a location is the location's own id exactly when it sets no bit past
      the last whole byte. */
  lemma OnlyCanonicalIdsReturn(id: string)
    requires DecodeFolderId(id).Some?
    ensures AllInAlphabet(id) && (EncodeFolderId(DecodeFolderId(id).value) == id <==> NoBitsLeft(Values(id)))
  {
    PaddedDecodes(id);
    ValuesAre(id);
    var bytes := Octets(Values(id));
    Utf8Exact(bytes);
    EncodedIs(bytes);
    SextetsOfOctets(Values(id));
  }

  lemma OneByteId(id: string, c: char)
    requires |id| == 2 && AllInAlphabet(id) && 0 < c as int < 0x80
    requires InAlphabet(id[1]) && Octet1(Value(id[0]), Value(id[1])) == c as int
    ensures DecodeFolderId(id) == Some([c])
  {
    PaddedDecodes(id);
    var last := id[1..];
    assert last[0] == id[1] && last[1..] == "" && AllInAlphabet(last);
    assert Values(last) == [Value(id[1])] + Values("");
    assert Values(id) == [Value(id[0])] + Values(last) == [Value(id[0]), Value(id[1])];
    assert [c][1..] == "" && EncodeUtf8([c]) == [c as int];
    Utf8RoundTrip([c]);
  }

  /** So one location has several ids: these two differ in such bits only. */
  lemma TwoIdsOneLocation()
    ensures DecodeFolderId("Lw") == Some("/") == DecodeFolderId("Lx")
  {
    assert "Lw"[1..] == "w" && "w"[1..] == "" && "Lx"[1..] == "x" && "x"[1..] == "";
    OneByteId("Lw", '/');
    OneByteId("Lx", '/');
  }
}
