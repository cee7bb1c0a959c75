/** Just enough of base64, of query strings and of decimal numbers. */
module Encodings {
  import opened ByteStrings
  import opened Bases

  // ---------------------------------------------------------------- splitting and joining

  function Join(xs: seq<Bytes>, sep: Byte): Bytes {
    if xs == [] then [] else if |xs| == 1 then xs[0] else xs[0] + [sep] + Join(xs[1..], sep)
  }

  function Split(s: Bytes, sep: Byte): (r: seq<Bytes>)
    ensures r != [] && forall i :: 0 <= i < |r| ==> sep !in r[i]
  {
    if s == [] then [[]]
    else
      var r := Split(s[1..], sep);
      if s[0] == sep then [[]] + r else [[s[0]] + r[0]] + r[1..]
  }

  lemma {:induction false} SplitPiece(x: Bytes, rest: Bytes, sep: Byte)
    requires sep !in x
    ensures Split(x, sep) == [x]
    ensures Split(x + [sep] + rest, sep) == [x] + Split(rest, sep)
  {
    var s := x + [sep] + rest;
    if x == [] {
      assert s[1..] == rest;
    } else {
      SplitPiece(x[1..], rest, sep);
      assert s[1..] == x[1..] + [sep] + rest;
      assert x == [x[0]] + x[1..];
    }
  }

  predicate AllWithout(xs: seq<Bytes>, sep: Byte) {
    forall i :: 0 <= i < |xs| ==> sep !in xs[i]
  }

  lemma {:induction false} SplitJoin(xs: seq<Bytes>, sep: Byte)
    requires xs != [] && AllWithout(xs, sep)
    ensures Split(Join(xs, sep), sep) == xs
  {
    if |xs| == 1 {
      SplitPiece(xs[0], [], sep);
    } else {
      SplitJoin(xs[1..], sep);
      SplitPiece(xs[0], Join(xs[1..], sep), sep);
    }
  }

  // ---------------------------------------------------------------- base64url without padding

  predicate IsSextet(c: Byte) {
    'A' <= c <= 'Z' || 'a' <= c <= 'z' || '0' <= c <= '9' || c == '-' || c == '_'
  }

  function Sextet(d: int): (c: Byte)
    requires 0 <= d < 64
    ensures IsSextet(c)
  {
    if d < 26 then d as char + 'A'
    else if d < 52 then (d - 26) as char + 'a'
    else if d < 62 then (d - 52) as char + '0'
    else if d == 62 then '-'
    else '_'
  }

  function SextetOf(c: Byte): (d: int)
    requires IsSextet(c)
    ensures 0 <= d < 64
  {
    if 'A' <= c <= 'Z' then c as int - 'A' as int
    else if 'a' <= c <= 'z' then c as int - 'a' as int + 26
    else if '0' <= c <= '9' then c as int - '0' as int + 52
    else if c == '-' then 62
    else 63
  }

  lemma SextetRoundTrip(d: int)
    requires 0 <= d < 64
    ensures SextetOf(Sextet(d)) == d
  {
  }

  predicate AllSextets(t: Bytes) {
    forall i :: 0 <= i < |t| ==> IsSextet(t[i])
  }

  function Letters(ds: seq<nat>): (t: Bytes)
    requires forall i :: 0 <= i < |ds| ==> ds[i] < 64
    ensures |t| == |ds| && AllSextets(t)
  {
    if ds == [] then [] else [Sextet(ds[0])] + Letters(ds[1..])
  }

  function Sextets(t: Bytes): (ds: seq<nat>)
    requires AllSextets(t)
    ensures |ds| == |t| && forall i :: 0 <= i < |ds| ==> ds[i] < 64
  {
    if t == [] then [] else [SextetOf(t[0])] + Sextets(t[1..])
  }

  function Ords(s: Bytes): (ds: seq<nat>)
    ensures |ds| == |s| && forall i :: 0 <= i < |ds| ==> ds[i] < 256
  {
    if s == [] then [] else [s[0] as int] + Ords(s[1..])
  }

  function Chrs(ds: seq<nat>): (s: Bytes)
    requires forall i :: 0 <= i < |ds| ==> ds[i] < 256
    ensures |s| == |ds|
  {
    if ds == [] then [] else [ds[0] as char] + Chrs(ds[1..])
  }

  /** Three bytes are four sextets; one or two at the end are padded with zero bits. */
  function Encode64(s: Bytes): (r: Bytes)
    ensures AllSextets(r) && (s != [] <==> r != [])
  {
    if s == [] then []
    else if |s| == 1 then Letters(Digits(64, 2, Value(256, Ords(s)) * 16))
    else if |s| == 2 then Letters(Digits(64, 3, Value(256, Ords(s)) * 4))
    else Letters(Digits(64, 4, Value(256, Ords(s[..3])))) + Encode64(s[3..])
  }

  /** Line breaks are skipped. */
  function NoBreaks(t: Bytes): Bytes {
    if t == [] then [] else if t[0] == '\n' || t[0] == '\r' then NoBreaks(t[1..]) else [t[0]] + NoBreaks(t[1..])
  }

  /** The bits left over at the end are not looked at. */
  function DecodeSextets(t: Bytes): Option<Bytes>
    requires AllSextets(t)
  {
    if t == [] then Some([])
    else if |t| == 1 then None
    else if |t| == 2 then Some(Chrs(Digits(256, 1, Value(64, Sextets(t)) / 16)))
    else if |t| == 3 then Some(Chrs(Digits(256, 2, Value(64, Sextets(t)) / 4)))
    else match DecodeSextets(t[4..])
      case Some(r) => Some(Chrs(Digits(256, 3, Value(64, Sextets(t[..4])))) + r)
      case None => None
  }

  function Decode64(t: Bytes): Option<Bytes> {
    var u := NoBreaks(t);
    if AllSextets(u) then DecodeSextets(u) else None
  }

  lemma {:induction false} NothingToSkip(t: Bytes)
    requires AllSextets(t)
    ensures NoBreaks(t) == t
  {
    if t != [] {
      NothingToSkip(t[1..]);
    }
  }

  lemma {:induction false} LettersRoundTrip(ds: seq<nat>)
    requires forall i :: 0 <= i < |ds| ==> ds[i] < 64
    ensures Sextets(Letters(ds)) == ds
  {
    if ds != [] {
      SextetRoundTrip(ds[0]);
      LettersRoundTrip(ds[1..]);
    }
  }

  lemma {:induction false} OrdsRoundTrip(s: Bytes)
    ensures Chrs(Ords(s)) == s
  {
    if s != [] {
      OrdsRoundTrip(s[1..]);
    }
  }

  lemma GroupSizes()
    ensures Power(64, 4) == Power(256, 3) == 0x100_0000
    ensures Power(64, 3) == 0x4_0000 && Power(256, 2) == 0x1_0000 && Power(64, 2) == 0x1000 && Power(256, 1) == 0x100
  {
    assert Power(64, 1) == 64;
  }

  /** Digits in base 256 survive k digits in base 64 with spare zero bits. */
  lemma SpareBits(ds: seq<nat>, k: nat, spare: nat)
    requires spare > 0 && Power(256, |ds|) * spare == Power(64, k)
    requires forall i :: 0 <= i < |ds| ==> ds[i] < 256
    ensures Digits(256, |ds|, Value(64, Digits(64, k, Value(256, ds) * spare)) / spare) == ds
  {
    var x := Value(256, ds);
    DigitsValue(256, ds);
    Scale(x + 1, Power(256, |ds|), spare);
    Scale(x, x, spare);
    ValueDigits(64, k, x * spare);
    DivMod(x, spare, 0);
  }

  lemma GroupRoundTrip(s: Bytes, k: nat, spare: nat)
    requires spare > 0 && Power(256, |s|) * spare == Power(64, k)
    ensures var t := Letters(Digits(64, k, Value(256, Ords(s)) * spare));
            Chrs(Digits(256, |s|, Value(64, Sextets(t)) / spare)) == s
  {
    SpareBits(Ords(s), k, spare);
    LettersRoundTrip(Digits(64, k, Value(256, Ords(s)) * spare));
    OrdsRoundTrip(s);
  }

  lemma {:induction false} SextetsRoundTrip(s: Bytes)
    ensures DecodeSextets(Encode64(s)) == Some(s)
  {
    GroupSizes();
    if |s| == 1 {
      GroupRoundTrip(s, 2, 16);
    } else if |s| == 2 {
      GroupRoundTrip(s, 3, 4);
    } else if |s| > 2 {
      GroupRoundTrip(s[..3], 4, 1);
      SextetsRoundTrip(s[3..]);
      var head := Letters(Digits(64, 4, Value(256, Ords(s[..3]))));
      assert Encode64(s)[..4] == head && Encode64(s)[4..] == Encode64(s[3..]);
      assert s[..3] + s[3..] == s;
    }
  }

  /** Section 5 of RFC 4648: what is encoded is decoded again. */
  lemma Base64RoundTrip(s: Bytes)
    ensures Decode64(Encode64(s)) == Some(s)
  {
    SextetsRoundTrip(s);
    NothingToSkip(Encode64(s));
  }

  /** The alphabet of section 5 of RFC 4648. */
  lemma UrlSafeTable(d: int)
    requires 0 <= d < 64
    ensures d < 26 ==> Sextet(d) as int == 65 + d
    ensures 26 <= d < 52 ==> Sextet(d) as int == 97 + (d - 26)
    ensures 52 <= d < 62 ==> Sextet(d) as int == 48 + (d - 52)
    ensures d == 62 ==> Sextet(d) == '-'
    ensures d == 63 ==> Sextet(d) == '_'
  {
  }

  lemma ThreeBytes(a: Byte, b: Byte, c: Byte)
    ensures Ords([a, b, c]) == [a as int, b as int, c as int]
    ensures Value(256, Ords([a, b, c])) == a as int * 65536 + b as int * 256 + c as int
  {
    var s := [a, b, c];
    assert s[1..] == [b, c] && [b, c][1..] == [c] && [c][1..] == [];
    assert Ords([c]) == [c as int];
    assert Ords([b, c]) == [b as int, c as int];
    ThreeDigits(a as int, b as int, c as int);
  }

  lemma ThreeDigits(a: nat, b: nat, c: nat)
    ensures Value(256, [a, b, c]) == a * 65536 + b * 256 + c
  {
    assert [a, b, c][..2] == [a, b] && [a, b][..1] == [a] && [a][..0] == [];
    assert Value(256, [a]) == a && Value(256, [a, b]) == a * 256 + b;
  }

  /** Three bytes become four letters, six bits each, the first bits first. */
  lemma GroupOfFour(a: Byte, b: Byte, c: Byte, rest: Bytes)
    ensures Encode64([a, b, c] + rest)
            == [Sextet(a as int / 4), Sextet(a as int % 4 * 16 + b as int / 16), Sextet(b as int % 16 * 4 + c as int / 64),
                Sextet(c as int % 64)] + Encode64(rest)
  {
    var s := [a, b, c] + rest;
    assert s[..3] == [a, b, c] && s[3..] == rest;
    ThreeBytes(a, b, c);
    FourSextets(a as int, b as int, c as int);
  }

  lemma FourSextets(a: nat, b: nat, c: nat)
    requires a < 256 && b < 256 && c < 256
    ensures Letters(Digits(64, 4, a * 65536 + b * 256 + c))
            == [Sextet(a / 4), Sextet(a % 4 * 16 + b / 16), Sextet(b % 16 * 4 + c / 64), Sextet(c % 64)]
  {
    var ds := [a / 4, a % 4 * 16 + b / 16, b % 16 * 4 + c / 64, c % 64];
    var x := a * 65536 + b * 256 + c;
    assert x / 64 == a * 1024 + b * 4 + c / 64 && x % 64 == c % 64;
    assert x / 64 / 64 == a * 16 + b / 16 && (x / 64) % 64 == b % 16 * 4 + c / 64;
    assert x / 64 / 64 / 64 == a / 4 && (x / 64 / 64) % 64 == a % 4 * 16 + b / 16;
    assert x == (((a / 4) * 64 + ds[1]) * 64 + ds[2]) * 64 + ds[3];
    FourDigits(a / 4, ds[1], ds[2], ds[3], x);
    FourLetters(ds);
  }

  /** One byte at the end, its last bits followed by zeros. */
  lemma LastByte(a: Byte)
    ensures Encode64([a]) == [Sextet(a as int / 4), Sextet(a as int % 4 * 16)]
  {
    var p, q: nat := a as int / 4, a as int % 4 * 16;
    assert [a][1..] == [] && Ords([a]) == [a as int] && [a as int][..0] == [];
    assert Value(256, Ords([a])) == a as int;
    FewDigits(p, q, a as int * 16);
    assert [p, q][1..] == [q] && Letters([q]) == [Sextet(q)];
  }

  /** Two bytes at the end. */
  lemma LastBytes(a: Byte, b: Byte)
    ensures Encode64([a, b]) == [Sextet(a as int / 4), Sextet(a as int % 4 * 16 + b as int / 16), Sextet(b as int % 16 * 4)]
  {
    var p, q: nat, r: nat := a as int / 4, a as int % 4 * 16 + b as int / 16, b as int % 16 * 4;
    assert [a, b][1..] == [b] && [b][1..] == [];
    assert Ords([b]) == [b as int] && Ords([a, b]) == [a as int, b as int];
    TwoDigits(a as int, b as int);
    MoreDigits(p, q, r, (a as int * 256 + b as int) * 4);
    assert [p, q, r][1..] == [q, r] && [q, r][1..] == [r] && Letters([r]) == [Sextet(r)] && Letters([q, r]) == [Sextet(q), Sextet(r)];
  }

  lemma TwoDigits(a: nat, b: nat)
    ensures Value(256, [a, b]) == a * 256 + b
  {
    assert [a, b][..1] == [a] && [a][..0] == [] && Value(256, [a]) == a;
  }

  lemma FewDigits(p: nat, q: nat, x: nat)
    requires p < 64 && q < 64 && x == p * 64 + q
    ensures Digits(64, 2, x) == [p, q]
  {
    assert Digits(64, 1, p) == [p];
  }

  lemma MoreDigits(p: nat, q: nat, r: nat, x: nat)
    requires p < 64 && q < 64 && r < 64 && x == (p * 64 + q) * 64 + r
    ensures Digits(64, 3, x) == [p, q, r]
  {
    FewDigits(p, q, p * 64 + q);
  }

  lemma FourDigits(p: nat, q: nat, r: nat, t: nat, x: nat)
    requires p < 64 && q < 64 && r < 64 && t < 64 && x == ((p * 64 + q) * 64 + r) * 64 + t
    ensures Digits(64, 4, x) == [p, q, r, t]
  {
    MoreDigits(p, q, r, (p * 64 + q) * 64 + r);
  }

  lemma FourLetters(ds: seq<nat>)
    requires |ds| == 4 && forall i :: 0 <= i < 4 ==> ds[i] < 64
    ensures Letters(ds) == [Sextet(ds[0]), Sextet(ds[1]), Sextet(ds[2]), Sextet(ds[3])]
  {
    assert ds[1..][1..][1..] == [ds[3]] && ds[1..][1..] == [ds[2], ds[3]];
    assert Letters([ds[3]]) == [Sextet(ds[3])];
    assert Letters([ds[2], ds[3]]) == [Sextet(ds[2]), Sextet(ds[3])];
  }

  /** What is decoded at all: letters of the alphabet, in a number that leaves no lone one. */
  lemma {:induction false} SextetsIff(t: Bytes)
    requires AllSextets(t)
    ensures DecodeSextets(t).Some? <==> |t| % 4 != 1
  {
    if |t| > 3 {
      SextetsIff(t[4..]);
    }
  }

  lemma DecodesIff(t: Bytes)
    ensures Decode64(t).Some?
            <==> |NoBreaks(t)| % 4 != 1
                 && forall i :: 0 <= i < |t| ==> t[i] == '\n' || t[i] == '\r' || IsSextet(t[i])
  {
    OnlySextets(t);
    if AllSextets(NoBreaks(t)) {
      SextetsIff(NoBreaks(t));
    }
  }

  lemma {:induction false} OnlySextets(t: Bytes)
    ensures AllSextets(NoBreaks(t)) <==> forall i :: 0 <= i < |t| ==> t[i] == '\n' || t[i] == '\r' || IsSextet(t[i])
  {
    if t != [] {
      OnlySextets(t[1..]);
      assert t == [t[0]] + t[1..];
      var u := NoBreaks(t);
      if t[0] != '\n' && t[0] != '\r' {
        assert u[0] == t[0] && u[1..] == NoBreaks(t[1..]);
        assert u == [t[0]] + NoBreaks(t[1..]);
      }
    }
  }

  // ---------------------------------------------------------------- query strings

  /** Characters that need no escape in a query. */
  predicate Unreserved(c: Byte) {
    IsSextet(c) || c == '.' || c == '~'
  }

  function Hex(d: int): (c: Byte)
    requires 0 <= d < 16
  {
    if d < 10 then d as char + '0' else (d - 10) as char + 'A'
  }

  function Unhex(c: Byte): (d: int)
    ensures -1 <= d < 16
  {
    if '0' <= c <= '9' then c as int - '0' as int
    else if 'a' <= c <= 'f' then c as int - 'a' as int + 10
    else if 'A' <= c <= 'F' then c as int - 'A' as int + 10
    else -1
  }

  /** Escaped text keeps clear of what separates fields. */
  predicate Clear(t: Bytes) {
    '&' !in t && ';' !in t && '=' !in t
  }

  function EscapeOne(c: Byte): (r: Bytes)
    ensures r != [] && Clear(r)
  {
    if Unreserved(c) then [c]
    else if c == ' ' then ['+']
    else ['%', Hex(c as int / 16), Hex(c as int % 16)]
  }

  function Escape(s: Bytes): (r: Bytes)
    ensures Clear(r)
  {
    if s == [] then [] else EscapeOne(s[0]) + Escape(s[1..])
  }

  function Unescape(t: Bytes): Option<Bytes> {
    if t == [] then Some([])
    else if t[0] == '%' then
      if |t| < 3 || Unhex(t[1]) < 0 || Unhex(t[2]) < 0 then None
      else match Unescape(t[3..])
        case Some(r) => Some([(Unhex(t[1]) * 16 + Unhex(t[2])) as char] + r)
        case None => None
    else match Unescape(t[1..])
      case Some(r) => Some([if t[0] == '+' then ' ' else t[0]] + r)
      case None => None
  }

  lemma EscapeOneRoundTrip(c: Byte, rest: Bytes)
    requires Unescape(rest).Some?
    ensures Unescape(EscapeOne(c) + rest) == Some([c] + Unescape(rest).value)
  {
    var t := EscapeOne(c) + rest;
    if Unreserved(c) || c == ' ' {
      assert t[1..] == rest;
    } else {
      assert Unhex(Hex(c as int / 16)) == c as int / 16 && Unhex(Hex(c as int % 16)) == c as int % 16;
      assert t[3..] == rest;
    }
  }

  lemma {:induction false} EscapeRoundTrip(s: Bytes)
    ensures Unescape(Escape(s)) == Some(s)
  {
    if s != [] {
      EscapeRoundTrip(s[1..]);
      EscapeOneRoundTrip(s[0], Escape(s[1..]));
      assert [s[0]] + s[1..] == s;
    }
  }

  datatype Field = Field(key: Bytes, value: Bytes)

  function PairOf(f: Field): Bytes {
    Escape(f.key) + "=" + Escape(f.value)
  }

  function Pairs(fs: seq<Field>): (r: seq<Bytes>)
    ensures |r| == |fs|
  {
    if fs == [] then [] else [PairOf(fs[0])] + Pairs(fs[1..])
  }

  /** The part before the first c, and the part behind it. */
  function Cut(s: Bytes, c: Byte): (r: (Bytes, Bytes)) {
    if s == [] then ([], [])
    else if s[0] == c then ([], s[1..])
    else var (before, after) := Cut(s[1..], c); ([s[0]] + before, after)
  }

  lemma {:induction false} CutAt(a: Bytes, c: Byte, b: Bytes)
    requires c !in a
    ensures Cut(a + [c] + b, c) == (a, b)
  {
    var s := a + [c] + b;
    if a == [] {
      assert s[1..] == b;
    } else {
      assert s[1..] == a[1..] + [c] + b && a == [a[0]] + a[1..];
      CutAt(a[1..], c, b);
    }
  }

  /** Empty pieces are skipped; a piece with a semicolon or a bad escape spoils it all. */
  function FieldsOf(pieces: seq<Bytes>): Option<seq<Field>> {
    if pieces == [] then Some([])
    else if pieces[0] == [] then FieldsOf(pieces[1..])
    else if ';' in pieces[0] then None
    else
      var (k, v) := Cut(pieces[0], '=');
      var uk, uv, rest := Unescape(k), Unescape(v), FieldsOf(pieces[1..]);
      if uk.Some? && uv.Some? && rest.Some? then Some([Field(uk.value, uv.value)] + rest.value) else None
  }

  function ParseQuery(q: Bytes): Option<seq<Field>> {
    FieldsOf(Split(q, '&'))
  }

  function Query(fs: seq<Field>): Bytes {
    Join(Pairs(fs), '&')
  }

  lemma PairCut(f: Field)
    ensures Cut(PairOf(f), '=') == (Escape(f.key), Escape(f.value)) && PairOf(f) != [] && ';' !in PairOf(f) && '&' !in PairOf(f)
  {
    assert '=' !in Escape(f.key);
    CutAt(Escape(f.key), '=', Escape(f.value));
  }

  lemma {:induction false} PairsRoundTrip(fs: seq<Field>)
    ensures FieldsOf(Pairs(fs)) == Some(fs) && AllWithout(Pairs(fs), '&')
  {
    if fs != [] {
      PairCut(fs[0]);
      EscapeRoundTrip(fs[0].key);
      EscapeRoundTrip(fs[0].value);
      PairsRoundTrip(fs[1..]);
      assert Pairs(fs)[1..] == Pairs(fs[1..]) && [fs[0]] + fs[1..] == fs;
    }
  }

  /** A query string says again what it was made from. */
  lemma QueryRoundTrip(fs: seq<Field>)
    requires fs != []
    ensures ParseQuery(Query(fs)) == Some(fs)
  {
    PairsRoundTrip(fs);
    SplitJoin(Pairs(fs), '&');
  }

  // ---------------------------------------------------------------- which queries are read

  predicate IsHex(c: Byte) {
    '0' <= c <= '9' || 'a' <= c <= 'f' || 'A' <= c <= 'F'
  }

  /** A percent sign at i is followed by two hexadecimal digits. */
  predicate WholeAt(t: Bytes, i: int) {
    0 <= i < |t| && t[i] == '%' ==> i + 2 < |t| && IsHex(t[i + 1]) && IsHex(t[i + 2])
  }

  predicate EscapesAreWhole(t: Bytes) {
    forall i :: 0 <= i < |t| ==> WholeAt(t, i)
  }

  lemma WholeTail(t: Bytes, n: nat)
    requires n <= |t| && forall i :: 0 <= i < n ==> WholeAt(t, i)
    ensures EscapesAreWhole(t) <==> EscapesAreWhole(t[n..])
  {
    var u := t[n..];
    forall i | n <= i < |t| ensures WholeAt(t, i) <==> WholeAt(u, i - n) {
      assert forall j :: 0 <= j < |u| ==> u[j] == t[n + j];
    }
    if EscapesAreWhole(t) {
      forall j | 0 <= j < |u| ensures WholeAt(u, j) {
        assert WholeAt(t, n + j);
      }
    }
  }

  lemma {:induction false} UnescapesIff(t: Bytes)
    ensures Unescape(t).Some? <==> EscapesAreWhole(t)
  {
    if t != [] {
      if t[0] != '%' {
        UnescapesIff(t[1..]);
        WholeTail(t, 1);
      } else if |t| >= 3 && IsHex(t[1]) && IsHex(t[2]) {
        UnescapesIff(t[3..]);
        WholeTail(t, 3);
      } else {
        assert !WholeAt(t, 0);
      }
    }
  }

  /** What unescaping does to the head of a text. */
  lemma UnescapeHead(c: Byte, h: Byte, l: Byte, rest: Bytes)
    requires Unescape(rest).Some?
    ensures c != '%' && c != '+' ==> Unescape([c] + rest) == Some([c] + Unescape(rest).value)
    ensures Unescape("+" + rest) == Some(" " + Unescape(rest).value)
    ensures IsHex(h) && IsHex(l) ==> Unescape(['%', h, l] + rest) == Some([(Unhex(h) * 16 + Unhex(l)) as char] + Unescape(rest).value)
  {
    assert ([c] + rest)[1..] == rest && ("+" + rest)[1..] == rest && (['%', h, l] + rest)[3..] == rest;
  }

  /** A character that is neither part of an escape keeps two texts apart. */
  lemma WholeApart(a: Bytes, c: Byte, b: Bytes)
    requires !IsHex(c) && c != '%'
    ensures EscapesAreWhole(a + [c] + b) <==> EscapesAreWhole(a) && EscapesAreWhole(b)
  {
    var t := a + [c] + b;
    assert t[|a| + 1..] == b && t[|a|] == c && forall i :: 0 <= i < |a| ==> t[i] == a[i];
    forall i | 0 <= i < |a| ensures WholeAt(t, i) <==> WholeAt(a, i) {}
    if EscapesAreWhole(a) {
      WholeTail(t, |a| + 1);
    }
  }

  lemma {:induction false} CutShape(s: Bytes, c: Byte)
    ensures c in s ==> s == Cut(s, c).0 + [c] + Cut(s, c).1
    ensures c !in s ==> Cut(s, c) == (s, [])
    ensures c !in Cut(s, c).0
  {
    if s != [] && s[0] != c {
      CutShape(s[1..], c);
      assert s == [s[0]] + s[1..];
    }
  }

  /** The first piece, and what is split further. */
  lemma {:induction false} SplitShape(s: Bytes, sep: Byte) returns (rest: Bytes)
    ensures sep !in s ==> Split(s, sep) == [s]
    ensures sep in s ==> |rest| < |s| && s == Split(s, sep)[0] + [sep] + rest && Split(s, sep)[1..] == Split(rest, sep)
  {
    rest := [];
    if s != [] {
      if s[0] == sep {
        rest := s[1..];
      } else {
        rest := SplitShape(s[1..], sep);
        assert s == [s[0]] + s[1..];
      }
    }
  }

  lemma PieceIff(piece: Bytes)
    ensures Unescape(Cut(piece, '=').0).Some? && Unescape(Cut(piece, '=').1).Some? <==> EscapesAreWhole(piece)
  {
    var (k, v) := Cut(piece, '=');
    CutShape(piece, '=');
    UnescapesIff(k);
    UnescapesIff(v);
    if '=' in piece {
      WholeApart(k, '=', v);
    }
  }

  lemma {:induction false} FieldsIff(q: Bytes)
    ensures FieldsOf(Split(q, '&')).Some? <==> ';' !in q && EscapesAreWhole(q)
    decreases |q|
  {
    var pieces := Split(q, '&');
    var rest := SplitShape(q, '&');
    PieceIff(pieces[0]);
    if '&' in q {
      FieldsIff(rest);
      WholeApart(pieces[0], '&', rest);
      assert ';' in q <==> ';' in pieces[0] || ';' in rest;
    }
  }

  /** A query is read exactly if it has no semicolon and its escapes are whole. */
  lemma QueryIsReadIff(q: Bytes)
    ensures ParseQuery(q).Some? <==> ';' !in q && EscapesAreWhole(q)
  {
    FieldsIff(q);
  }

  // ---------------------------------------------------------------- decimal numbers

  const MAX_INT64 := 0x7fff_ffff_ffff_ffff

  type Int64 = x: int | -MAX_INT64 - 1 <= x <= MAX_INT64

  predicate IsDigit(c: Byte) {
    '0' <= c <= '9'
  }

  function FormatNat(x: nat): (r: Bytes)
    ensures r != [] && forall i :: 0 <= i < |r| ==> IsDigit(r[i])
  {
    (if x < 10 then [] else FormatNat(x / 10)) + [(x % 10) as char + '0']
  }

  function FormatInt(x: int): (r: Bytes)
    ensures r != [] && '\n' !in r
  {
    if x < 0 then "-" + FormatNat(0 - x) else FormatNat(x)
  }

  function ParseNat(s: Bytes): Option<nat> {
    if s == [] then Some(0)
    else
      var n := |s| - 1;
      match ParseNat(s[..n])
      case Some(x) => if IsDigit(s[n]) then Some(x * 10 + (s[n] as int - '0' as int)) else None
      case None => None
  }

  /** A sign, digits, and a value that fits. */
  function ParseInt(s: Bytes): Option<Int64> {
    if s == [] then None
    else
      var digits := if s[0] == '-' || s[0] == '+' then s[1..] else s;
      match ParseNat(digits)
      case None => None
      case Some(n) =>
        var x: int := if s[0] == '-' then 0 - n else n;
        if digits != [] && -MAX_INT64 - 1 <= x <= MAX_INT64 then Some(x) else None
  }

  lemma {:induction false} NatRoundTrip(x: nat)
    ensures ParseNat(FormatNat(x)) == Some(x)
  {
    var s := FormatNat(x);
    var n := |s| - 1;
    if x >= 10 {
      NatRoundTrip(x / 10);
      assert s[..n] == FormatNat(x / 10);
    } else {
      assert s[..n] == [];
    }
  }

  lemma SignedDigits(d: Bytes, n: nat, x: int)
    requires d != [] && IsDigit(d[0]) && ParseNat(d) == Some(n) && n <= MAX_INT64 && (x == n || x == 0 - n)
    ensures ParseInt(if x < 0 then "-" + d else d) == Some(x)
  {
    assert ("-" + d)[1..] == d;
  }

  lemma IntRoundTrip(x: Int64)
    ensures ParseInt(FormatInt(x)) == Some(x)
  {
    var y: int := x;
    var n: nat := if y < 0 then 0 - y else y;
    NatRoundTrip(n);
    if n <= MAX_INT64 {
      SignedDigits(FormatNat(n), n, y);
    } else {
      Lowest(FormatNat(n), n);
    }
  }

  lemma Lowest(d: Bytes, n: nat)
    requires d != [] && ParseNat(d) == Some(n) && n == MAX_INT64 + 1
    ensures ParseInt("-" + d) == Some(-MAX_INT64 - 1)
  {
    assert ("-" + d)[1..] == d;
  }

  // ---------------------------------------------------------------- which numbers are read

  function Zeros(z: nat): (r: Bytes)
    ensures |r| == z && forall i :: 0 <= i < z ==> r[i] == '0'
  {
    if z == 0 then [] else Zeros(z - 1) + "0"
  }

  lemma {:induction false} ZerosAreNothing(z: nat)
    ensures ParseNat(Zeros(z)) == Some(0)
  {
    if z > 0 {
      ZerosAreNothing(z - 1);
      assert Zeros(z)[..z - 1] == Zeros(z - 1);
    }
  }

  lemma {:induction false} LeadingZeros(z: nat, d: Bytes)
    ensures ParseNat(Zeros(z) + d) == ParseNat(d)
    decreases |d|
  {
    if d == [] {
      ZerosAreNothing(z);
      assert Zeros(z) + d == Zeros(z);
    } else {
      var n := |d| - 1;
      LeadingZeros(z, d[..n]);
      assert (Zeros(z) + d)[..z + n] == Zeros(z) + d[..n];
    }
  }

  /** A number is its digits, behind any zeros. */
  lemma {:induction false} DigitsOfNat(s: Bytes, n: nat) returns (z: nat)
    requires s != [] && ParseNat(s) == Some(n)
    ensures s == Zeros(z) + FormatNat(n)
    decreases |s|
  {
    var k := |s| - 1;
    var c := s[k];
    assert s == s[..k] + [c];
    if k == 0 {
      z := 0;
      assert ParseNat(s[..0]) == Some(0);
    } else {
      var m := ParseNat(s[..k]).value;
      z := DigitsOfNat(s[..k], m);
      if m == 0 {
        z := z + 1;
        assert FormatNat(0) == "0" && FormatNat(n) == [c];
      } else {
        assert n / 10 == m && FormatNat(n) == FormatNat(m) + [c];
      }
    }
  }

  /** The sign of x, or a plus that may be left out. */
  predicate SignOf(sign: Bytes, x: int) {
    (sign == "-" && x <= 0) || ((sign == "+" || sign == "") && x >= 0)
  }

  /** s is how x may be written. */
  predicate Writes(s: Bytes, x: int, sign: Bytes, z: nat) {
    SignOf(sign, x) && s == sign + (Zeros(z) + FormatNat(if x < 0 then 0 - x else x))
  }

  /** A text is read as x exactly if it is x in decimal, with any zeros in front, behind
      its sign. */
  lemma IntIsReadIff(s: Bytes, x: Int64)
    ensures ParseInt(s) == Some(x) <==> exists sign, z :: Writes(s, x, sign, z)
  {
    var y: int := x;
    var n: nat := if y < 0 then 0 - y else y;
    if ParseInt(s) == Some(x) {
      IntIsWritten(s, y, n);
    }
    forall sign, z | Writes(s, x, sign, z) ensures ParseInt(s) == Some(x) {
      NatRoundTrip(n);
      LeadingZeros(z, FormatNat(n));
      WrittenIsRead(sign, Zeros(z) + FormatNat(n), n, y);
    }
  }

  lemma IntIsWritten(s: Bytes, y: int, n: nat)
    requires -MAX_INT64 - 1 <= y <= MAX_INT64 && ParseInt(s) == Some(y) && n == if y < 0 then 0 - y else y
    ensures exists sign, z :: Writes(s, y, sign, z)
  {
    var sign: Bytes := if s[0] == '-' || s[0] == '+' then [s[0]] else [];
    var d := s[|sign|..];
    assert s == sign + d;
    var z := DigitsOfNat(d, n);
    assert Writes(s, y, sign, z);
  }

  lemma WrittenIsRead(sign: Bytes, d: Bytes, n: nat, y: int)
    requires -MAX_INT64 - 1 <= y <= MAX_INT64 && SignOf(sign, y) && n == if y < 0 then 0 - y else y
    requires d != [] && IsDigit(d[0]) && ParseNat(d) == Some(n)
    ensures ParseInt(sign + d) == Some(y)
  {
    assert (sign + d)[|sign|..] == d;
    assert sign == [] ==> sign + d == d;
  }
}
