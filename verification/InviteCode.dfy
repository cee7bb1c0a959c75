/** `internal/invite/code.go`: five random bytes as eight characters, and what people type. */
module InviteCodes {
  import opened ByteStrings
  import opened Bases

  const CODE_LENGTH := 8
  const ALPHABET: Bytes := "0123456789ABCDEFGHJKMNPQRSTVWXYZ"

  datatype Error = BadLength | HasU | NotInAlphabet

  datatype Result = Ok(code: Bytes) | Err(error: Error)

  /** Crockford's base 32: no I, L, O or U. */
  predicate InAlphabet(c: Byte) {
    '0' <= c <= '9' || ('A' <= c <= 'Z' && c != 'I' && c != 'L' && c != 'O' && c != 'U')
  }

  predicate AllIn(c: Bytes) {
    forall i {:trigger InAlphabet(c[i])} :: 0 <= i < |c| ==> InAlphabet(c[i])
  }

  predicate Canonical(c: Bytes) {
    |c| == CODE_LENGTH && AllIn(c)
  }

  // ---------------------------------------------------------------- packing

  function IndexOf(c: Byte): (d: nat)
    requires InAlphabet(c)
    ensures d < 32
  {
    if c <= '9' then c as int - '0' as int
    else if c <= 'H' then c as int - 'A' as int + 10
    else if c <= 'K' then c as int - 'J' as int + 18
    else if c <= 'N' then c as int - 'M' as int + 20
    else if c <= 'T' then c as int - 'P' as int + 22
    else c as int - 'V' as int + 27
  }

  /** The table and its inverse. */
  lemma AlphabetIsIndexed()
    ensures |ALPHABET| == 32
    ensures forall d :: 0 <= d < 32 ==> InAlphabet(ALPHABET[d]) && IndexOf(ALPHABET[d]) == d
  {
  }

  lemma IndexIsUnique(c: Byte, c': Byte)
    requires InAlphabet(c) && InAlphabet(c') && IndexOf(c) == IndexOf(c')
    ensures c == c'
  {
  }

  function Chars(ds: seq<nat>): (c: Bytes)
    requires forall i :: 0 <= i < |ds| ==> ds[i] < 32
    ensures |c| == |ds| && forall i :: 0 <= i < |ds| ==> c[i] == ALPHABET[ds[i]]
  {
    if ds == [] then [] else Chars(ds[..|ds| - 1]) + [ALPHABET[ds[|ds| - 1]]]
  }

  function Indices(c: Bytes): (ds: seq<nat>)
    requires AllIn(c)
    ensures |ds| == |c| && forall i :: 0 <= i < |c| ==> ds[i] == IndexOf(c[i])
  {
    if c == [] then [] else Indices(c[..|c| - 1]) + [IndexOf(c[|c| - 1])]
  }

  predicate FiveBytes(b: seq<nat>) {
    |b| == 5 && forall i :: 0 <= i < 5 ==> b[i] < 256
  }

  /** Forty bits, as five bytes or as eight characters. */
  function Encode(b: seq<nat>): Bytes
    requires FiveBytes(b)
  {
    Chars(Digits(32, CODE_LENGTH, Value(256, b)))
  }

  function Decode(c: Bytes): seq<nat>
    requires Canonical(c)
  {
    Digits(256, 5, Value(32, Indices(c)))
  }

  lemma FortyBits()
    ensures Power(256, 5) == Power(32, 8) == 0x100_0000_0000
  {
    assert Power(256, 1) == 256 && Power(256, 2) == 0x1_0000 && Power(256, 3) == 0x100_0000 && Power(256, 4) == 0x1_0000_0000;
    PowersOf32();
  }

  lemma TableAt(d: nat)
    requires d < 32
    ensures InAlphabet(ALPHABET[d]) && IndexOf(ALPHABET[d]) == d
  {
    AlphabetIsIndexed();
  }

  lemma CharsIndices(ds: seq<nat>)
    requires forall i :: 0 <= i < |ds| ==> ds[i] < 32
    ensures AllIn(Chars(ds))
    ensures Indices(Chars(ds)) == ds
  {
    var c := Chars(ds);
    forall i | 0 <= i < |ds| ensures InAlphabet(c[i]) && IndexOf(c[i]) == ds[i] {
      TableAt(ds[i]);
      assert c[i] == ALPHABET[ds[i]];
    }
  }

  lemma CharOfIndex(c: Byte)
    requires InAlphabet(c)
    ensures ALPHABET[IndexOf(c)] == c
  {
    AlphabetIsIndexed();
    IndexIsUnique(ALPHABET[IndexOf(c)], c);
  }

  lemma IndicesChars(c: Bytes, ds: seq<nat>)
    requires AllIn(c)
    requires ds == Indices(c)
    ensures Chars(ds) == c
  {
    var r := Chars(ds);
    forall i | 0 <= i < |c| ensures r[i] == c[i] {
      CharOfIndex(c[i]);
      assert r[i] == ALPHABET[ds[i]];
    }
  }

  /** Every five bytes have their own canonical code and every canonical code its five
      bytes, so uniform bytes make uniform codes. */
  lemma CodeBijection()
    ensures forall b :: FiveBytes(b) ==> Canonical(Encode(b)) && Decode(Encode(b)) == b
    ensures forall c :: Canonical(c) ==> FiveBytes(Decode(c)) && Encode(Decode(c)) == c
  {
    forall b | FiveBytes(b) ensures Canonical(Encode(b)) && Decode(Encode(b)) == b {
      EncodeDecode(b);
    }
    forall c | Canonical(c) ensures FiveBytes(Decode(c)) && Encode(Decode(c)) == c {
      DecodeEncode(c);
    }
  }

  lemma EncodeDecode(b: seq<nat>)
    requires FiveBytes(b)
    ensures Canonical(Encode(b)) && Decode(Encode(b)) == b
  {
    FortyBits();
    DigitsValue(256, b);
    var x := Value(256, b);
    CharsIndices(Digits(32, CODE_LENGTH, x));
    ValueDigits(32, CODE_LENGTH, x);
  }

  lemma DecodeEncode(c: Bytes)
    requires Canonical(c)
    ensures FiveBytes(Decode(c)) && Encode(Decode(c)) == c
  {
    FortyBits();
    var ds := Indices(c);
    DigitsValue(32, ds);
    ValueDigits(256, 5, Value(32, ds));
    IndicesChars(c, ds);
  }

  /** b holds the random bytes; shifting left and right is scaling by powers of two, and
      masking with 0x1F is the remainder by 32. */
  method Generate(b: seq<nat>) returns (code: Bytes)
    requires FiveBytes(b)
    ensures code == Encode(b)
  {
    var bits := b[0] * 0x1_0000_0000 + b[1] * 0x100_0000 + b[2] * 0x1_0000 + b[3] * 0x100 + b[4];
    BitsAreValue(b, bits);
    ghost var ds := Digits(32, CODE_LENGTH, bits);
    code := [];
    var i := 0;
    while i < CODE_LENGTH
      invariant 0 <= i <= CODE_LENGTH && |code| == i
      invariant forall k :: 0 <= k < i ==> code[k] == ALPHABET[ds[k]]
    {
      DigitAt(32, CODE_LENGTH, bits, i);
      var idx := (bits / Power(32, CODE_LENGTH - 1 - i)) % 32;
      code := code + [ALPHABET[idx]];
      i := i + 1;
    }
  }

  lemma BitsAreValue(b: seq<nat>, bits: nat)
    requires FiveBytes(b)
    requires bits == b[0] * 0x1_0000_0000 + b[1] * 0x100_0000 + b[2] * 0x1_0000 + b[3] * 0x100 + b[4]
    ensures bits == Value(256, b)
  {
    assert Value(256, b[..1]) == b[0] by { assert b[..1][..0] == []; }
    assert Value(256, b[..2]) == b[0] * 0x100 + b[1] by { assert b[..2][..1] == b[..1]; }
    assert Value(256, b[..3]) == b[0] * 0x1_0000 + b[1] * 0x100 + b[2] by { assert b[..3][..2] == b[..2]; }
    assert Value(256, b[..4]) == b[0] * 0x100_0000 + b[1] * 0x1_0000 + b[2] * 0x100 + b[3] by { assert b[..4][..3] == b[..3]; }
  }

  /** What the character i of a code counts. */
  function Unit(i: nat): nat {
    if i == 0 then 0x8_0000_0000 else if i == 1 then 0x4000_0000 else if i == 2 then 0x200_0000 else if i == 3 then 0x10_0000
    else if i == 4 then 0x8000 else if i == 5 then 0x400 else if i == 6 then 0x20 else 1
  }

  lemma UnitIsPower(i: nat)
    requires i < 8
    ensures Unit(i) == Power(32, 7 - i) > 0
  {
    PowersOf32();
  }

  /** Five bits at a time, the most significant first, through Crockford's table. */
  lemma CodeBits(b: seq<nat>, bits: nat, i: nat)
    requires FiveBytes(b) && i < 8
    requires bits == b[0] * 0x1_0000_0000 + b[1] * 0x100_0000 + b[2] * 0x1_0000 + b[3] * 0x100 + b[4]
    ensures |Encode(b)| == 8 && InAlphabet(Encode(b)[i]) && Unit(i) > 0 && IndexOf(Encode(b)[i]) == bits / Unit(i) % 32
  {
    BitsAreValue(b, bits);
    DigitAt(32, CODE_LENGTH, bits, i);
    UnitIsPower(i);
    TableAt(Digits(32, CODE_LENGTH, bits)[i]);
  }

  lemma PowersOf32()
    ensures Power(32, 0) == 1 && Power(32, 1) == 0x20 && Power(32, 2) == 0x400 && Power(32, 3) == 0x8000
    ensures Power(32, 4) == 0x10_0000 && Power(32, 5) == 0x200_0000 && Power(32, 6) == 0x4000_0000 && Power(32, 7) == 0x8_0000_0000
  {
    assert Power(32, 1) == 32 && Power(32, 2) == 0x400 && Power(32, 3) == 0x8000 && Power(32, 4) == 0x10_0000;
    assert Power(32, 5) == 0x200_0000 && Power(32, 6) == 0x4000_0000;
  }

  // ---------------------------------------------------------------- what people type

  function Upper(c: Byte): Byte {
    if 'a' <= c <= 'z' then c - 32 as char else c
  }

  function UpperAll(s: Bytes): (r: Bytes)
    ensures |r| == |s| && forall i :: 0 <= i < |s| ==> r[i] == Upper(s[i])
  {
    if s == [] then [] else [Upper(s[0])] + UpperAll(s[1..])
  }

  predicate Space(c: Byte) {
    9 <= c as int <= 13 || c == ' '
  }

  predicate AllSpace(s: Bytes) {
    forall i :: 0 <= i < |s| ==> Space(s[i])
  }

  function Trim(s: Bytes): Bytes
    decreases |s|
  {
    if s == [] then []
    else if Space(s[0]) then Trim(s[1..])
    else if Space(s[|s| - 1]) then Trim(s[..|s| - 1])
    else s
  }

  predicate Ascii(s: Bytes) {
    forall i :: 0 <= i < |s| ==> s[i] as int < 128
  }

  /** strings.ToUpper after strings.TrimSpace, on ASCII. */
  function Fold(s: Bytes): Bytes {
    UpperAll(Trim(s))
  }

  /** What the library makes of s: fixed on ASCII, anything beyond it. */
  predicate Folds(s: Bytes, folded: Bytes) {
    Ascii(s) ==> folded == Fold(s)
  }

  const PREFIX: Bytes := "OPEN-"

  predicate HasPrefix(s: Bytes, p: Bytes) {
    |p| <= |s| && s[..|p|] == p
  }

  function TrimPrefix(s: Bytes): Bytes {
    if HasPrefix(s, PREFIX) then s[|PREFIX|..] else s
  }

  function NoDashes(s: Bytes): (r: Bytes)
    ensures forall i :: 0 <= i < |r| ==> r[i] != '-'
  {
    if s == [] then [] else if s[0] == '-' then NoDashes(s[1..]) else [s[0]] + NoDashes(s[1..])
  }

  /** The characters that are easily taken for 0 and 1. */
  function Alias(c: Byte): Byte {
    if c == 'O' then '0' else if c == 'I' || c == 'L' then '1' else c
  }

  /** The first character that does not fit decides on the error. */
  function Fix(s: Bytes): (r: Result)
    ensures r.Ok? ==> |r.code| == |s| && forall i :: 0 <= i < |s| ==> r.code[i] == Alias(s[i]) && InAlphabet(r.code[i])
    ensures r.Ok? <==> forall i :: 0 <= i < |s| ==> InAlphabet(Alias(s[i]))
  {
    if s == [] then Ok([])
    else if s[0] == 'U' then Err(HasU)
    else if !InAlphabet(Alias(s[0])) then Err(NotInAlphabet)
    else match Fix(s[1..])
      case Ok(c) => Ok([Alias(s[0])] + c)
      case Err(e) => Err(e)
  }

  /** What is read from folded input.  Bytes stand for runes here: a byte beyond ASCII
      starts a rune that is not in the alphabet either. */
  function Judged(folded: Bytes): (r: Result)
    ensures r.Ok? ==> Canonical(r.code)
  {
    var s := NoDashes(TrimPrefix(folded));
    if |s| != CODE_LENGTH then Err(BadLength) else Fix(s)
  }

  function Read(s: Bytes): Result {
    Judged(Fold(s))
  }

  predicate Fits(c: Byte) {
    c != 'U' && InAlphabet(Alias(c))
  }

  lemma {:induction false} FirstMisfit(s: Bytes, i: nat)
    requires i < |s| && !Fits(s[i]) && forall k :: 0 <= k < i ==> Fits(s[k])
    ensures Fix(s) == Err(if s[i] == 'U' then HasU else NotInAlphabet)
  {
    if i > 0 {
      assert Fits(s[0]);
      FirstMisfit(s[1..], i - 1);
    }
  }

  lemma AllFit(s: Bytes, out: Bytes)
    requires |out| == |s| && forall k :: 0 <= k < |s| ==> Fits(s[k]) && out[k] == Alias(s[k])
    ensures Fix(s) == Ok(out)
  {
    assert Fix(s).Ok? && Fix(s).code == out;
  }

  /** The character loop. */
  method FixAll(s: Bytes) returns (r: Result)
    ensures r == Fix(s)
  {
    var out: Bytes := [];
    var i := 0;
    while i < |s|
      invariant 0 <= i <= |s| && |out| == i
      invariant forall k :: 0 <= k < i ==> Fits(s[k])
      invariant forall k :: 0 <= k < i ==> out[k] == Alias(s[k])
    {
      if !Fits(s[i]) {
        FirstMisfit(s, i);
        return Err(if s[i] == 'U' then HasU else NotInAlphabet);
      }
      out := out + [Alias(s[i])];
      i := i + 1;
    }
    AllFit(s, out);
    return Ok(out);
  }

  method Parse(input: Bytes, folded: Bytes) returns (r: Result)
    requires Folds(input, folded)
    ensures r == Judged(folded)
    ensures Ascii(input) ==> r == Read(input)
    ensures r.Ok? ==> Canonical(r.code)
  {
    var s := NoDashes(TrimPrefix(folded));
    if |s| != CODE_LENGTH {
      return Err(BadLength);
    }
    r := FixAll(s);
  }

  function Pretty(c: Bytes): Bytes {
    if |c| != CODE_LENGTH then c else PREFIX + (c[..4] + "-" + c[4..])
  }

  /** The form that is shown to people. */
  lemma PrettyShape(c: Bytes)
    requires |c| == 8
    ensures Pretty(c) == ['O', 'P', 'E', 'N', '-', c[0], c[1], c[2], c[3], '-', c[4], c[5], c[6], c[7]]
  {
  }

  // ---------------------------------------------------------------- what is accepted

  /** ch, typed for the character k of a code: in either case, or one easily confused. */
  predicate Types(ch: Byte, k: Byte) {
    || ch == k || (k >= 'A' && ch as int == k as int + 32)
    || (k == '0' && (ch == 'o' || ch == 'O')) || (k == '1' && (ch == 'i' || ch == 'I' || ch == 'l' || ch == 'L'))
  }

  /** t is c, typed with dashes anywhere. */
  predicate Presents(t: Bytes, c: Bytes) {
    if t == [] then c == []
    else if t[0] == '-' then Presents(t[1..], c)
    else c != [] && Types(t[0], c[0]) && Presents(t[1..], c[1..])
  }

  lemma TypesIff(ch: Byte, k: Byte)
    requires ch != '-'
    ensures Upper(ch) != '-'
    ensures InAlphabet(k) && Types(ch, k) ==> Alias(Upper(ch)) == k && Upper(ch) != 'U' && ch as int < 128 && !Space(ch)
    ensures Upper(ch) != 'U' && Alias(Upper(ch)) == k ==> Types(ch, k)
  {
  }

  /** The loop finds c exactly if the text presents it. */
  lemma {:induction false} PresentsIff(t: Bytes, c: Bytes)
    ensures AllIn(c) && Presents(t, c) <==> Fix(NoDashes(UpperAll(t))) == Ok(c)
    ensures AllIn(c) && Presents(t, c) ==> |NoDashes(UpperAll(t))| == |c|
  {
    if t != [] {
      var u := UpperAll(t);
      assert u[0] == Upper(t[0]) && u[1..] == UpperAll(t[1..]);
      if t[0] == '-' {
        PresentsIff(t[1..], c);
      } else {
        TypesIff(t[0], if c == [] then '0' else c[0]);
        FixHead(u[0], NoDashes(u[1..]), c);
        if c != [] {
          PresentsIff(t[1..], c[1..]);
          assert AllIn(c) <==> InAlphabet(c[0]) && AllIn(c[1..]);
        }
      }
    }
  }

  lemma FixHead(x: Byte, rest: Bytes, c: Bytes)
    ensures Fix([x] + rest) == Ok(c) <==>
            c != [] && x != 'U' && InAlphabet(Alias(x)) && c[0] == Alias(x) && Fix(rest) == Ok(c[1..])
  {
    assert ([x] + rest)[1..] == rest;
    if Fix(rest).Ok? {
      assert c != [] && c[0] == Alias(x) && Fix(rest) == Ok(c[1..]) ==> c == [Alias(x)] + Fix(rest).code;
    }
  }

  /** Neither spaces nor other scripts. */
  predicate Plain(t: Bytes) {
    forall i :: 0 <= i < |t| ==> t[i] as int < 128 && !Space(t[i])
  }

  /** A text that presents a code has no spaces and no other scripts in it. */
  lemma {:induction false} PresentsPlain(t: Bytes, c: Bytes)
    requires Presents(t, c) && AllIn(c)
    ensures Plain(t)
  {
    if t != [] {
      if t[0] == '-' {
        PresentsPlain(t[1..], c);
      } else {
        TypesIff(t[0], c[0]);
        PresentsPlain(t[1..], c[1..]);
      }
      assert t == [t[0]] + t[1..];
    }
  }

  lemma {:induction false} TrimAround(pre: Bytes, t: Bytes, post: Bytes)
    requires AllSpace(pre) && AllSpace(post) && Plain(t)
    ensures Trim(pre + t + post) == t
    decreases |pre| + |post|
  {
    var s := pre + t + post;
    if pre != [] {
      assert s[1..] == pre[1..] + t + post;
      TrimAround(pre[1..], t, post);
    } else if post != [] {
      if t == [] {
        assert s[1..] == pre + t + post[1..];
        TrimAround(pre, t, post[1..]);
      } else {
        assert s[..|s| - 1] == pre + t + post[..|post| - 1];
        TrimAround(pre, t, post[..|post| - 1]);
      }
    } else {
      assert s == t;
    }
  }

  lemma {:induction false} NoDashesConcat(a: Bytes, b: Bytes)
    ensures NoDashes(a + b) == NoDashes(a) + NoDashes(b)
  {
    if a == [] {
      assert a + b == b;
    } else {
      assert (a + b)[1..] == a[1..] + b;
      NoDashesConcat(a[1..], b);
    }
  }

  lemma {:induction false} UpperConcat(a: Bytes, b: Bytes)
    ensures UpperAll(a + b) == UpperAll(a) + UpperAll(b)
  {
  }

  /** Exactly what ASCII text is accepted, and as which code. */
  lemma ParseIff(s: Bytes, c: Bytes)
    requires Ascii(s)
    ensures Read(s) == Ok(c) <==> Canonical(c) && Presents(TrimPrefix(Fold(s)), c)
  {
    var t := TrimPrefix(Fold(s));
    UpperTwice(Trim(s));
    assert UpperAll(t) == t by {
      assert forall i :: 0 <= i < |t| ==> Upper(t[i]) == t[i];
    }
    PresentsIff(t, c);
    assert Canonical(c) <==> |c| == CODE_LENGTH && AllIn(c);
  }

  lemma UpperTwice(s: Bytes)
    ensures forall i :: 0 <= i < |s| ==> Upper(UpperAll(s)[i]) == UpperAll(s)[i]
  {
  }

  lemma ParsedAround(pre: Bytes, t: Bytes, post: Bytes)
    requires AllSpace(pre) && AllSpace(post) && Plain(t)
    ensures Read(pre + t + post) == Judged(UpperAll(t))
  {
    TrimAround(pre, t, post);
    assert Ascii(pre + t + post);
  }

  /** Case, aliases, dashes and surrounding spaces do not matter, unless what is typed
      starts like the prefix: then it loses four characters. */
  lemma Presentation(pre: Bytes, t: Bytes, post: Bytes, c: Bytes)
    requires Canonical(c) && Presents(t, c)
    requires forall i :: 0 <= i < |pre| ==> pre[i] == ' ' || 9 <= pre[i] as int <= 13
    requires forall i :: 0 <= i < |post| ==> post[i] == ' ' || 9 <= post[i] as int <= 13
    ensures Read(pre + t + post) == if HasPrefix(UpperAll(t), PREFIX) then Err(BadLength) else Ok(c)
  {
    assert AllIn(c) && |c| == CODE_LENGTH;
    PresentsPlain(t, c);
    ParsedAround(pre, t, post);
    PresentsIff(t, c);
    PrefixCosts(UpperAll(t));
  }

  lemma PresentsFirst(ch: Byte, k: Byte, t: Bytes, c: Bytes)
    requires ch != '-'
    ensures Presents([ch] + t, [k] + c) <==> Types(ch, k) && Presents(t, c)
  {
    assert ([ch] + t)[1..] == t && ([k] + c)[1..] == c;
  }

  /** What is typed as OPEN- is read as 0PEN or as nothing. */
  lemma PresentsPrefix(t: Bytes, c: Bytes)
    requires |c| >= 4
    ensures Presents(PREFIX + t, "0PEN" + c[4..]) <==> Presents(t, c[4..])
  {
    var e := c[4..];
    PresentsFirst('N', 'N', "-" + t, e);
    PresentsFirst('E', 'E', ['N'] + ("-" + t), ['N'] + e);
    PresentsFirst('P', 'P', ['E'] + (['N'] + ("-" + t)), ['E'] + (['N'] + e));
    PresentsFirst('O', '0', ['P'] + (['E'] + (['N'] + ("-" + t))), ['P'] + (['E'] + (['N'] + e)));
    assert ("-" + t)[1..] == t;
    PrefixLetters("-" + t, e);
    assert PREFIX + t == "OPEN" + ("-" + t);
  }

  lemma PrefixLetters(t: Bytes, e: Bytes)
    ensures "OPEN" + t == ['O'] + (['P'] + (['E'] + (['N'] + t)))
    ensures "0PEN" + e == ['0'] + (['P'] + (['E'] + (['N'] + e)))
  {
  }

  /** A code that starts with 0PEN, typed with an O and a dash. */
  function Ambiguous(c: Bytes): Bytes
    requires |c| >= 4
  {
    PREFIX + c[4..]
  }

  /** t presents c, but is not read as c. */
  predicate Misread(t: Bytes, c: Bytes) {
    Presents(t, c) && Read(t) == Err(BadLength)
  }

  lemma PresentsAlone(t: Bytes, c: Bytes)
    requires Canonical(c) && Presents(t, c)
    ensures Read(t) == if HasPrefix(UpperAll(t), PREFIX) then Err(BadLength) else Ok(c)
  {
    Presentation([], t, [], c);
    assert [] + t + [] == t;
  }

  lemma AmbiguousPresents(c: Bytes)
    requires Canonical(c) && c[..4] == "0PEN"
    ensures Presents(Ambiguous(c), c)
  {
    SplitIn(c);
    PresentsItself(c[4..]);
    PresentsPrefix(c[4..], c);
  }

  lemma AmbiguousHasPrefix(e: Bytes)
    ensures HasPrefix(UpperAll(PREFIX + e), PREFIX)
  {
    UpperConcat(PREFIX, e);
    PrefixIsUpper();
  }

  lemma PrefixIsUpper()
    ensures UpperAll(PREFIX) == PREFIX
  {
    var u := UpperAll(PREFIX);
    assert u[0] == 'O' && u[1] == 'P' && u[2] == 'E' && u[3] == 'N' && u[4] == '-';
  }

  lemma AmbiguousIsLost(c: Bytes)
    requires Canonical(c) && c[..4] == "0PEN"
    ensures Misread(Ambiguous(c), c)
  {
    AmbiguousPresents(c);
    AmbiguousHasPrefix(c[4..]);
    PresentsAlone(Ambiguous(c), c);
  }

  /** Exactly the codes that start with 0PEN can be typed so that they are not read. */
  lemma MisreadIff(c: Bytes)
    requires Canonical(c)
    ensures (exists t :: Misread(t, c)) <==> c[..4] == "0PEN"
    ensures forall t :: Presents(t, c) ==> Misread(t, c) || Read(t) == Ok(c)
  {
    if c[..4] == "0PEN" {
      AmbiguousIsLost(c);
    }
    forall t | Presents(t, c)
      ensures Misread(t, c) || Read(t) == Ok(c)
      ensures Misread(t, c) ==> c[..4] == "0PEN"
    {
      PresentsAlone(t, c);
      if HasPrefix(UpperAll(t), PREFIX) { StartsLike(t, c); }
    }
  }

  lemma StartsLike(t: Bytes, c: Bytes)
    requires Canonical(c) && Presents(t, c) && HasPrefix(UpperAll(t), PREFIX)
    ensures c[..4] == "0PEN"
  {
    TypedUpper(t, c, 'O', '0');
    TypedUpper(t[1..], c[1..], 'P', 'P');
    TypedUpper(t[2..], c[2..], 'E', 'E');
    TypedUpper(t[3..], c[3..], 'N', 'N');
  }

  /** What an upper-case letter stands for at the head of a code. */
  lemma TypedUpper(t: Bytes, c: Bytes, u: Byte, k: Byte)
    requires Presents(t, c) && AllIn(c) && t != [] && Upper(t[0]) == u && 'A' <= u <= 'Z' && Alias(u) == k
    ensures c != [] && c[0] == k && Presents(t[1..], c[1..]) && AllIn(c[1..])
  {
    TypesIff(t[0], c[0]);
  }

  lemma PrefixCosts(u: Bytes)
    requires |NoDashes(u)| == CODE_LENGTH
    ensures Judged(u) == if HasPrefix(u, PREFIX) then Err(BadLength) else Fix(NoDashes(u))
  {
    if HasPrefix(u, PREFIX) {
      assert u == PREFIX + u[5..];
      NoDashesConcat(PREFIX, u[5..]);
      FourOfPrefix();
    }
  }

  lemma FourOfPrefix()
    ensures |NoDashes(PREFIX)| == 4
  {
    assert PREFIX[1..] == "PEN-" && PREFIX[1..][1..] == "EN-" && PREFIX[1..][1..][1..] == "N-" && PREFIX[1..][1..][1..][1..] == "-";
  }

  /** Behind the prefix nothing is ambiguous. */
  lemma PrefixedPresentation(pre: Bytes, prefix: Bytes, t: Bytes, post: Bytes, c: Bytes)
    requires Canonical(c) && Presents(t, c) && AllSpace(pre) && AllSpace(post) && UpperAll(prefix) == PREFIX
    ensures Read(pre + (prefix + t) + post) == Ok(c)
  {
    assert AllIn(c) && |c| == CODE_LENGTH;
    PresentsPlain(t, c);
    PlainPrefix(prefix);
    ParsedAround(pre, prefix + t, post);
    UpperConcat(prefix, t);
    PresentsIff(t, c);
    assert TrimPrefix(PREFIX + UpperAll(t)) == UpperAll(t);
  }

  lemma PlainPrefix(prefix: Bytes)
    requires UpperAll(prefix) == PREFIX
    ensures Plain(prefix)
  {
    forall i | 0 <= i < |prefix| ensures prefix[i] as int < 128 && !Space(prefix[i]) {
      assert Upper(prefix[i]) == PREFIX[i];
    }
  }

  lemma {:induction false} PresentsItself(c: Bytes)
    requires AllIn(c)
    ensures Presents(c, c) && UpperAll(c) == c
  {
    if c != [] {
      assert InAlphabet(c[0]);
      PresentsItself(c[1..]);
    }
  }

  lemma {:induction false} PresentsDashed(a: Bytes, b: Bytes)
    requires AllIn(a) && AllIn(b)
    ensures Presents(a + "-" + b, a + b)
  {
    if a == [] {
      PresentsItself(b);
      assert (a + "-" + b)[1..] == b && a + b == b;
    } else {
      assert InAlphabet(a[0]);
      PresentsDashed(a[1..], b);
      assert (a + "-" + b)[1..] == a[1..] + "-" + b && (a + b)[1..] == a[1..] + b;
    }
  }

  /** Every code that Parse returns is canonical, and is read back from its plain and
      from its pretty form: for all inputs, in any script. */
  lemma ParseIsStable(folded: Bytes, r: Result)
    requires r == Judged(folded)
    ensures r.Ok? ==> Canonical(r.code) && Read(r.code) == r && Read(Pretty(r.code)) == r
  {
    if r.Ok? {
      PrettyRoundTrip(r.code);
    }
  }

  lemma PrettyRoundTrip(c: Bytes)
    requires Canonical(c)
    ensures Read(c) == Ok(c) && Read(Pretty(c)) == Ok(c)
  {
    PlainForm(c);
    PrettyForm(c);
  }

  /** A canonical code is ASCII, so the library's part is settled. */
  lemma CanonicalIsRead(c: Bytes, folded: Bytes)
    requires Canonical(c) && Folds(c, folded)
    ensures Judged(folded) == Ok(c)
  {
    PresentsItself(c);
    PresentsPlain(c, c);
    PlainForm(c);
  }

  lemma SplitPresents(c: Bytes)
    requires Canonical(c)
    ensures Presents(c[..4] + "-" + c[4..], c)
  {
    SplitIn(c);
    PresentsDashed(c[..4], c[4..]);
  }

  lemma SplitIn(c: Bytes)
    requires Canonical(c)
    ensures AllIn(c[..4]) && AllIn(c[4..]) && c[..4] + c[4..] == c
  {
  }

  lemma PlainForm(c: Bytes)
    requires Canonical(c)
    ensures Read(c) == Ok(c)
  {
    PresentsItself(c);
    PresentsAlone(c, c);
    assert InAlphabet(c[4]);
    DashAtFour(c);
  }

  lemma DashAtFour(s: Bytes)
    ensures HasPrefix(s, PREFIX) ==> s[4] == '-'
  {
    if HasPrefix(s, PREFIX) {
      assert s[4] == s[..5][4];
    }
  }

  lemma PrettyForm(c: Bytes)
    requires Canonical(c)
    ensures Read(Pretty(c)) == Ok(c)
  {
    SplitPresents(c);
    PrefixForm(c[..4] + "-" + c[4..], c);
  }

  lemma PrefixForm(t: Bytes, c: Bytes)
    requires Canonical(c) && Presents(t, c)
    ensures Read(PREFIX + t) == Ok(c)
  {
    UpperAllPrefix();
    PrefixedPresentation([], PREFIX, t, [], c);
    assert [] + (PREFIX + t) + [] == PREFIX + t;
  }

  lemma UpperAllPrefix()
    ensures UpperAll(PREFIX) == PREFIX
  {
  }
}
