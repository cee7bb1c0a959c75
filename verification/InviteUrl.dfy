/** `internal/invite/url.go`: an invite as a URL, and the bytes its signature covers. */
module InviteUrls {
  import opened ByteStrings
  import opened Encodings
  import C = InviteCodes

  const URL_PREFIX: Bytes := "opencom://join"
  const SIG_DOMAIN: Bytes := "opencom-invite-url-v1"

  datatype Payload = Payload(
    peerId: Bytes, publicKey: Bytes, addresses: seq<Bytes>, displayName: Bytes, code: Bytes, expiresAt: Int64,
    signature: Bytes)

  datatype Error =
    | NotOurs | NoQuery | BadQuery | NoPeer | NoAddresses | BadAddresses | BadCode(why: C.Error) | BadExpiry

  datatype Result = Ok(payload: Payload) | Err(error: Error)

  function EncodeAddresses(addrs: seq<Bytes>): Bytes {
    Encode64(Join(addrs, '\n'))
  }

  function DecodeAddresses(enc: Bytes): Option<seq<Bytes>> {
    match Decode64(enc)
    case Some(blob) => Some(if blob == [] then [] else Split(blob, '\n'))
    case None => None
  }

  /** The query's fields, as they are sorted by key. */
  function FieldsFor(p: Payload): seq<Field> {
    [Field("a", EncodeAddresses(p.addresses)), Field("c", p.code), Field("e", FormatInt(p.expiresAt)),
     Field("k", p.publicKey), Field("n", p.displayName), Field("p", p.peerId)]
    + (if p.signature != [] then [Field("s", p.signature)] else [])
  }

  function FormatURL(p: Payload): Bytes {
    URL_PREFIX + "?" + Query(FieldsFor(p))
  }

  function Lower(c: Byte): Byte {
    if 'A' <= c <= 'Z' then c + 32 as char else c
  }

  /** s starts with the prefix, in any case. */
  predicate HasScheme(s: Bytes) {
    |URL_PREFIX| <= |s| && forall i :: 0 <= i < |URL_PREFIX| ==> Lower(s[i]) == URL_PREFIX[i]
  }

  /** The first value for the key, or nothing. */
  function Get(fs: seq<Field>, key: Bytes): Bytes {
    if fs == [] then [] else if fs[0].key == key then fs[0].value else Get(fs[1..], key)
  }

  function Expiry(e: Bytes): Option<Int64> {
    if e == [] then Some(0) else ParseInt(e)
  }

  /** The checks on a query's fields, in order. */
  function Assemble(fs: seq<Field>, folded: Bytes): Result {
    var addrs := DecodeAddresses(Get(fs, "a"));
    var code := C.Judged(folded);
    var expiry := Expiry(Get(fs, "e"));
    if Get(fs, "p") == [] then Err(NoPeer)
    else if Get(fs, "a") == [] then Err(NoAddresses)
    else if addrs.None? then Err(BadAddresses)
    else if code.Err? then Err(BadCode(code.error))
    else if expiry.None? then Err(BadExpiry)
    else Ok(Payload(Get(fs, "p"), Get(fs, "k"), addrs.value, Get(fs, "n"), code.code, expiry.value, Get(fs, "s")))
  }

  function Parsed(s: Bytes, folded: Bytes): Result {
    if !HasScheme(s) then Err(NotOurs)
    else if '?' !in s then Err(NoQuery)
    else match ParseQuery(Cut(s, '?').1)
      case Some(fs) => Assemble(fs, folded)
      case None => Err(BadQuery)
  }

  /** folded is what the library makes of the code in the query. */
  predicate FoldsCode(s: Bytes, folded: Bytes) {
    var fs := ParseQuery(Cut(s, '?').1);
    fs.Some? ==> C.Folds(Get(fs.value, "c"), folded)
  }

  method ParseURL(s: Bytes, folded: Bytes) returns (r: Result)
    requires FoldsCode(s, folded)
    ensures r == Parsed(s, folded)
    ensures r.Ok? ==> r.payload.peerId != [] && C.Canonical(r.payload.code) && AllWithout(r.payload.addresses, '\n')
  {
    if !HasScheme(s) {
      return Err(NotOurs);
    }
    if '?' !in s {
      return Err(NoQuery);
    }
    var values := ParseQuery(Cut(s, '?').1);
    if values.None? {
      return Err(BadQuery);
    }
    var fs := values.value;
    var peerId := Get(fs, "p");
    if peerId == [] {
      return Err(NoPeer);
    }
    var addrEnc := Get(fs, "a");
    if addrEnc == [] {
      return Err(NoAddresses);
    }
    var addresses := DecodeAddresses(addrEnc);
    if addresses.None? {
      return Err(BadAddresses);
    }
    var code := C.Parse(Get(fs, "c"), folded);
    if code.Err? {
      return Err(BadCode(code.error));
    }
    var expiresAt := 0;
    if Get(fs, "e") != [] {
      var parsed := ParseInt(Get(fs, "e"));
      if parsed.None? {
        return Err(BadExpiry);
      }
      expiresAt := parsed.value;
    }
    return Ok(Payload(peerId, Get(fs, "k"), addresses.value, Get(fs, "n"), code.code, expiresAt, Get(fs, "s")));
  }

  // ---------------------------------------------------------------- round trip

  lemma UrlIsSplit(q: Bytes)
    ensures var s := URL_PREFIX + "?" + q; HasScheme(s) && '?' in s && Cut(s, '?').1 == q
  {
    var s := URL_PREFIX + "?" + q;
    assert s[|URL_PREFIX|] == '?';
    assert forall i :: 0 <= i < |URL_PREFIX| ==> s[i] == URL_PREFIX[i];
    CutAt(URL_PREFIX, '?', q);
  }

  lemma {:induction false} GetAt(fs: seq<Field>, n: nat)
    requires n < |fs| && forall k :: 0 <= k < n ==> fs[k].key != fs[n].key
    ensures Get(fs, fs[n].key) == fs[n].value
  {
    if n > 0 {
      assert fs[0].key != fs[n].key;
      GetAt(fs[1..], n - 1);
    }
  }

  lemma {:induction false} GetNone(fs: seq<Field>, key: Bytes)
    requires forall k :: 0 <= k < |fs| ==> fs[k].key != key
    ensures Get(fs, key) == []
  {
    if fs != [] {
      GetNone(fs[1..], key);
    }
  }

  const KEYS: Bytes := "aceknps"

  lemma FieldsAreFound(p: Payload, fs: seq<Field>)
    requires fs == FieldsFor(p)
    ensures Get(fs, "a") == EncodeAddresses(p.addresses) && Get(fs, "c") == p.code && Get(fs, "e") == FormatInt(p.expiresAt)
    ensures Get(fs, "k") == p.publicKey && Get(fs, "n") == p.displayName && Get(fs, "p") == p.peerId
    ensures Get(fs, "s") == p.signature
  {
    assert forall k :: 0 <= k < |fs| ==> fs[k].key == [KEYS[k]];
    forall k: nat | k < |fs| ensures Get(fs, fs[k].key) == fs[k].value {
      GetAt(fs, k);
    }
    if p.signature == [] {
      GetNone(fs, "s");
    } else {
      assert fs[6].key == "s" && fs[6].value == p.signature;
    }
    assert fs[0].key == "a" && fs[1].key == "c" && fs[2].key == "e" && fs[3].key == "k" && fs[4].key == "n" && fs[5].key == "p";
  }

  /** What FormatURL needs of a payload. */
  predicate Shareable(p: Payload) {
    p.peerId != [] && C.Canonical(p.code) && AllWithout(p.addresses, '\n') && Join(p.addresses, '\n') != []
  }

  lemma AddressesRoundTrip(addrs: seq<Bytes>)
    ensures DecodeAddresses(EncodeAddresses(addrs)) == Some(if Join(addrs, '\n') == [] then [] else Split(Join(addrs, '\n'), '\n'))
    ensures Join(addrs, '\n') != [] ==> (DecodeAddresses(EncodeAddresses(addrs)) == Some(addrs) <==> AllWithout(addrs, '\n'))
  {
    Base64RoundTrip(Join(addrs, '\n'));
    if Join(addrs, '\n') != [] && AllWithout(addrs, '\n') {
      SplitJoin(addrs, '\n');
    }
  }

  /** A URL says again what was put into it exactly if the peer ID is there, the code is
      canonical, and the addresses are without line breaks and not all of nothing. */
  lemma UrlRoundTripIff(p: Payload, folded: Bytes)
    requires C.Folds(p.code, folded)
    ensures Parsed(FormatURL(p), folded) == Ok(p) <==> Shareable(p)
  {
    var fs := FieldsFor(p);
    UrlIsSplit(Query(fs));
    QueryRoundTrip(fs);
    AssembleIff(p, fs, folded);
  }

  lemma AssembleIff(p: Payload, fs: seq<Field>, folded: Bytes)
    requires fs == FieldsFor(p) && C.Folds(p.code, folded)
    ensures Assemble(fs, folded) == Ok(p) <==> Shareable(p)
  {
    FieldsAreFound(p, fs);
    AddressesRoundTrip(p.addresses);
    IntRoundTrip(p.expiresAt);
    if C.Canonical(p.code) {
      C.CanonicalIsRead(p.code, folded);
    }
  }

  // ---------------------------------------------------------------- what is accepted, and why not

  /** v is the value of the first field with the key, or nothing if there is none. */
  ghost predicate FirstValue(fs: seq<Field>, key: Bytes, v: Bytes) {
    || (v == [] && forall k :: 0 <= k < |fs| ==> fs[k].key != key)
    || exists k :: 0 <= k < |fs| && fs[k].key == key && fs[k].value == v && forall j :: 0 <= j < k ==> fs[j].key != key
  }

  lemma GetIsFirst(fs: seq<Field>, key: Bytes)
    ensures FirstValue(fs, key, Get(fs, key))
    ensures forall v :: FirstValue(fs, key, v) ==> v == Get(fs, key)
  {
    if k: nat :| k < |fs| && fs[k].key == key && forall j :: 0 <= j < k ==> fs[j].key != key {
      GetAt(fs, k);
    } else {
      NoFirst(fs, key);
      GetNone(fs, key);
    }
  }

  lemma {:induction false} NoFirst(fs: seq<Field>, key: Bytes)
    requires forall k: nat :: !(k < |fs| && fs[k].key == key && forall j :: 0 <= j < k ==> fs[j].key != key)
    ensures forall k :: 0 <= k < |fs| ==> fs[k].key != key
  {
    var n: nat := 0;
    while n < |fs|
      invariant n <= |fs| && forall k :: 0 <= k < n ==> fs[k].key != key
    {
      n := n + 1;
    }
  }

  /** The prefix, letter by letter, in either case. */
  predicate Prefixed(s: Bytes) {
    && |s| >= 14
    && forall i :: 0 <= i < 14 ==>
         s[i] == "opencom://join"[i] || ('a' <= "opencom://join"[i] && s[i] as int == "opencom://join"[i] as int - 32)
  }

  lemma PrefixedIff(s: Bytes)
    ensures HasScheme(s) <==> Prefixed(s)
  {
    assert |URL_PREFIX| == 14;
  }

  /** The peer ID, the addresses, the code and the expiry are checked in that order, and the
      first that is wrong decides; the key, the name and the signature are not needed. */
  lemma FieldChecks(fs: seq<Field>, folded: Bytes, peer: Bytes, addrs: Bytes, expiry: Bytes, r: Result)
    requires FirstValue(fs, "p", peer) && FirstValue(fs, "a", addrs) && FirstValue(fs, "e", expiry) && r == Assemble(fs, folded)
    ensures r == Err(NoPeer) <==> peer == []
    ensures r == Err(NoAddresses) <==> peer != [] && addrs == []
    ensures r == Err(BadAddresses) <==> peer != [] && addrs != [] && Decode64(addrs).None?
    ensures peer != [] && addrs != [] && Decode64(addrs).Some? ==>
              && (r.Err? && r.error.BadCode? <==> C.Judged(folded).Err?)
              && (r == Err(BadExpiry) <==> C.Judged(folded).Ok? && expiry != [] && ParseInt(expiry).None?)
              && (r.Ok? <==> C.Judged(folded).Ok? && (expiry == [] || ParseInt(expiry).Some?))
  {
    GetIsFirst(fs, "p");
    GetIsFirst(fs, "a");
    GetIsFirst(fs, "e");
  }

  /** Every field of what is returned comes from the first field of its name; without an
      expiry there is 0. */
  lemma FieldsAreTaken(fs: seq<Field>, folded: Bytes, p: Payload)
    requires Assemble(fs, folded) == Ok(p)
    ensures FirstValue(fs, "p", p.peerId) && FirstValue(fs, "k", p.publicKey) && FirstValue(fs, "n", p.displayName)
    ensures FirstValue(fs, "s", p.signature) && C.Judged(folded) == C.Ok(p.code)
    ensures (FirstValue(fs, "e", []) && p.expiresAt == 0) || exists e :: FirstValue(fs, "e", e) && ParseInt(e) == Some(p.expiresAt)
    ensures exists a :: FirstValue(fs, "a", a) && DecodeAddresses(a) == Some(p.addresses)
  {
    GetIsFirst(fs, "p");
    GetIsFirst(fs, "k");
    GetIsFirst(fs, "n");
    GetIsFirst(fs, "s");
    GetIsFirst(fs, "e");
    GetIsFirst(fs, "a");
  }

  /** Before that: our prefix, a question mark, and a query that can be read. */
  lemma UrlChecks(s: Bytes, folded: Bytes, pre: Bytes, q: Bytes)
    ensures Parsed(s, folded) == Err(NotOurs) <==> !Prefixed(s)
    ensures Parsed(s, folded) == Err(NoQuery) <==> Prefixed(s) && '?' !in s
    ensures Prefixed(s) && s == pre + "?" + q && '?' !in pre ==>
              && (Parsed(s, folded) == Err(BadQuery) <==> ';' in q || !EscapesAreWhole(q))
              && forall fs :: ParseQuery(q) == Some(fs) ==> Parsed(s, folded) == Assemble(fs, folded)
  {
    PrefixedIff(s);
    if s == pre + "?" + q && '?' !in pre {
      CutAt(pre, '?', q);
      assert s[|pre|] == '?';
      QueryIsReadIff(q);
    }
  }

  /** What older versions hand out: no key, no expiry, no signature. */
  function OldFields(p: Payload): seq<Field> {
    [Field("a", EncodeAddresses(p.addresses)), Field("c", p.code), Field("n", p.displayName), Field("p", p.peerId)]
  }

  /** It is read, with nothing for what is missing and in either case of the prefix. */
  lemma OldUrlIsRead(p: Payload, folded: Bytes, pre: Bytes)
    requires Shareable(p) && C.Folds(p.code, folded) && |pre| == 14 && Prefixed(pre) && '?' !in pre
    ensures Parsed(pre + "?" + Query(OldFields(p)), folded) == Ok(p.(publicKey := [], expiresAt := 0, signature := []))
  {
    var fs, q := OldFields(p), Query(OldFields(p));
    var s := pre + "?" + q;
    assert forall i :: 0 <= i < 14 ==> s[i] == pre[i];
    UrlChecks(s, folded, pre, q);
    QueryRoundTrip(fs);
    OldFieldsAreRead(p, folded, fs);
  }

  lemma OldFieldsAreRead(p: Payload, folded: Bytes, fs: seq<Field>)
    requires Shareable(p) && C.Folds(p.code, folded) && fs == OldFields(p)
    ensures Assemble(fs, folded) == Ok(p.(publicKey := [], expiresAt := 0, signature := []))
  {
    assert fs[0].key == "a" && fs[1].key == "c" && fs[2].key == "n" && fs[3].key == "p";
    GetAt(fs, 0);
    GetAt(fs, 2);
    GetAt(fs, 3);
    GetNone(fs, "k");
    GetNone(fs, "e");
    GetNone(fs, "s");
    AddressesRoundTrip(p.addresses);
    C.CanonicalIsRead(p.code, folded);
  }

  // ---------------------------------------------------------------- signed bytes

  function Line(key: Bytes, value: Bytes): Bytes {
    key + "=" + value
  }

  function BackLines(p: Payload): Bytes {
    Line("n", p.displayName) + "\n" + Line("c", p.code) + "\n" + Line("e", FormatInt(p.expiresAt))
  }

  function AddressLines(p: Payload): Bytes {
    Line("a", EncodeAddresses(p.addresses)) + "\n" + BackLines(p)
  }

  function KeyLines(p: Payload): Bytes {
    Line("k", p.publicKey) + "\n" + AddressLines(p)
  }

  function PeerLines(p: Payload): Bytes {
    Line("p", p.peerId) + "\n" + KeyLines(p)
  }

  /** urlCanonicalBytes: everything but the signature. */
  function Signed(p: Payload): Bytes {
    SIG_DOMAIN + "\n" + PeerLines(p)
  }

  lemma JoinCons(x: Bytes, rest: seq<Bytes>, sep: Byte)
    requires rest != []
    ensures Join([x] + rest, sep) == x + [sep] + Join(rest, sep)
  {
    assert ([x] + rest)[1..] == rest;
  }

  /** The form of what is signed: one line for the version and one for each field. */
  lemma SignedShape(p: Payload, lines: seq<Bytes>)
    requires |lines| == 7 && lines[0] == "opencom-invite-url-v1"
    requires lines[1] == "p=" + p.peerId && lines[2] == "k=" + p.publicKey && lines[3] == "a=" + EncodeAddresses(p.addresses)
    requires lines[4] == "n=" + p.displayName && lines[5] == "c=" + p.code && lines[6] == "e=" + FormatInt(p.expiresAt)
    ensures Signed(p) == Join(lines, '\n')
  {
    FrontShape(p, lines);
    LineJoins(lines, 0);
    assert lines[0] == SIG_DOMAIN && lines[0..] == lines;
  }

  lemma FrontShape(p: Payload, lines: seq<Bytes>)
    requires |lines| == 7
    requires lines[1] == Line("p", p.peerId) && lines[2] == Line("k", p.publicKey) && lines[3] == Line("a", EncodeAddresses(p.addresses))
    requires lines[4] == Line("n", p.displayName) && lines[5] == Line("c", p.code) && lines[6] == Line("e", FormatInt(p.expiresAt))
    ensures Join(lines[1..], '\n') == PeerLines(p)
  {
    BackShape(p, lines);
    LineJoins(lines, 3);
    LineJoins(lines, 2);
    LineJoins(lines, 1);
  }

  lemma BackShape(p: Payload, lines: seq<Bytes>)
    requires |lines| == 7
    requires lines[4] == Line("n", p.displayName) && lines[5] == Line("c", p.code) && lines[6] == Line("e", FormatInt(p.expiresAt))
    ensures Join(lines[4..], '\n') == BackLines(p)
  {
    assert lines[6..] == [lines[6]];
    LineJoins(lines, 5);
    LineJoins(lines, 4);
    Regroup(lines[4], lines[5], lines[6]);
  }

  lemma LineJoins(lines: seq<Bytes>, i: nat)
    requires i + 1 < |lines|
    ensures Join(lines[i..], '\n') == lines[i] + "\n" + Join(lines[i + 1..], '\n')
  {
    assert lines[i..] == [lines[i]] + lines[i + 1..];
    JoinCons(lines[i], lines[i + 1..], '\n');
  }

  /** The first line break tells where a value without one ends. */
  lemma FirstLine(a: Bytes, r: Bytes, a': Bytes, r': Bytes)
    requires '\n' !in a && '\n' !in a' && a + "\n" + r == a' + "\n" + r'
    ensures a == a' && r == r'
  {
    CutAt(a, '\n', r);
    CutAt(a', '\n', r');
  }

  /** So does the last. */
  lemma LastLine(r: Bytes, a: Bytes, r': Bytes, a': Bytes)
    requires '\n' !in a && '\n' !in a' && r + "\n" + a == r' + "\n" + a'
    ensures a == a' && r == r'
  {
    var s := r + "\n" + a;
    forall i | |r| < i < |s| ensures s[i] != '\n' {
      assert s[i] == a[i - |r| - 1];
    }
    forall i | |r'| < i < |s| ensures s[i] != '\n' {
      assert s[i] == (r' + "\n" + a')[i] == a'[i - |r'| - 1];
    }
    assert s[|r|] == '\n' && s[|r'|] == '\n';
    assert s[..|r|] == r && s[..|r'|] == r' && s[|r| + 1..] == a && s[|r'| + 1..] == a';
  }

  predicate OneLine(p: Payload) {
    '\n' !in p.peerId && '\n' !in p.publicKey && '\n' !in p.code
  }

  predicate PlainAddresses(p: Payload) {
    AllWithout(p.addresses, '\n') && Join(p.addresses, '\n') != []
  }

  lemma LineValue(key: Bytes, v: Bytes, v': Bytes)
    requires Line(key, v) == Line(key, v')
    ensures v == v'
  {
    assert Line(key, v)[|key| + 1..] == v && Line(key, v')[|key| + 1..] == v';
  }

  /** Different invites are signed as different bytes: the fields without line breaks are
      told apart from the front and from the back, the display name is what remains. */
  lemma SignedIsInjective(p: Payload, q: Payload)
    requires OneLine(p) && OneLine(q) && PlainAddresses(p) && PlainAddresses(q)
    requires Signed(p) == Signed(q)
    ensures p.(signature := q.signature) == q
  {
    FrontIsInjective(p, q);
    BackIsInjective(p.displayName, p.code, FormatInt(p.expiresAt), q.displayName, q.code, FormatInt(q.expiresAt));
    IntRoundTrip(p.expiresAt);
    IntRoundTrip(q.expiresAt);
    AddressesRoundTrip(p.addresses);
    AddressesRoundTrip(q.addresses);
  }

  lemma FrontIsInjective(p: Payload, q: Payload)
    requires OneLine(p) && OneLine(q) && Signed(p) == Signed(q)
    ensures p.peerId == q.peerId && p.publicKey == q.publicKey && EncodeAddresses(p.addresses) == EncodeAddresses(q.addresses)
    ensures BackLines(p) == BackLines(q)
  {
    var pa, qa := EncodeAddresses(p.addresses), EncodeAddresses(q.addresses);
    FirstLine(SIG_DOMAIN, PeerLines(p), SIG_DOMAIN, PeerLines(q));
    FirstLine(Line("p", p.peerId), KeyLines(p), Line("p", q.peerId), KeyLines(q));
    FirstLine(Line("k", p.publicKey), AddressLines(p), Line("k", q.publicKey), AddressLines(q));
    FirstLine(Line("a", pa), BackLines(p), Line("a", qa), BackLines(q));
    LineValue("p", p.peerId, q.peerId);
    LineValue("k", p.publicKey, q.publicKey);
    LineValue("a", pa, qa);
  }

  lemma BackIsInjective(n: Bytes, c: Bytes, e: Bytes, n': Bytes, c': Bytes, e': Bytes)
    requires '\n' !in c && '\n' !in c' && '\n' !in e && '\n' !in e'
    requires Line("n", n) + "\n" + Line("c", c) + "\n" + Line("e", e) == Line("n", n') + "\n" + Line("c", c') + "\n" + Line("e", e')
    ensures n == n' && c == c' && e == e'
  {
    LastLine(Line("n", n) + "\n" + Line("c", c), Line("e", e), Line("n", n') + "\n" + Line("c", c'), Line("e", e'));
    LastLine(Line("n", n), Line("c", c), Line("n", n'), Line("c", c'));
    LineValue("n", n, n');
    LineValue("c", c, c');
    LineValue("e", e, e');
  }

  // ---------------------------------------------------------------- why nothing less is enough

  /** All that `SignedIsInjective` asks of a payload. */
  predicate Signable(p: Payload) {
    OneLine(p) && PlainAddresses(p)
  }

  /** Lines of a payload that may stand inside another value. */
  function AddressPart(p: Payload): Bytes {
    Line("a", EncodeAddresses(p.addresses)) + "\n" + Line("n", p.displayName)
  }

  function KeyPart(p: Payload): Bytes {
    Line("k", p.publicKey) + "\n" + AddressPart(p)
  }

  function CodeLines(p: Payload): Bytes {
    Line("c", p.code) + "\n" + Line("e", FormatInt(p.expiresAt))
  }

  lemma Regroup(a: Bytes, b: Bytes, c: Bytes)
    ensures a + "\n" + (b + "\n" + c) == (a + "\n" + b) + "\n" + c
  {
  }

  /** A line at the end of a value, or a line of its own. */
  lemma LineMoves(key: Bytes, v: Bytes, x: Bytes, rest: Bytes)
    ensures Line(key, v + "\n" + x) + "\n" + rest == Line(key, v) + "\n" + (x + "\n" + rest)
  {
    assert Line(key, v + "\n" + x) == Line(key, v) + "\n" + x;
    Regroup(Line(key, v), x, rest);
  }

  /** The lines that end a payload, with more in its display name. */
  lemma BackWith(p: Payload, x: Bytes)
    ensures BackLines(p) == Line("n", p.displayName) + "\n" + CodeLines(p)
    ensures BackLines(p.(displayName := p.displayName + "\n" + x)) == Line("n", p.displayName) + "\n" + (x + "\n" + CodeLines(p))
  {
    var e := Line("e", FormatInt(p.expiresAt));
    Regroup(Line("n", p.displayName), Line("c", p.code), e);
    Regroup(Line("n", p.displayName + "\n" + x), Line("c", p.code), e);
    LineMoves("n", p.displayName, x, CodeLines(p));
  }

  lemma AddressesWith(p: Payload, x: Bytes)
    ensures AddressLines(p) == AddressPart(p) + "\n" + CodeLines(p)
    ensures AddressLines(p.(displayName := p.displayName + "\n" + x)) == AddressPart(p) + "\n" + (x + "\n" + CodeLines(p))
  {
    BackWith(p, x);
    var a, n := Line("a", EncodeAddresses(p.addresses)), Line("n", p.displayName);
    Regroup(a, n, CodeLines(p));
    Regroup(a, n, x + "\n" + CodeLines(p));
  }

  lemma KeysWith(p: Payload, x: Bytes)
    ensures KeyLines(p) == KeyPart(p) + "\n" + CodeLines(p)
    ensures KeyLines(p.(displayName := p.displayName + "\n" + x)) == KeyPart(p) + "\n" + (x + "\n" + CodeLines(p))
  {
    AddressesWith(p, x);
    Regroup(Line("k", p.publicKey), AddressPart(p), CodeLines(p));
    Regroup(Line("k", p.publicKey), AddressPart(p), x + "\n" + CodeLines(p));
  }

  /** q's lines follow in the display name of p, or p's in the peer ID of q. */
  lemma PeerCollides(p: Payload, q: Payload)
    requires p.code == q.code && p.expiresAt == q.expiresAt
    ensures Signed(p.(displayName := p.displayName + "\n" + KeyPart(q))) == Signed(q.(peerId := p.peerId + "\n" + KeyPart(p)))
  {
    KeysWith(p, KeyPart(q));
    KeysWith(q, []);
    LineMoves("p", p.peerId, KeyPart(p), KeyLines(q));
  }

  /** The same, one field later. */
  lemma KeyCollides(p: Payload, q: Payload)
    requires p.peerId == q.peerId && p.code == q.code && p.expiresAt == q.expiresAt
    ensures Signed(p.(displayName := p.displayName + "\n" + AddressPart(q)))
            == Signed(q.(publicKey := p.publicKey + "\n" + AddressPart(p)))
  {
    AddressesWith(p, AddressPart(q));
    AddressesWith(q, []);
    LineMoves("k", p.publicKey, AddressPart(p), AddressLines(q));
  }

  /** From the other side: a code line in the display name, or in the code. */
  lemma CodeCollides(p: Payload, x: Bytes, y: Bytes)
    ensures Signed(p.(displayName := p.displayName + "\n" + Line("c", x), code := y)) == Signed(p.(code := x + "\n" + Line("c", y)))
  {
    BackWith(p.(code := y), Line("c", x));
    BackWith(p.(code := x + "\n" + Line("c", y)), []);
    LineMoves("c", x, Line("c", y), Line("e", FormatInt(p.expiresAt)));
  }

  /** A line break in an address looks like two addresses. */
  lemma AddressCollides(p: Payload, x: Bytes, y: Bytes)
    ensures Signed(p.(addresses := [x + "\n" + y])) == Signed(p.(addresses := [x, y]))
  {
    assert [x, y][1..] == [y];
    SameAddresses(p, [x + "\n" + y], [x, y]);
  }

  lemma SameAddresses(p: Payload, a: seq<Bytes>, b: seq<Bytes>)
    requires Join(a, '\n') == Join(b, '\n')
    ensures Signed(p.(addresses := a)) == Signed(p.(addresses := b))
  {
  }

  /**
   The fields are not length-prefixed, and no hypothesis of `SignedIsInjective` can be
   spared.  From signable p and q and line-break-free x and y: two payloads with the same
   signed bytes, of which one is signable and the other is too but for its peer ID, its
   key, or its code.
   */
  lemma SignedNeedsOneLine(p: Payload, q: Payload, x: Bytes, y: Bytes)
    requires Signable(p) && Signable(q) && '\n' !in x && '\n' !in y && q.code == p.code && q.expiresAt == p.expiresAt
    ensures var p1, q1 := p.(displayName := p.displayName + "\n" + KeyPart(q)), q.(peerId := p.peerId + "\n" + KeyPart(p));
            Signable(p1) && Signable(q1.(peerId := x)) && p1.peerId != q1.peerId && Signed(p1) == Signed(q1)
    ensures q.peerId == p.peerId ==>
              var p2, q2 := p.(displayName := p.displayName + "\n" + AddressPart(q)), q.(publicKey := p.publicKey + "\n" + AddressPart(p));
              Signable(p2) && Signable(q2.(publicKey := x)) && p2.publicKey != q2.publicKey && Signed(p2) == Signed(q2)
    ensures var p3, q3 := p.(displayName := p.displayName + "\n" + Line("c", x), code := y), p.(code := x + "\n" + Line("c", y));
            Signable(p3) && Signable(q3.(code := x)) && p3.code != q3.code && Signed(p3) == Signed(q3)
  {
    PeerCollides(p, q);
    if q.peerId == p.peerId {
      KeyCollides(p, q);
    }
    CodeCollides(p, x, y);
    Longer(p.peerId, KeyPart(p));
    Longer(p.publicKey, AddressPart(p));
    Longer(x, Line("c", y));
  }

  /** The same for the addresses: a line break in one, or none but empty ones. */
  lemma SignedNeedsPlainAddresses(p: Payload, x: Bytes, y: Bytes)
    requires Signable(p) && '\n' !in x && '\n' !in y
    ensures var p4, q4 := p.(addresses := [x, y]), p.(addresses := [x + "\n" + y]);
            Signable(p4) && OneLine(q4) && Join(q4.addresses, '\n') != [] && p4.addresses != q4.addresses && Signed(p4) == Signed(q4)
    ensures var p5, q5 := p.(addresses := []), p.(addresses := [[]]);
            && OneLine(p5) && AllWithout(p5.addresses, '\n') && OneLine(q5) && AllWithout(q5.addresses, '\n')
            && p5.addresses != q5.addresses && Signed(p5) == Signed(q5)
  {
    AddressCollides(p, x, y);
    SameAddresses(p, [], [[]]);
    TwoAddresses(x, y);
  }

  lemma Longer(v: Bytes, x: Bytes)
    ensures v + "\n" + x != v && |v + "\n" + x| > |x|
  {
  }

  lemma TwoAddresses(x: Bytes, y: Bytes)
    requires '\n' !in x && '\n' !in y
    ensures Join([x, y], '\n') == x + "\n" + y && Join([x + "\n" + y], '\n') == x + "\n" + y
    ensures AllWithout([x, y], '\n')
  {
    assert [x, y][1..] == [y];
  }
}
