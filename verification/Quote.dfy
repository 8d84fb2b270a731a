/**
 The sealed quote: the digest of a priced world, and the token that carries it. Encryption is an
 abstract authenticated cipher and the payload's text an abstract codec, with the laws stated.
 */
module Quote {
  import opened Wrappers
  import opened Fingerprint
  import opened Base64Url

  // ---- the fingerprint ------------------------------------------------------------------------------------------

  datatype World = World(
    product: string, price: int, productActive: bool, categoryActive: bool, panel: Option<string>, panelStatus: Option<string>,
    code: Option<string>, discount: int, finalPrice: int, service: Option<string>, serviceStatus: Option<string>,
    serviceExpiresAt: Option<int>, serviceVolume: Option<string>)

  function Flag(b: bool): string {
    if b then "1" else "0"
  }

  function Parts(w: World): seq<string> {
    [w.product, IntText(w.price), Flag(w.productActive), Flag(w.categoryActive), OrDash(w.panel), OrDash(w.panelStatus),
     OrDash(w.code), IntText(w.discount), IntText(w.finalPrice), OrDash(w.service), OrDash(w.serviceStatus),
     ExpiryText(w.serviceExpiresAt), OrDash(w.serviceVolume)]
  }

  function ExpiryText(at: Option<int>): string {
    if at.None? then "-" else IntText(at.value)
  }

  /** The text that is digested. */
  function FingerprintText(w: World): string {
    Join(Parts(w))
  }

  /** Ids, statuses and figures hold no NUL, and no optional one is a bare dash. */
  predicate Plain(w: World) {
    && Clean(w.product) && PlainOption(w.panel) && PlainOption(w.panelStatus) && PlainOption(w.code) && PlainOption(w.service)
    && PlainOption(w.serviceStatus) && PlainOption(w.serviceVolume)
  }

  lemma PartsAreClean(w: World)
    requires Plain(w)
    ensures forall s :: s in Parts(w) ==> Clean(s)
  {
    IntTextInjective(w.price, 0);
    IntTextInjective(w.discount, 0);
    IntTextInjective(w.finalPrice, 0);
    ExpiryTells(w.serviceExpiresAt, None);
    hide IntText, ExpiryText;
  }

  lemma DashTells(a: Option<string>, b: Option<string>)
    requires PlainOption(a) && PlainOption(b)
    ensures OrDash(a) == OrDash(b) <==> a == b
  {
  }

  lemma EqualTexts(v: World, w: World)
    requires Parts(v) == Parts(w)
    ensures v.product == w.product && IntText(v.price) == IntText(w.price)
    ensures Flag(v.productActive) == Flag(w.productActive) && Flag(v.categoryActive) == Flag(w.categoryActive)
    ensures OrDash(v.panel) == OrDash(w.panel) && OrDash(v.panelStatus) == OrDash(w.panelStatus) && OrDash(v.code) == OrDash(w.code)
    ensures IntText(v.discount) == IntText(w.discount) && IntText(v.finalPrice) == IntText(w.finalPrice)
    ensures OrDash(v.service) == OrDash(w.service) && OrDash(v.serviceStatus) == OrDash(w.serviceStatus)
    ensures ExpiryText(v.serviceExpiresAt) == ExpiryText(w.serviceExpiresAt) && OrDash(v.serviceVolume) == OrDash(w.serviceVolume)
  {
    hide IntText, OrDash, Flag, ExpiryText;
    var a, b := Parts(v), Parts(w);
    assert a[0] == b[0] && a[1] == b[1] && a[2] == b[2] && a[3] == b[3] && a[4] == b[4] && a[5] == b[5] && a[6] == b[6];
    assert a[7] == b[7] && a[8] == b[8] && a[9] == b[9] && a[10] == b[10] && a[11] == b[11] && a[12] == b[12];
  }

  lemma ExpiryTells(a: Option<int>, b: Option<int>)
    ensures ExpiryText(a) == ExpiryText(b) <==> a == b
    ensures Clean(ExpiryText(a))
  {
    IntTextInjective(a.GetOr(0), b.GetOr(0));
    IntTextInjective(b.GetOr(0), a.GetOr(0));
    hide IntText;
  }

  lemma FlagTells(a: bool, b: bool)
    ensures Flag(a) == Flag(b) <==> a == b
  {
    assert "1"[0] != "0"[0];
  }

  lemma PartsTell(v: World, w: World)
    requires Plain(v) && Plain(w) && Parts(v) == Parts(w)
    ensures v == w
  {
    EqualTexts(v, w);
    hide Parts, Clean, PlainOption, IntText, OrDash, Flag, ExpiryText;
    IntTextInjective(v.price, w.price);
    IntTextInjective(v.discount, w.discount);
    IntTextInjective(v.finalPrice, w.finalPrice);
    ExpiryTells(v.serviceExpiresAt, w.serviceExpiresAt);
    FlagTells(v.productActive, w.productActive);
    FlagTells(v.categoryActive, w.categoryActive);
    DashTells(v.panel, w.panel);
    DashTells(v.panelStatus, w.panelStatus);
    DashTells(v.code, w.code);
    DashTells(v.service, w.service);
    DashTells(v.serviceStatus, w.serviceStatus);
    DashTells(v.serviceVolume, w.serviceVolume);
  }

  /** Two plain worlds share a fingerprint text exactly when they are one world. */
  lemma FingerprintInjective(v: World, w: World)
    requires Plain(v) && Plain(w)
    ensures FingerprintText(v) == FingerprintText(w) <==> v == w
  {
    PartsAreClean(v);
    PartsAreClean(w);
    JoinInjective(Parts(v), Parts(w));
    hide Parts, Join;
    if FingerprintText(v) == FingerprintText(w) {
      PartsTell(v, w);
    }
  }

  predicate NulFree(w: World) {
    && Clean(w.product) && CleanOption(w.panel) && CleanOption(w.panelStatus) && CleanOption(w.code) && CleanOption(w.service)
    && CleanOption(w.serviceStatus) && CleanOption(w.serviceVolume)
  }

  function UndashedWorld(w: World): World {
    w.(panel := Undashed(w.panel), panelStatus := Undashed(w.panelStatus), code := Undashed(w.code), service := Undashed(w.service),
       serviceStatus := Undashed(w.serviceStatus), serviceVolume := Undashed(w.serviceVolume))
  }

  /** Without the dash test: NUL-free worlds share a text exactly when they are one world once dashes are read as absent. */
  lemma FingerprintUpToDashes(v: World, w: World)
    requires NulFree(v) && NulFree(w)
    ensures FingerprintText(v) == FingerprintText(w) <==> UndashedWorld(v) == UndashedWorld(w)
  {
    UndashedParts(v);
    UndashedParts(w);
    hide UndashedWorld, NulFree, Plain, Parts, Join;
    FingerprintInjective(UndashedWorld(v), UndashedWorld(w));
  }

  lemma UndashedParts(w: World)
    ensures Parts(UndashedWorld(w)) == Parts(w)
    ensures NulFree(w) ==> Plain(UndashedWorld(w))
  {
    hide Clean, OrDash, PlainOption, CleanOption, Undashed, IntText, ExpiryText, Flag;
    UndashedText(w.panel);
    UndashedText(w.panelStatus);
    UndashedText(w.code);
    UndashedText(w.service);
    UndashedText(w.serviceStatus);
    UndashedText(w.serviceVolume);
  }

  // ---- sealing and opening ------------------------------------------------------------------------------------------

  datatype Payload = Payload(user: string, checkout: string, operation: string, price: int, fingerprint: string, expiresAt: int)

  /** A member of a parsed JSON object, as far as the checks look at it. */
  datatype Field = Absent | Str(s: string) | Int(n: int) | Other

  datatype Fields = Fields(u: Field, c: Field, o: Field, a: Field, f: Field, x: Field)

  const SAFE := 9007199254740991

  predicate Safe(n: int) {
    -SAFE <= n <= SAFE
  }

  /** The codec and the cipher; `open` is None when the tag does not verify, `parse` when the text is no object. */
  datatype Machinery = Machinery(
    render: Payload -> Bytes, parse: Bytes -> Option<Fields>,
    seal: (Bytes, Bytes) -> Bytes, open: (Bytes, Bytes) -> Option<Bytes>)

  const IV_BYTES := 12
  const TAG_BYTES := 16
  const VERSION := "q1"

  function FieldsOf(p: Payload): Fields {
    Fields(Str(p.user), Str(p.checkout), Str(p.operation), Int(p.price), Str(p.fingerprint), Int(p.expiresAt))
  }

  /** What sealing and opening rely on: rendering parses back, an opened seal gives its plain text, and only seals open. */
  ghost predicate Lawful(m: Machinery) {
    && (forall p :: m.render(p) != [] && m.parse(m.render(p)) == Some(FieldsOf(p)))
    && (forall iv, plain :: |m.seal(iv, plain)| == |plain| + TAG_BYTES && m.open(iv, m.seal(iv, plain)) == Some(plain))
    && (forall iv, box :: m.open(iv, box).Some? ==> box == m.seal(iv, m.open(iv, box).value))
  }

  datatype Outcome = Malformed | BadSeal | Expired | Opened(payload: Payload)

  function Seal(m: Machinery, p: Payload, iv: Bytes): string {
    VERSION + "." + Encode(iv + m.seal(iv, m.render(p)))
  }

  function Dot(t: string): nat
    ensures Dot(t) <= |t| && (Dot(t) < |t| ==> t[Dot(t)] == '.')
  {
    if t == [] then 0 else if t[0] == '.' then 0 else 1 + Dot(t[1..])
  }

  function Read(f: Fields): Option<Payload> {
    if f.u.Str? && f.u.s != "" && f.c.Str? && f.c.s != "" && f.o.Str? && f.a.Int? && Safe(f.a.n) && f.f.Str? && f.f.s != "" &&
       f.x.Int? && Safe(f.x.n)
    then Some(Payload(f.u.s, f.c.s, f.o.s, f.a.n, f.f.s, f.x.n))
    else None
  }

  /** Seal first, expiry second. */
  function OpenBox(m: Machinery, raw: Bytes, now: int): Outcome
    requires |raw| > IV_BYTES + TAG_BYTES
  {
    var plain := m.open(raw[..IV_BYTES], raw[IV_BYTES..]);
    if plain.None? || m.parse(plain.value).None? then BadSeal
    else
      var p := Read(m.parse(plain.value).value);
      if p.None? then BadSeal else if now >= p.value.expiresAt then Expired else Opened(p.value)
  }

  function Open(m: Machinery, token: string, now: int): Outcome {
    var dot := Dot(token);
    if dot >= |token| || token[..dot] != VERSION then Malformed
    else
      var encoded := token[dot + 1..];
      var raw := Decode(encoded);
      if !Canonical(encoded) || |raw| <= IV_BYTES + TAG_BYTES then Malformed else OpenBox(m, raw, now)
  }

  /** A payload that the reader accepts: named parties, a digest, safe integers. */
  predicate Readable(p: Payload) {
    p.user != "" && p.checkout != "" && p.fingerprint != "" && Safe(p.price) && Safe(p.expiresAt)
  }

  lemma VersionDot(rest: string)
    ensures Dot(VERSION + "." + rest) == 2 && (VERSION + "." + rest)[..2] == VERSION && (VERSION + "." + rest)[3..] == rest
  {
    var t := VERSION + "." + rest;
    assert t[0] == 'q' && t[1] == '1' && t[2] == '.';
    assert Dot(t[2..]) == 0;
    assert Dot(t[1..]) == 1 by { assert t[1..][1..] == t[2..]; }
  }

  /** Opening what was sealed gives the payload before its expiry and EXPIRED from it on; an unreadable payload never opens. */
  lemma OpenSeal(m: Machinery, p: Payload, iv: Bytes, now: int)
    requires Lawful(m) && |iv| == IV_BYTES
    ensures Open(m, Seal(m, p, iv), now) == if !Readable(p) then BadSeal else if now >= p.expiresAt then Expired else Opened(p)
  {
    var box := m.seal(iv, m.render(p));
    VersionDot(Encode(iv + box));
    DecodeEncode(iv + box);
    hide Encode, Decode, Dot;
    assert m.render(p) != [] && |box| == |m.render(p)| + TAG_BYTES;
    assert (iv + box)[..IV_BYTES] == iv && (iv + box)[IV_BYTES..] == box;
    assert m.open(iv, box) == Some(m.render(p));
  }

  /** A token that opens is, character for character, one that sealing its own plain text would have issued. */
  lemma OnlySealsOpen(m: Machinery, token: string, now: int)
    requires Lawful(m) && (Open(m, token, now).Opened? || Open(m, token, now).Expired?)
    ensures exists iv, plain :: |iv| == IV_BYTES && token == VERSION + "." + Encode(iv + m.seal(iv, plain)) &&
              m.parse(plain).Some? && Read(m.parse(plain).value).Some? &&
              (Open(m, token, now).Opened? ==> Read(m.parse(plain).value) == Some(Open(m, token, now).payload))
  {
    var dot := Dot(token);
    var raw := Decode(token[dot + 1..]);
    var iv, box := raw[..IV_BYTES], raw[IV_BYTES..];
    var plain := m.open(iv, box).value;
    hide Encode, Decode, Dot;
    assert box == m.seal(iv, plain);
    assert raw == iv + box;
    assert token == token[..dot] + "." + token[dot + 1..];
  }

  /** The text of a token: the version, a dot, and the strict text of more bytes than a nonce and a tag. */
  predicate Shaped(token: string) {
    |token| >= 3 && token[..3] == "q1." && Canonical(token[3..]) && |Decode(token[3..])| > 28
  }

  /** The parsed members that the reader accepts. */
  predicate WellTyped(f: Fields) {
    && f.u.Str? && f.u.s != "" && f.c.Str? && f.c.s != "" && f.o.Str? && f.f.Str? && f.f.s != ""
    && f.a.Int? && -9007199254740991 <= f.a.n <= 9007199254740991 && f.x.Int? && -9007199254740991 <= f.x.n <= 9007199254740991
  }

  lemma DotAt(token: string)
    ensures Dot(token) == 2 < |token| && token[..2] == VERSION <==> |token| >= 3 && token[..3] == "q1."
  {
    if Dot(token) == 2 < |token| && token[..2] == VERSION {
      assert token[..3] == token[..2] + [token[2]];
    }
    if |token| >= 3 && token[..3] == "q1." {
      VersionDot(token[3..]);
      assert token == VERSION + "." + token[3..];
    }
  }

  lemma VersionHasNoDot(token: string)
    requires Dot(token) < |token| && token[..Dot(token)] == VERSION
    ensures Dot(token) == 2
  {
    assert |token[..Dot(token)]| == Dot(token);
  }

  /** A token is malformed exactly when its text is; a well-shaped one is a bad seal exactly when it does not open to well-typed members. */
  lemma RefusalsTold(m: Machinery, token: string, now: int)
    ensures Open(m, token, now) == Malformed <==> !Shaped(token)
    ensures Shaped(token) ==>
              var raw := Decode(token[3..]);
              var plain := m.open(raw[..12], raw[12..]);
              (Open(m, token, now) == BadSeal <==> plain.None? || m.parse(plain.value).None? || !WellTyped(m.parse(plain.value).value))
  {
    DotAt(token);
    if Dot(token) < |token| && token[..Dot(token)] == VERSION {
      VersionHasNoDot(token);
    }
    hide Dot, Decode, Encode;
  }
}
