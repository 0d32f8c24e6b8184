/** Signing secrets and signature headers: what the platform emits
    (`app/webhook_security.py`) and what the receiver SDK accepts
    (`sdk/python/src/webhook_platform_sdk/receiver.py`). The keyed hash is a
    parameter. */
module Signatures {
  import opened Base
  import opened Text
  import opened Encoding

  type Mac = (Bytes, Bytes) -> Bytes

  ghost predicate Mac256(mac: Mac) { forall k, m :: |mac(k, m)| == 32 }

  /** Two different messages with the same code under one key. */
  predicate Collision(mac: Mac, key: Bytes, a: Bytes, b: Bytes) { a != b && mac(key, a) == mac(key, b) }

  // ---- secrets ------------------------------------------------------------------------

  function SecretMaterial(endpoint: string, version: nat): string {
    "endpoint:" + endpoint + ":v" + Decimal(version)
  }

  function SecretDigest(mac: Mac, signingKey: string, endpoint: string, version: nat): Bytes {
    mac(Utf8(signingKey), Utf8(SecretMaterial(endpoint, version)))
  }

  function RStrip(s: string, c: char): string {
    if s != [] && s[|s| - 1] == c then RStrip(s[..|s| - 1], c) else s
  }

  function LegacySecret(digest: Bytes): string { "whsec_" + RStrip(Base64Url(digest), '=') }

  function StandardSecret(digest: Bytes): string { "whsec_" + Base64(digest) }

  /** The key behind either form of a secret, if it decodes. */
  function SecretKeyBytes(secret: string): Option<Bytes> {
    if !("whsec_" <= secret) then None
    else
      var padded := Padded(secret[6..]);
      var plain := Base64Decode(padded);
      if plain.Some? then plain else Base64Decode(FromUrl(padded))
  }

  lemma {:induction false} RStripPadding(data: string, n: nat, c: char)
    requires data == [] || data[|data| - 1] != c
    ensures RStrip(data + Repeat(c, n), c) == data
  {
    var s := data + Repeat(c, n);
    if n == 0 {
      assert s == data;
    } else {
      assert s[..|s| - 1] == data + Repeat(c, n - 1);
      RStripPadding(data, n - 1, c);
    }
  }

  /** Stripping and restoring the padding of the URL-safe form. */
  lemma UrlPadding(b: Bytes)
    ensures Padded(RStrip(Base64Url(b), '=')) == Base64Url(b)
  {
    var data := Base64Data(b);
    var n := (4 - |data| % 4) % 4;
    assert Base64Url(b) == ToUrl(data) + Repeat('=', n);
    DataSymbols(b);
    assert data != [] ==> ToUrl(data)[|data| - 1] != '=';
    RStripPadding(ToUrl(data), n, '=');
  }

  /** Both forms of a secret decode to the same digest. */
  lemma BothFormsDecode(digest: Bytes)
    ensures SecretKeyBytes(StandardSecret(digest)) == Some(digest)
    ensures SecretKeyBytes(LegacySecret(digest)) == Some(digest)
  {
    StandardDecodes(digest);
    LegacyDecodes(digest);
  }

  lemma StandardDecodes(digest: Bytes)
    ensures SecretKeyBytes(StandardSecret(digest)) == Some(digest)
  {
    var s := StandardSecret(digest);
    assert s[6..] == Base64(digest) && Padded(Base64(digest)) == Base64(digest);
    Base64RoundTrip(digest);
  }

  lemma LegacyDecodes(digest: Bytes)
    ensures SecretKeyBytes(LegacySecret(digest)) == Some(digest)
  {
    var l := LegacySecret(digest);
    assert l[6..] == RStrip(Base64Url(digest), '=');
    Base64RoundTrip(digest);
    UrlPadding(digest);
    UrlForm(digest);
  }

  /** Different endpoints or versions never share secret material. */
  lemma MaterialDetermines(e1: string, v1: nat, e2: string, v2: nat)
    requires SecretMaterial(e1, v1) == SecretMaterial(e2, v2)
    ensures e1 == e2 && v1 == v2
  {
    var p := "endpoint:";
    assert SecretMaterial(e1, v1) == p + e1 + [':'] + ("v" + Decimal(v1));
    assert SecretMaterial(e2, v2) == p + e2 + [':'] + ("v" + Decimal(v2));
    LastSeparator(p + e1, "v" + Decimal(v1), p + e2, "v" + Decimal(v2), ':');
    assert (p + e1)[9..] == e1 && (p + e2)[9..] == e2;
    assert ("v" + Decimal(v1))[1..] == Decimal(v1) && ("v" + Decimal(v2))[1..] == Decimal(v2);
    DecimalInjective(v1, v2);
  }

  lemma PlainMaterial(endpoint: string, version: nat)
    requires IsAscii(endpoint)
    ensures IsAscii(SecretMaterial(endpoint, version))
  {
    DigitsArePlain(version);
  }

  /** Under one signing key, two secrets are equal exactly for the same endpoint
      and version, unless their two materials collide. */
  lemma DigestDetermines(mac: Mac, signingKey: string, e1: string, v1: nat, e2: string, v2: nat)
    requires IsAscii(e1) && IsAscii(e2)
    ensures SecretDigest(mac, signingKey, e1, v1) == SecretDigest(mac, signingKey, e2, v2) <==>
              || (e1 == e2 && v1 == v2)
              || Collision(mac, Utf8(signingKey), Utf8(SecretMaterial(e1, v1)), Utf8(SecretMaterial(e2, v2)))
  {
    if Utf8(SecretMaterial(e1, v1)) == Utf8(SecretMaterial(e2, v2)) {
      PlainMaterial(e1, v1);
      PlainMaterial(e2, v2);
      AsciiInjective(SecretMaterial(e1, v1), SecretMaterial(e2, v2));
      MaterialDetermines(e1, v1, e2, v2);
    }
  }

  // ---- the legacy header -----------------------------------------------------------------

  datatype Parts = Parts(timestamp: Option<nat>, signatures: seq<string>)

  predicate AllHex(s: string) { forall c :: c in s ==> IsHexChar(c) }

  /** One `name=value` item; nothing if it is malformed. */
  function ReadItem(p: Parts, item: string): Option<Parts> {
    var (name, found, value) := Partition(Strip(item), '=');
    if !found || value == "" then None
    else if name == "t" then
      if p.timestamp.Some? || !AllDigits(value) then None else Some(p.(timestamp := Some(ParseDecimal(value))))
    else if name == "v1" && |value| == 64 then
      if AllHex(value) then Some(p.(signatures := p.signatures + [Lower(value)])) else None
    else Some(p)
  }

  function ReadItems(p: Parts, items: seq<string>): Option<Parts>
    decreases |items|
  {
    if items == [] then Some(p)
    else
      var q := ReadItem(p, items[0]);
      if q.None? then None else ReadItems(q.value, items[1..])
  }

  /** A word in the legacy shape: an equals sign before any comma. */
  predicate IsLegacyWord(word: string) { '=' in Partition(word, ',').0 }

  function ReadWords(p: Parts, words: seq<string>): Option<Parts>
    decreases |words|
  {
    if words == [] then Some(p)
    else if !IsLegacyWord(words[0]) then ReadWords(p, words[1..])
    else
      var q := ReadItems(p, SplitOn(words[0], ','));
      if q.None? then None else ReadWords(q.value, words[1..])
  }

  function Complete(p: Option<Parts>): Option<(nat, seq<string>)> {
    if p.None? || p.value.timestamp.None? || p.value.signatures == [] then None
    else Some((p.value.timestamp.value, p.value.signatures))
  }

  function SignatureParts(header: string): Option<(nat, seq<string>)> {
    Complete(ReadWords(Parts(None, []), Words(header)))
  }

  method ParseItem(timestamp: Option<nat>, signatures: seq<string>, item: string)
    returns (ok: bool, newTimestamp: Option<nat>, newSignatures: seq<string>)
    ensures ok == ReadItem(Parts(timestamp, signatures), item).Some?
    ensures ok ==> ReadItem(Parts(timestamp, signatures), item).value == Parts(newTimestamp, newSignatures)
  {
    ok, newTimestamp, newSignatures := true, timestamp, signatures;
    var (name, separator, value) := Partition(Strip(item), '=');
    if !separator || value == "" {
      ok := false;
    } else if name == "t" {
      if timestamp.Some? || !AllDigits(value) {
        ok := false;
      } else {
        newTimestamp := Some(ParseDecimal(value));
      }
    } else if name == "v1" {
      if |value| == 64 {
        if AllHex(value) {
          newSignatures := signatures + [Lower(value)];
        } else {
          ok := false;
        }
      }
    }
  }

  /** The receiver's loop over words and items. */
  method ParseSignatureParts(header: string) returns (r: Option<(nat, seq<string>)>)
    ensures r == SignatureParts(header)
  {
    var timestamp: Option<nat> := None;
    var signatures: seq<string> := [];
    var words := Words(header);
    for i := 0 to |words|
      invariant ReadWords(Parts(None, []), words) == ReadWords(Parts(timestamp, signatures), words[i..])
    {
      assert words[i..][1..] == words[i + 1..];
      if IsLegacyWord(words[i]) {
        var items := SplitOn(words[i], ',');
        ghost var start := Parts(timestamp, signatures);
        for j := 0 to |items|
          invariant ReadItems(start, items) == ReadItems(Parts(timestamp, signatures), items[j..])
        {
          assert items[j..][1..] == items[j + 1..];
          var ok, t, s := ParseItem(timestamp, signatures, items[j]);
          if !ok {
            return None;
          }
          timestamp, signatures := t, s;
        }
      }
    }
    if timestamp.None? || signatures == [] {
      return None;
    }
    return Some((timestamp.value, signatures));
  }

  // ---- the standard header ----------------------------------------------------------------

  predicate IsStandardWord(word: string) {
    var (version, found, value) := Partition(word, ',');
    found && version == "v1" && value != "" && IsAscii(value)
  }

  function StandardOf(words: seq<string>): seq<string> {
    if words == [] then []
    else (if IsStandardWord(words[0]) then [Partition(words[0], ',').2] else []) + StandardOf(words[1..])
  }

  function StandardSignatures(header: string): seq<string> { StandardOf(Words(header)) }

  lemma StandardStep(words: seq<string>, i: nat)
    requires i < |words|
    ensures StandardOf(words[i..])
         == (if IsStandardWord(words[i]) then [Partition(words[i], ',').2] else []) + StandardOf(words[i + 1..])
  {
    assert words[i..][1..] == words[i + 1..];
  }

  method CollectStandardSignatures(header: string) returns (signatures: seq<string>)
    ensures signatures == StandardSignatures(header)
  {
    signatures := [];
    var words := Words(header);
    for i := 0 to |words|
      invariant StandardOf(words) == signatures + StandardOf(words[i..])
    {
      StandardStep(words, i);
      var (version, separator, value) := Partition(words[i], ',');
      if separator && version == "v1" && value != "" && IsAscii(value) {
        signatures := signatures + [value];
      }
    }
  }

  // ---- signing and verification -------------------------------------------------------------

  datatype Verdict = Verified(timestamp: nat) | InvalidSignature | SignatureExpired | BadTolerance | NotAscii

  function LegacyContent(timestamp: nat, body: Bytes): Bytes {
    Utf8(Decimal(timestamp)) + ['.' as int] + body
  }

  function SignLegacy(mac: Mac, body: Bytes, secret: string, timestamp: nat): string {
    "t=" + Decimal(timestamp) + ",v1=" + Hex(mac(Utf8(secret), LegacyContent(timestamp, body)))
  }

  function StandardContent(id: string, timestamp: nat, body: Bytes): Bytes {
    Utf8(id + "." + Decimal(timestamp) + ".") + body
  }

  function SignStandard(mac: Mac, id: string, body: Bytes, key: Bytes, timestamp: nat): string {
    "v1," + Base64(mac(key, StandardContent(id, timestamp, body)))
  }

  predicate TooFar(now: int, timestamp: nat, tolerance: int) {
    now - timestamp > tolerance || timestamp - now > tolerance
  }

  function VerifyLegacy(
    mac: Mac, body: Bytes, header: string, secret: string, tolerance: int, now: int
  ): Verdict {
    if tolerance < 0 then BadTolerance
    else
      var parts := SignatureParts(header);
      if parts.None? then InvalidSignature
      else
        var (timestamp, signatures) := parts.value;
        if TooFar(now, timestamp, tolerance) then SignatureExpired
        else if Hex(mac(Utf8(secret), LegacyContent(timestamp, body))) in signatures then Verified(timestamp)
        else InvalidSignature
  }

  function VerifyStandard(
    mac: Mac, body: Bytes, id: string, timestampHeader: Option<string>, header: string, secret: string,
    tolerance: int, now: int
  ): Verdict {
    if tolerance < 0 then BadTolerance
    else if timestampHeader.None? || timestampHeader.value == "" || !AllDigits(timestampHeader.value) then
      InvalidSignature
    else
      var timestamp := ParseDecimal(timestampHeader.value);
      if TooFar(now, timestamp, tolerance) then SignatureExpired
      else
        var signatures, key := StandardSignatures(header), SecretKeyBytes(secret);
        if signatures == [] || key.None? then InvalidSignature
        else if !IsAscii(id) then NotAscii
        else if Base64(mac(key.value, StandardContent(id, timestamp, body))) in signatures then Verified(timestamp)
        else InvalidSignature
  }

  predicate HasLegacyToken(header: string) { exists w :: w in Words(header) && IsLegacyWord(w) }

  predicate Missing(value: Option<string>) { value.None? || value.value == "" }

  /** The receiver's dispatch on the shape of the signature header. */
  function VerifyRequest(
    mac: Mac, body: Bytes, signature: Option<string>, id: Option<string>, event: Option<string>,
    timestampHeader: Option<string>, secret: string, tolerance: int, now: int
  ): Verdict {
    if Missing(signature) || Missing(id) || Missing(event) then InvalidSignature
    else if HasLegacyToken(signature.value) then
      var verdict := VerifyLegacy(mac, body, signature.value, secret, tolerance, now);
      if verdict.Verified? && timestampHeader != Some(Decimal(verdict.timestamp)) then InvalidSignature else verdict
    else VerifyStandard(mac, body, id.value, timestampHeader, signature.value, secret, tolerance, now)
  }

  // ---- what the emitted headers parse to ---------------------------------------------------------

  lemma PartitionAt(a: string, c: char, b: string)
    requires c !in a
    ensures Partition(a + [c] + b, c) == (a, true, b)
  {
    IndexOfJoin(a, c, b);
    assert (a + [c] + b)[..|a|] == a && (a + [c] + b)[|a| + 1..] == b;
  }

  lemma SplitInTwo(a: string, c: char, b: string)
    requires c !in a && c !in b
    ensures SplitOn(a + [c] + b, c) == [a, b]
  {
    IndexOfJoin(a, c, b);
    IndexOfAbsent(b, c);
    assert (a + [c] + b)[..|a|] == a && (a + [c] + b)[|a| + 1..] == b;
  }

  lemma LowerHex(b: Bytes)
    ensures Lower(Hex(b)) == Hex(b)
  {
    var h := Hex(b);
    forall i | 0 <= i < |h| ensures Lower(h)[i] == h[i] { assert h[i] in h; }
  }

  lemma DigitsArePlain(n: nat)
    ensures var d := Decimal(n); IsAscii(d) && NoSpace(d) && '.' !in d && ',' !in d
  {
  }

  lemma HexIsPlain(b: Bytes)
    ensures var h := Hex(b); AllHex(h) && NoSpace(h) && ',' !in h
  {
  }

  /** An item read by its name and value. */
  lemma ItemSplit(name: string, value: string)
    requires NoSpace(name + "=") && NoSpace(value) && '=' !in name
    ensures NoSpace(name + "=" + value) && Partition(Strip(name + "=" + value), '=') == (name, true, value)
  {
    NoSpaceJoin(name + "=", value);
    StripNoSpace(name + "=" + value);
    PartitionAt(name, '=', value);
  }

  lemma TimeItem(timestamp: nat)
    ensures ReadItem(Parts(None, []), "t=" + Decimal(timestamp)) == Some(Parts(Some(timestamp), []))
    ensures NoSpace("t=" + Decimal(timestamp)) && ',' !in "t=" + Decimal(timestamp)
  {
    DigitsArePlain(timestamp);
    assert "t" + "=" == "t=";
    ItemSplit("t", Decimal(timestamp));
    DecimalRoundTrip(timestamp);
  }

  lemma HashItem(p: Parts, digest: Bytes)
    requires |digest| == 32
    ensures ReadItem(p, "v1=" + Hex(digest)) == Some(p.(signatures := p.signatures + [Hex(digest)]))
    ensures NoSpace("v1=" + Hex(digest)) && ',' !in "v1=" + Hex(digest)
  {
    HexIsPlain(digest);
    assert "v1" + "=" == "v1=";
    ItemSplit("v1", Hex(digest));
    LowerHex(digest);
  }

  lemma TwoItems(p: Parts, a: string, b: string, q: Parts, r: Parts)
    requires ReadItem(p, a) == Some(q) && ReadItem(q, b) == Some(r)
    ensures ReadItems(p, [a, b]) == Some(r)
  {
    assert [a, b][1..] == [b] && [b][1..] == [];
    assert ReadItems(r, []) == Some(r);
  }

  lemma LegacyHeaderParses(timestamp: nat, digest: Bytes)
    requires |digest| == 32
    ensures var header := "t=" + Decimal(timestamp) + ",v1=" + Hex(digest);
            SignatureParts(header) == Some((timestamp, [Hex(digest)])) && HasLegacyToken(header)
  {
    var t, v := "t=" + Decimal(timestamp), "v1=" + Hex(digest);
    var q := Parts(Some(timestamp), []);
    TimeItem(timestamp);
    HashItem(q, digest);
    assert "t=" + Decimal(timestamp) + ",v1=" + Hex(digest) == t + [','] + v;
    assert t[1] == '=';
    TwoItemHeader(t, v, Parts(None, []), q, q.(signatures := q.signatures + [Hex(digest)]));
    assert q.signatures + [Hex(digest)] == [Hex(digest)];
  }

  /** A header of two items is read item by item. */
  lemma TwoItemHeader(t: string, v: string, p: Parts, q: Parts, r: Parts)
    requires NoSpace(t) && NoSpace(v) && ',' !in t && ',' !in v && '=' in t
    requires ReadItem(p, t) == Some(q) && ReadItem(q, v) == Some(r)
    ensures ReadWords(p, Words(t + [','] + v)) == Some(r) && HasLegacyToken(t + [','] + v)
  {
    NoSpaceJoin(t, ",");
    NoSpaceJoin(t + [','], v);
    PartitionAt(t, ',', v);
    SplitInTwo(t, ',', v);
    TwoItems(p, t, v, q, r);
    OneWord(t + [','] + v, p, r);
  }

  lemma OneWord(header: string, p: Parts, r: Parts)
    requires header != [] && NoSpace(header) && IsLegacyWord(header) && ReadItems(p, SplitOn(header, ',')) == Some(r)
    ensures ReadWords(p, Words(header)) == Some(r) && HasLegacyToken(header)
  {
    WordsOfOne(header);
    assert [header][1..] == [];
    assert ReadWords(r, []) == Some(r);
    assert header in Words(header);
  }

  lemma Base64IsPlain(b: Bytes)
    ensures IsAscii(Base64(b)) && NoSpace(Base64(b))
  {
    Base64Chars(b);
  }

  lemma StandardHeaderParses(digest: Bytes)
    requires |digest| == 32
    ensures var header := "v1," + Base64(digest);
            StandardSignatures(header) == [Base64(digest)] && !HasLegacyToken(header)
  {
    var value := Base64(digest);
    var header := "v1," + value;
    Base64IsPlain(digest);
    assert header == "v1" + [','] + value;
    NoSpaceJoin("v1,", value);
    WordsOfOne(header);
    PartitionAt("v1", ',', value);
    DataLength(digest);
    assert [header][1..] == [] && StandardOf([]) == [];
    assert StandardOf([header]) == [value] + [];
  }

  // ---- round trips --------------------------------------------------------------------------------

  /** The answer a genuine request gets: accepted within the tolerance. */
  function Genuine(timestamp: nat, tolerance: int, now: int): Verdict {
    if tolerance < 0 then BadTolerance
    else if TooFar(now, timestamp, tolerance) then SignatureExpired
    else Verified(timestamp)
  }

  /** A legacy delivery verifies with the secret it was signed with, for every
      body, timestamp and secret. */
  lemma LegacyRoundTrip(
    mac: Mac, body: Bytes, secret: string, timestamp: nat, id: string, event: string, tolerance: int, now: int)
    requires Mac256(mac) && id != "" && event != ""
    ensures VerifyRequest(mac, body, Some(SignLegacy(mac, body, secret, timestamp)), Some(id), Some(event),
                          Some(Decimal(timestamp)), secret, tolerance, now)
         == Genuine(timestamp, tolerance, now)
  {
    LegacyHeaderParses(timestamp, mac(Utf8(secret), LegacyContent(timestamp, body)));
  }

  /** A standard delivery verifies with either form of the endpoint's secret. */
  lemma StandardRoundTrip(
    mac: Mac, body: Bytes, key: Bytes, secret: string, timestamp: nat, id: string, event: string,
    tolerance: int, now: int)
    requires Mac256(mac) && id != "" && IsAscii(id) && event != ""
    requires secret == LegacySecret(key) || secret == StandardSecret(key)
    ensures VerifyRequest(mac, body, Some(SignStandard(mac, id, body, key, timestamp)), Some(id), Some(event),
                          Some(Decimal(timestamp)), secret, tolerance, now)
         == Genuine(timestamp, tolerance, now)
  {
    BothFormsDecode(key);
    StandardHeaderParses(mac(key, StandardContent(id, timestamp, body)));
    StandardAccepts(mac, body, key, secret, timestamp, id, tolerance, now);
  }

  lemma StandardAccepts(
    mac: Mac, body: Bytes, key: Bytes, secret: string, timestamp: nat, id: string, tolerance: int, now: int)
    requires Mac256(mac) && IsAscii(id) && SecretKeyBytes(secret) == Some(key)
    ensures VerifyStandard(mac, body, id, Some(Decimal(timestamp)), SignStandard(mac, id, body, key, timestamp),
                           secret, tolerance, now)
         == Genuine(timestamp, tolerance, now)
  {
    StandardHeaderParses(mac(key, StandardContent(id, timestamp, body)));
    DecimalRoundTrip(timestamp);
  }

  // ---- what a signature binds ------------------------------------------------------------------------

  lemma NoPeriod(s: string)
    requires IsAscii(s) && '.' !in s
    ensures '.' as int !in Utf8(s)
  {
    Utf8OfAscii(s);
    forall i | 0 <= i < |s| ensures Utf8(s)[i] != '.' as int { assert s[i] in s; }
  }

  lemma LegacyContentDetermines(t1: nat, body1: Bytes, t2: nat, body2: Bytes)
    requires LegacyContent(t1, body1) == LegacyContent(t2, body2)
    ensures t1 == t2 && body1 == body2
  {
    DigitsArePlain(t1);
    DigitsArePlain(t2);
    NoPeriod(Decimal(t1));
    NoPeriod(Decimal(t2));
    FirstSeparator(Utf8(Decimal(t1)), body1, Utf8(Decimal(t2)), body2, '.' as int);
    AsciiInjective(Decimal(t1), Decimal(t2));
    DecimalInjective(t1, t2);
  }

  lemma PeriodByte()
    ensures Utf8(".") == ['.' as int]
  {
    assert "."[1..] == "";
    assert Utf8("") == [];
  }

  lemma ContentShape(id: string, timestamp: nat, body: Bytes)
    ensures StandardContent(id, timestamp, body) == Utf8(id) + ['.' as int] + LegacyContent(timestamp, body)
  {
    var d := Decimal(timestamp);
    var dot := ['.' as int];
    PeriodByte();
    Utf8Append(id + "." + d, ".");
    Utf8Append(id + ".", d);
    Utf8Append(id, ".");
    var u, v: Bytes := Utf8(id), Utf8(d);
    assert StandardContent(id, timestamp, body) == u + dot + v + dot + body;
    Regroup(u, dot, v, dot, body);
  }

  lemma Regroup(a: Bytes, b: Bytes, c: Bytes, d: Bytes, e: Bytes)
    ensures a + b + c + d + e == a + b + (c + d + e)
  {
  }

  lemma ContentJoin(a: string, rest: string, timestamp: nat, body: Bytes)
    ensures StandardContent(a + "." + rest, timestamp, body)
         == Utf8(a) + ['.' as int] + StandardContent(rest, timestamp, body)
  {
    PeriodByte();
    ContentShape(a + "." + rest, timestamp, body);
    ContentShape(rest, timestamp, body);
    Utf8Append(a + ".", rest);
    Utf8Append(a, ".");
    var dot := ['.' as int];
    Regroup(Utf8(a), dot, Utf8(rest), dot, LegacyContent(timestamp, body));
  }

  /** Content that begins with a field without periods gives that field as the
      first field of the id. */
  lemma FirstField(a: string, tail: Bytes, id: string, timestamp: nat, body: Bytes) returns (rest: string)
    requires IsAscii(a) && '.' !in a && IsAscii(id)
    requires Utf8(a) + ['.' as int] + tail == StandardContent(id, timestamp, body)
    ensures '.' !in id ==> id == a && tail == LegacyContent(timestamp, body)
    ensures '.' in id ==>
              id == a + "." + rest && IsAscii(rest) && tail == StandardContent(rest, timestamp, body)
  {
    rest := "";
    NoPeriod(a);
    if '.' !in id {
      NoPeriod(id);
      ContentShape(id, timestamp, body);
      FirstSeparator(Utf8(a), tail, Utf8(id), LegacyContent(timestamp, body), '.' as int);
      AsciiInjective(a, id);
    } else {
      var first := FirstOf(id, '.');
      rest := id[|first| + 1..];
      assert id == first + "." + rest && IsAscii(first) && IsAscii(rest) by {
        forall ch | ch in first || ch in rest ensures ch in id {}
      }
      NoPeriod(first);
      ContentJoin(first, rest, timestamp, body);
      FirstSeparator(Utf8(a), tail, Utf8(first), StandardContent(rest, timestamp, body), '.' as int);
      AsciiInjective(a, first);
    }
  }

  lemma {:induction false} FirstOf(s: string, c: char) returns (first: string)
    requires c in s
    ensures c !in first && |first| < |s| && first == s[..|first|] && s == first + [c] + s[|first| + 1..]
  {
    if s[0] == c {
      first := "";
    } else {
      first := FirstOf(s[1..], c);
      first := [s[0]] + first;
    }
  }

  /** How content signed for an id without periods reads for another triple: it
      is the same triple, or the received id repeats the signed timestamp and
      more of the signed body after a period. */
  ghost predicate ReadsAs(id: string, t: nat, body: Bytes, seenId: string, seenTime: nat, seen: Bytes) {
    || (seenId == id && seenTime == t && seen == body)
    || (seenId == id + "." + Decimal(t) && body == LegacyContent(seenTime, seen))
    || (exists w: string :: ReadsBeyond(id, t, body, seenId, seenTime, seen, w))
  }

  predicate ReadsBeyond(
    id: string, t: nat, body: Bytes, seenId: string, seenTime: nat, seen: Bytes, w: string)
  {
    IsAscii(w) && seenId == id + "." + (Decimal(t) + "." + w) && body == StandardContent(w, seenTime, seen)
  }

  /** Exactly when two triples have the same signed content. */
  lemma ContentReadsAs(id: string, t: nat, body: Bytes, seenId: string, seenTime: nat, seen: Bytes)
    requires IsAscii(id) && '.' !in id && IsAscii(seenId)
    ensures StandardContent(id, t, body) == StandardContent(seenId, seenTime, seen)
       <==> ReadsAs(id, t, body, seenId, seenTime, seen)
  {
    if StandardContent(id, t, body) == StandardContent(seenId, seenTime, seen) {
      SameContentReads(id, t, body, seenId, seenTime, seen);
    }
    if ReadsAs(id, t, body, seenId, seenTime, seen) {
      ReadsSameContent(id, t, body, seenId, seenTime, seen);
    }
  }

  lemma SameContentReads(id: string, t: nat, body: Bytes, seenId: string, seenTime: nat, seen: Bytes)
    requires IsAscii(id) && '.' !in id && IsAscii(seenId)
    requires StandardContent(id, t, body) == StandardContent(seenId, seenTime, seen)
    ensures ReadsAs(id, t, body, seenId, seenTime, seen)
  {
    ContentShape(id, t, body);
    var rest := FirstField(id, LegacyContent(t, body), seenId, seenTime, seen);
    if '.' !in seenId {
      LegacyContentDetermines(t, body, seenTime, seen);
    } else {
      DigitsArePlain(t);
      var w := FirstField(Decimal(t), body, rest, seenTime, seen);
      if '.' in rest {
        assert rest == Decimal(t) + "." + w;
        assert ReadsBeyond(id, t, body, seenId, seenTime, seen, w);
      }
    }
  }

  lemma ReadsSameContent(id: string, t: nat, body: Bytes, seenId: string, seenTime: nat, seen: Bytes)
    requires ReadsAs(id, t, body, seenId, seenTime, seen)
    ensures StandardContent(id, t, body) == StandardContent(seenId, seenTime, seen)
  {
    ContentShape(id, t, body);
    if seenId == id + "." + Decimal(t) && body == LegacyContent(seenTime, seen) {
      ContentJoin(id, Decimal(t), seenTime, seen);
      ContentShape(Decimal(t), seenTime, seen);
    } else if exists w: string :: ReadsBeyond(id, t, body, seenId, seenTime, seen, w) {
      var w: string :| ReadsBeyond(id, t, body, seenId, seenTime, seen, w);
      ContentJoin(id, Decimal(t) + "." + w, seenTime, seen);
      ContentJoin(Decimal(t), w, seenTime, seen);
    }
  }

  /** A legacy signature is accepted, within the tolerance, exactly for the body
      that was signed, unless two contents collide. */
  lemma LegacyBinds(
    mac: Mac, secret: string, body: Bytes, timestamp: nat, seen: Bytes, tolerance: int, now: int)
    requires Mac256(mac)
    ensures VerifyLegacy(mac, seen, SignLegacy(mac, body, secret, timestamp), secret, tolerance, now).Verified?
       <==> && tolerance >= 0 && !TooFar(now, timestamp, tolerance)
            && (seen == body
                || Collision(mac, Utf8(secret), LegacyContent(timestamp, seen), LegacyContent(timestamp, body)))
  {
    var a, b := LegacyContent(timestamp, seen), LegacyContent(timestamp, body);
    LegacyHeaderParses(timestamp, mac(Utf8(secret), b));
    if Hex(mac(Utf8(secret), a)) == Hex(mac(Utf8(secret), b)) {
      HexInjective(mac(Utf8(secret), a), mac(Utf8(secret), b));
    }
    if a == b { LegacyContentDetermines(timestamp, seen, timestamp, body); }
  }

  /** Without a period in the ids, the signed content determines id, timestamp
      and body. */
  lemma StandardContentDetermines(id1: string, t1: nat, body1: Bytes, id2: string, t2: nat, body2: Bytes)
    requires IsAscii(id1) && IsAscii(id2) && '.' !in id1 && '.' !in id2
    requires StandardContent(id1, t1, body1) == StandardContent(id2, t2, body2)
    ensures id1 == id2 && t1 == t2 && body1 == body2
  {
    ContentReadsAs(id1, t1, body1, id2, t2, body2);
    if !(id2 == id1 && t2 == t1 && body2 == body1) { PeriodInside(id1, t1, body1, id2, t2, body2); }
  }

  predicate ReadableTime(header: Option<string>) { header.Some? && header.value != "" && AllDigits(header.value) }

  /** A signature made for an id without periods is accepted, within the
      tolerance, exactly for what its content reads as, unless the two contents
      collide. */
  lemma StandardAcceptedIff(
    mac: Mac, key: Bytes, secret: string, id: string, body: Bytes, timestamp: nat,
    seenId: string, seenTime: Option<string>, seen: Bytes, tolerance: int, now: int)
    requires Mac256(mac) && SecretKeyBytes(secret) == Some(key) && IsAscii(id) && '.' !in id
    ensures VerifyStandard(mac, seen, seenId, seenTime, SignStandard(mac, id, body, key, timestamp), secret,
                           tolerance, now).Verified?
       <==> && tolerance >= 0 && ReadableTime(seenTime) && IsAscii(seenId)
            && var time := ParseDecimal(seenTime.value);
               && !TooFar(now, time, tolerance)
               && (|| ReadsAs(id, timestamp, body, seenId, time, seen)
                   || Collision(mac, key, StandardContent(id, timestamp, body), StandardContent(seenId, time, seen)))
  {
    StandardHeaderParses(mac(key, StandardContent(id, timestamp, body)));
    if ReadableTime(seenTime) && IsAscii(seenId) {
      var time := ParseDecimal(seenTime.value);
      SameDigest(mac, key, StandardContent(id, timestamp, body), StandardContent(seenId, time, seen));
      ContentReadsAs(id, timestamp, body, seenId, time, seen);
    }
  }

  lemma SameDigest(mac: Mac, key: Bytes, a: Bytes, b: Bytes)
    ensures Base64(mac(key, a)) == Base64(mac(key, b)) <==> a == b || Collision(mac, key, a, b)
  {
    Base64RoundTrip(mac(key, a));
    Base64RoundTrip(mac(key, b));
  }

  /** Unless the two contents collide, an accepted request is the signed one
      exactly when the received id has no period. */
  lemma StandardBinds(
    mac: Mac, key: Bytes, secret: string, id: string, body: Bytes, timestamp: nat,
    seenId: string, seenTime: Option<string>, seen: Bytes, tolerance: int, now: int)
    requires Mac256(mac) && SecretKeyBytes(secret) == Some(key) && IsAscii(id) && '.' !in id
    requires VerifyStandard(mac, seen, seenId, seenTime, SignStandard(mac, id, body, key, timestamp), secret,
                            tolerance, now).Verified?
    ensures ReadableTime(seenTime)
    ensures var time := ParseDecimal(seenTime.value);
            || Collision(mac, key, StandardContent(id, timestamp, body), StandardContent(seenId, time, seen))
            || ('.' !in seenId <==> seenId == id && seen == body && time == timestamp)
  {
    StandardAcceptedIff(mac, key, secret, id, body, timestamp, seenId, seenTime, seen, tolerance, now);
    var time := ParseDecimal(seenTime.value);
    if ReadsAs(id, timestamp, body, seenId, time, seen) && !(seenId == id && time == timestamp && seen == body) {
      PeriodInside(id, timestamp, body, seenId, time, seen);
    }
  }

  lemma PeriodInside(id: string, t: nat, body: Bytes, seenId: string, seenTime: nat, seen: Bytes)
    requires ReadsAs(id, t, body, seenId, seenTime, seen) && !(seenId == id && seenTime == t && seen == body)
    ensures '.' in seenId
  {
    if seenId == id + "." + Decimal(t) && body == LegacyContent(seenTime, seen) {
      assert seenId[|id|] == '.';
    } else {
      var w: string :| ReadsBeyond(id, t, body, seenId, seenTime, seen, w);
      assert seenId[|id|] == '.';
    }
  }

  /** A signature that is accepted for an id nobody signed: any signed body that
      begins with a number and a period. */
  lemma UnsignedIdAccepted(
    mac: Mac, key: Bytes, secret: string, id: string, timestamp: nat, seenTime: nat, seen: Bytes,
    tolerance: int, now: int)
    requires Mac256(mac) && SecretKeyBytes(secret) == Some(key)
    requires IsAscii(id) && '.' !in id && tolerance >= 0 && !TooFar(now, seenTime, tolerance)
    ensures var header := SignStandard(mac, id, LegacyContent(seenTime, seen), key, timestamp);
            var seenId := id + "." + Decimal(timestamp);
            && seenId != id
            && VerifyStandard(mac, seen, seenId, Some(Decimal(seenTime)), header, secret, tolerance, now).Verified?
  {
    var seenId := id + "." + Decimal(timestamp);
    DigitsArePlain(timestamp);
    DecimalRoundTrip(seenTime);
    assert |seenId| > |id|;
    StandardAcceptedIff(mac, key, secret, id, LegacyContent(seenTime, seen), timestamp, seenId,
                        Some(Decimal(seenTime)), seen, tolerance, now);
  }
}
