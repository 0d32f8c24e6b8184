/** What the receiver reads in a signature header, said without the parsing
    loops: which headers are readable, and which requests are accepted. */
module Headers {
  import opened Base
  import opened Text
  import opened Encoding
  import opened Signatures

  // ---- words and items ----------------------------------------------------------------

  /** A stretch without whitespace that cannot be made longer. */
  predicate IsRun(s: string, i: nat, j: nat) {
    && i < j <= |s| && (forall k :: i <= k < j ==> !IsSpace(s[k]))
    && (i == 0 || IsSpace(s[i - 1])) && (j == |s| || IsSpace(s[j]))
  }

  /** The words of a text are exactly its maximal runs without whitespace. */
  lemma {:induction false} WordsAreRuns(s: string, w: string)
    ensures w in Words(s) <==> exists i: nat, j: nat :: IsRun(s, i, j) && s[i..j] == w
    decreases |s|
  {
    if s != [] {
      var n := if IsSpace(s[0]) then 1 else WordLength(s);
      if !IsSpace(s[0]) { assert forall k :: 0 <= k < n ==> s[k] == s[..n][k]; }
      WordsAreRuns(s[n..], w);
      if exists i: nat, j: nat :: IsRun(s[n..], i, j) && s[n..][i..j] == w { RunAfter(s, n, w); }
      if exists i: nat, j: nat :: IsRun(s, i, j) && s[i..j] == w { RunBefore(s, n, w); }
      if !IsSpace(s[0]) { assert IsRun(s, 0, n) && s[0..n] == s[..n]; }
    }
  }

  lemma RunAfter(s: string, n: nat, w: string)
    requires 0 < n <= |s| && (IsSpace(s[n - 1]) || n == |s| || IsSpace(s[n]))
    requires exists i: nat, j: nat :: IsRun(s[n..], i, j) && s[n..][i..j] == w
    ensures exists i: nat, j: nat :: IsRun(s, i, j) && s[i..j] == w
  {
    var i: nat, j: nat :| IsRun(s[n..], i, j) && s[n..][i..j] == w;
    assert s[n + i..n + j] == s[n..][i..j];
    forall k | n + i <= k < n + j ensures !IsSpace(s[k]) { assert s[k] == s[n..][k - n]; }
    assert IsRun(s, n + i, n + j);
  }

  /** A run is the first word or lies after it. */
  lemma RunBefore(s: string, n: nat, w: string)
    requires 0 < n <= |s| && (IsSpace(s[0]) ==> n == 1) && (!IsSpace(s[0]) ==> forall k :: 0 <= k < n ==> !IsSpace(s[k]))
    requires n == |s| || IsSpace(s[n]) || IsSpace(s[0])
    requires exists i: nat, j: nat :: IsRun(s, i, j) && s[i..j] == w
    ensures (!IsSpace(s[0]) && w == s[..n]) || exists i: nat, j: nat :: IsRun(s[n..], i, j) && s[n..][i..j] == w
  {
    var i: nat, j: nat :| IsRun(s, i, j) && s[i..j] == w;
    if i < n {
      assert i == 0 && j == n;
    } else {
      assert s[n..][i - n..j - n] == s[i..j];
      assert IsRun(s[n..], i - n, j - n);
    }
  }

  /** Parts without the separator, and their join. */
  function Joined(parts: seq<string>, c: char): string
    requires parts != []
  {
    if |parts| == 1 then parts[0] else parts[0] + [c] + Joined(parts[1..], c)
  }

  /** Splitting is undone by joining, and no part holds the separator. */
  lemma {:induction false} SplitJoins(s: string, c: char)
    ensures Joined(SplitOn(s, c), c) == s
    ensures forall i :: 0 <= i < |SplitOn(s, c)| ==> c !in SplitOn(s, c)[i]
    decreases |s|
  {
    var i := IndexOf(s, c);
    if i < |s| {
      SplitJoins(s[i + 1..], c);
      var r := SplitOn(s, c);
      assert r[1..] == SplitOn(s[i + 1..], c);
      assert s == s[..i] + [c] + s[i + 1..];
    } else {
      assert s[..i] == s;
    }
  }

  /** An equals sign before any comma. */
  predicate EqualsFirst(word: string) {
    exists i :: 0 <= i < |word| && word[i] == '=' && forall j :: 0 <= j < i ==> word[j] != ','
  }

  lemma LegacyWordIff(word: string)
    ensures IsLegacyWord(word) <==> EqualsFirst(word)
  {
    var n := IndexOf(word, ',');
    var head := Partition(word, ',').0;
    assert head == word[..n];
    if IsLegacyWord(word) {
      var i :| 0 <= i < |head| && head[i] == '=';
      forall j | 0 <= j < i ensures word[j] != ',' { assert word[j] == head[j] && head[j] in head; }
      assert word[i] == '=';
    }
    if EqualsFirst(word) {
      var i :| 0 <= i < |word| && word[i] == '=' && forall j :: 0 <= j < i ==> word[j] != ',';
      assert head[i] == '=';
    }
  }

  /** The comma-separated items of the words in the legacy shape, in order. */
  ghost function ItemsOf(words: seq<string>): seq<string> {
    if words == [] then []
    else (if EqualsFirst(words[0]) then SplitOn(words[0], ',') else []) + ItemsOf(words[1..])
  }

  ghost function Items(header: string): seq<string> { ItemsOf(Words(header)) }

  // ---- one item ---------------------------------------------------------------------------

  predicate Named(item: string, name: string, value: string) {
    Strip(item) == name + "=" + value && '=' !in name
  }

  lemma NamedIff(item: string, name: string, value: string)
    ensures Named(item, name, value) <==> Partition(Strip(item), '=') == (name, true, value)
  {
    var s := Strip(item);
    if Named(item, name, value) { PartitionAt(name, '=', value); }
    if Partition(s, '=') == (name, true, value) {
      assert s == s[..IndexOf(s, '=')] + "=" + s[IndexOf(s, '=') + 1..];
    }
  }

  /** A name and a value; a time is digits, a full-length hash is hexadecimal. */
  ghost predicate GoodItem(item: string) {
    exists name, value :: Named(item, name, value) && value != ""
                          && (name == "t" ==> AllDigits(value))
                          && (name == "v1" && |value| == 64 ==> AllHex(value))
  }

  ghost predicate IsTime(item: string) { exists value :: Named(item, "t", value) }

  ghost predicate TimeIs(item: string, t: nat) {
    exists value :: Named(item, "t", value) && value != "" && AllDigits(value) && ParseDecimal(value) == t
  }

  /** The item gives this hash, in any case of letters. */
  ghost predicate GivesHash(item: string, hash: string) {
    exists value :: Named(item, "v1", value) && |value| == 64 && AllHex(value) && Lower(value) == hash
  }

  lemma ItemMeans(p: Parts, item: string)
    ensures ReadItem(p, item).Some? <==> GoodItem(item) && (IsTime(item) ==> p.timestamp.None?)
    ensures ReadItem(p, item).Some? && !IsTime(item) ==> ReadItem(p, item).value.timestamp == p.timestamp
    ensures ReadItem(p, item).Some? && IsTime(item) ==>
              ReadItem(p, item).value.timestamp.Some? && TimeIs(item, ReadItem(p, item).value.timestamp.value)
  {
    var (name, found, value) := Partition(Strip(item), '=');
    forall n, v ensures Named(item, n, v) <==> found && n == name && v == value { NamedIff(item, n, v); }
    if found && value != "" {
      assert Named(item, name, value);
    }
  }

  lemma ItemHashes(p: Parts, item: string, hash: string)
    requires ReadItem(p, item).Some?
    ensures hash in ReadItem(p, item).value.signatures <==> hash in p.signatures || GivesHash(item, hash)
  {
    var (name, found, value) := Partition(Strip(item), '=');
    forall n, v ensures Named(item, n, v) <==> found && n == name && v == value { NamedIff(item, n, v); }
    assert Named(item, name, value);
  }

  // ---- all items ---------------------------------------------------------------------------

  ghost predicate AllGood(items: seq<string>) { forall i :: 0 <= i < |items| ==> GoodItem(items[i]) }

  ghost predicate NoTime(items: seq<string>) { forall i :: 0 <= i < |items| ==> !IsTime(items[i]) }

  /** The item at `i` is the only time. */
  ghost predicate TimeAt(items: seq<string>, i: nat, t: nat) {
    i < |items| && TimeIs(items[i], t) && forall j :: 0 <= j < |items| && j != i ==> !IsTime(items[j])
  }

  ghost predicate OneTime(items: seq<string>, t: nat) { exists i: nat :: TimeAt(items, i, t) }

  ghost predicate AnyGives(items: seq<string>, hash: string) {
    exists i :: 0 <= i < |items| && GivesHash(items[i], hash)
  }

  lemma {:induction false} ItemsMean(p: Parts, items: seq<string>)
    ensures ReadItems(p, items).Some? <==>
              AllGood(items) && (NoTime(items) || (p.timestamp.None? && exists t :: OneTime(items, t)))
    ensures ReadItems(p, items).Some? && NoTime(items) ==> ReadItems(p, items).value.timestamp == p.timestamp
    ensures ReadItems(p, items).Some? && !NoTime(items) ==>
              ReadItems(p, items).value.timestamp.Some? && OneTime(items, ReadItems(p, items).value.timestamp.value)
    decreases |items|
  {
    if items != [] {
      var item, rest := items[0], items[1..];
      assert items == [item] + rest;
      ItemMeans(p, item);
      var q := ReadItem(p, item);
      if q.Some? { ItemsMean(q.value, rest); }
      FirstOrRest(item, rest);
      GoodTime(item);
      if GoodItem(item) && IsTime(item) && NoTime(rest) {
        var t :| TimeIs(item, t);
        assert OneTime(items, t);
      }
      if !IsTime(item) && exists t :: OneTime(rest, t) {
        var t :| OneTime(rest, t);
        assert OneTime(items, t);
      }
    }
  }

  lemma GoodTime(item: string)
    ensures GoodItem(item) && IsTime(item) ==> exists t :: TimeIs(item, t)
    ensures forall t :: TimeIs(item, t) ==> IsTime(item)
  {
    if GoodItem(item) && IsTime(item) {
      var name, value :| Named(item, name, value) && value != "" && (name == "t" ==> AllDigits(value));
      var other :| Named(item, "t", other);
      NamedIff(item, name, value);
      NamedIff(item, "t", other);
      assert TimeIs(item, ParseDecimal(value));
    }
  }

  /** Where the one time of a list can be. */
  lemma FirstOrRest(item: string, rest: seq<string>)
    ensures AllGood([item] + rest) <==> GoodItem(item) && AllGood(rest)
    ensures NoTime([item] + rest) <==> !IsTime(item) && NoTime(rest)
    ensures forall t :: OneTime([item] + rest, t) <==>
              (TimeIs(item, t) && NoTime(rest)) || (!IsTime(item) && OneTime(rest, t))
  {
    GoodSplits(item, rest);
    TimesSplit(item, rest);
    forall t ensures OneTime([item] + rest, t) <==>
                       (TimeIs(item, t) && NoTime(rest)) || (!IsTime(item) && OneTime(rest, t)) {
      if OneTime([item] + rest, t) { OneTimeSplits(item, rest, t); }
      if (TimeIs(item, t) && NoTime(rest)) || (!IsTime(item) && OneTime(rest, t)) { OneTimeJoins(item, rest, t); }
    }
  }

  lemma GoodSplits(item: string, rest: seq<string>)
    ensures AllGood([item] + rest) <==> GoodItem(item) && AllGood(rest)
  {
    var items := [item] + rest;
    if AllGood(items) {
      assert GoodItem(items[0]);
      forall i | 0 <= i < |rest| ensures GoodItem(rest[i]) { assert GoodItem(items[i + 1]); }
    }
  }

  lemma TimesSplit(item: string, rest: seq<string>)
    ensures NoTime([item] + rest) <==> !IsTime(item) && NoTime(rest)
  {
    var items := [item] + rest;
    if NoTime(items) {
      assert !IsTime(items[0]);
      forall i | 0 <= i < |rest| ensures !IsTime(rest[i]) { assert !IsTime(items[i + 1]); }
    }
  }

  lemma OneTimeSplits(item: string, rest: seq<string>, t: nat)
    requires OneTime([item] + rest, t)
    ensures (TimeIs(item, t) && NoTime(rest)) || (!IsTime(item) && OneTime(rest, t))
  {
    var items := [item] + rest;
    var i: nat :| TimeAt(items, i, t);
    forall j | 0 <= j < |rest| && j + 1 != i ensures !IsTime(rest[j]) { assert !IsTime(items[j + 1]); }
    if i > 0 {
      assert !IsTime(items[0]);
      assert TimeAt(rest, i - 1, t);
    }
  }

  lemma OneTimeJoins(item: string, rest: seq<string>, t: nat)
    requires (TimeIs(item, t) && NoTime(rest)) || (!IsTime(item) && OneTime(rest, t))
    ensures OneTime([item] + rest, t)
  {
    var items := [item] + rest;
    if TimeIs(item, t) && NoTime(rest) {
      assert TimeAt(items, 0, t);
    } else {
      var i: nat :| TimeAt(rest, i, t);
      assert TimeAt(items, i + 1, t);
    }
  }

  lemma {:induction false} ItemsHashes(p: Parts, items: seq<string>, hash: string)
    requires ReadItems(p, items).Some?
    ensures hash in ReadItems(p, items).value.signatures <==> hash in p.signatures || AnyGives(items, hash)
    decreases |items|
  {
    if items != [] {
      assert items == [items[0]] + items[1..];
      ItemHashes(p, items[0], hash);
      ItemsHashes(ReadItem(p, items[0]).value, items[1..], hash);
    }
  }

  lemma {:induction false} ItemsJoin(p: Parts, a: seq<string>, b: seq<string>)
    ensures ReadItems(p, a + b) == var q := ReadItems(p, a); if q.None? then None else ReadItems(q.value, b)
    decreases |a|
  {
    if a == [] {
      assert a + b == b;
    } else {
      assert (a + b)[1..] == a[1..] + b;
      var q := ReadItem(p, a[0]);
      if q.Some? { ItemsJoin(q.value, a[1..], b); }
    }
  }

  /** Reading word by word reads the items one after the other. */
  lemma {:induction false} WordsAsItems(p: Parts, words: seq<string>)
    ensures ReadWords(p, words) == ReadItems(p, ItemsOf(words))
    decreases |words|
  {
    if words != [] {
      LegacyWordIff(words[0]);
      if EqualsFirst(words[0]) {
        var items := SplitOn(words[0], ',');
        ItemsJoin(p, items, ItemsOf(words[1..]));
        var q := ReadItems(p, items);
        if q.Some? { WordsAsItems(q.value, words[1..]); }
      } else {
        assert [] + ItemsOf(words[1..]) == ItemsOf(words[1..]);
        WordsAsItems(p, words[1..]);
      }
    }
  }

  // ---- headers ----------------------------------------------------------------------------------

  /** A header is readable, with the time `t`, exactly when every item of a legacy
      word is a name and a value in order, exactly one of them is a time, that
      time is `t`, and at least one gives a hash; everything else is ignored. */
  lemma ReadableIff(header: string, t: nat)
    ensures (SignatureParts(header).Some? && SignatureParts(header).value.0 == t) <==>
              && AllGood(Items(header)) && OneTime(Items(header), t)
              && exists hash :: AnyGives(Items(header), hash)
  {
    var start, items := Parts(None, []), Items(header);
    WordsAsItems(start, Words(header));
    ItemsMean(start, items);
    var p := ReadItems(start, items);
    if p.Some? {
      forall hash ensures hash in p.value.signatures <==> AnyGives(items, hash) { ItemsHashes(start, items, hash); }
      if p.value.signatures != [] { assert p.value.signatures[0] in p.value.signatures; }
      if OneTime(items, t) && p.value.timestamp.Some? { OneTimeOnly(items, t, p.value.timestamp.value); }
    }
  }

  lemma OneTimeOnly(items: seq<string>, t: nat, u: nat)
    requires OneTime(items, t) && OneTime(items, u)
    ensures t == u
  {
    var i: nat :| TimeAt(items, i, t);
    var k: nat :| TimeAt(items, k, u);
    assert IsTime(items[k]);
    var v :| Named(items[i], "t", v) && v != "" && AllDigits(v) && ParseDecimal(v) == t;
    var w :| Named(items[i], "t", w) && w != "" && AllDigits(w) && ParseDecimal(w) == u;
    NamedIff(items[i], "t", v);
    NamedIff(items[i], "t", w);
  }

  lemma HashesRead(header: string, hash: string)
    requires SignatureParts(header).Some?
    ensures hash in SignatureParts(header).value.1 <==> AnyGives(Items(header), hash)
  {
    WordsAsItems(Parts(None, []), Words(header));
    ItemsHashes(Parts(None, []), Items(header), hash);
  }

  // ---- accepted requests ---------------------------------------------------------------------------

  /** The header is readable, its time is within the tolerance, and one of its
      hashes, whichever, is that of the time, a period and the body. */
  ghost predicate LegacyGood(
    mac: Mac, body: Bytes, header: string, secret: string, tolerance: int, now: int, t: nat)
  {
    && AllGood(Items(header)) && OneTime(Items(header), t) && t - tolerance <= now <= t + tolerance
    && AnyGives(Items(header), Hex(mac(Utf8(secret), Utf8(Decimal(t)) + ['.' as int] + body)))
  }

  lemma LegacyVerifiedIff(
    mac: Mac, body: Bytes, header: string, secret: string, tolerance: int, now: int, t: nat)
    ensures VerifyLegacy(mac, body, header, secret, tolerance, now) == Verified(t) <==>
              LegacyGood(mac, body, header, secret, tolerance, now, t)
  {
    ReadableIff(header, t);
    var hash := Hex(mac(Utf8(secret), LegacyContent(t, body)));
    if SignatureParts(header).Some? { HashesRead(header, hash); }
  }

  lemma {:induction false} StandardOfMember(words: seq<string>, value: string)
    ensures value in StandardOf(words) <==> exists i :: 0 <= i < |words| && IsStandardWord(words[i]) && Partition(words[i], ',').2 == value
  {
    if words != [] {
      StandardOfMember(words[1..], value);
      assert words == [words[0]] + words[1..];
    }
  }

  lemma StandardWordIff(word: string, value: string)
    requires value != "" && IsAscii(value)
    ensures IsStandardWord(word) && Partition(word, ',').2 == value <==> word == "v1," + value
  {
    assert "v1" + [','] + value == "v1," + value;
    PartitionAt("v1", ',', value);
    var n := IndexOf(word, ',');
    if IsStandardWord(word) { assert word == word[..n] + [','] + word[n + 1..]; }
  }

  /** The standard signatures of a header are what follows `v1,` in its words. */
  lemma StandardReadIff(header: string, value: string)
    requires value != "" && IsAscii(value)
    ensures value in StandardSignatures(header) <==> "v1," + value in Words(header)
  {
    var words := Words(header);
    StandardOfMember(words, value);
    forall i | 0 <= i < |words|
      ensures IsStandardWord(words[i]) && Partition(words[i], ',').2 == value <==> words[i] == "v1," + value
    {
      StandardWordIff(words[i], value);
    }
  }

  /** The time header is a number within the tolerance, the secret decodes, the id
      is ASCII, and one of the header's words is `v1,` with the hash of the id, the
      time and the body joined by periods. */
  predicate StandardGood(
    mac: Mac, body: Bytes, id: string, timeHeader: Option<string>, header: string, secret: string,
    tolerance: int, now: int, t: nat)
  {
    && timeHeader.Some? && timeHeader.value != "" && AllDigits(timeHeader.value)
    && ParseDecimal(timeHeader.value) == t && t - tolerance <= now <= t + tolerance
    && IsAscii(id) && SecretKeyBytes(secret).Some?
    && "v1," + Base64(mac(SecretKeyBytes(secret).value, Utf8(id + "." + Decimal(t) + ".") + body)) in Words(header)
  }

  lemma StandardVerifiedIff(
    mac: Mac, body: Bytes, id: string, timeHeader: Option<string>, header: string, secret: string,
    tolerance: int, now: int, t: nat)
    requires Mac256(mac)
    ensures VerifyStandard(mac, body, id, timeHeader, header, secret, tolerance, now) == Verified(t) <==>
              StandardGood(mac, body, id, timeHeader, header, secret, tolerance, now, t)
  {
    if SecretKeyBytes(secret).Some? {
      var digest := mac(SecretKeyBytes(secret).value, StandardContent(id, t, body));
      Base64IsPlain(digest);
      assert |digest| == 32;
      DataLength(digest);
      StandardReadIff(header, Base64(digest));
    }
  }

  ghost predicate AnyLegacyWord(header: string) { exists w :: w in Words(header) && EqualsFirst(w) }

  lemma LegacyTokenIff(header: string)
    ensures HasLegacyToken(header) <==> AnyLegacyWord(header)
  {
    forall w ensures IsLegacyWord(w) <==> EqualsFirst(w) { LegacyWordIff(w); }
  }

  /** A request is accepted exactly when signature, id and type are there and its
      signature header is good: in the legacy form as soon as one word has it, and
      then the time header must repeat the signed time; in the standard form
      otherwise. */
  lemma RequestVerifiedIff(
    mac: Mac, body: Bytes, signature: Option<string>, id: Option<string>, event: Option<string>,
    timeHeader: Option<string>, secret: string, tolerance: int, now: int, t: nat)
    requires Mac256(mac)
    ensures VerifyRequest(mac, body, signature, id, event, timeHeader, secret, tolerance, now) == Verified(t) <==>
              && signature.Some? && signature.value != "" && id.Some? && id.value != "" && event.Some? && event.value != ""
              && (if AnyLegacyWord(signature.value)
                  then timeHeader == Some(Decimal(t)) && LegacyGood(mac, body, signature.value, secret, tolerance, now, t)
                  else StandardGood(mac, body, id.value, timeHeader, signature.value, secret, tolerance, now, t))
  {
    if !Missing(signature) && !Missing(id) {
      LegacyTokenIff(signature.value);
      LegacyVerifiedIff(mac, body, signature.value, secret, tolerance, now, t);
      StandardVerifiedIff(mac, body, id.value, timeHeader, signature.value, secret, tolerance, now, t);
    }
  }
}
