/**
Replays (`ygopro-data/src/data/replay.rs`): the body, what stands where in it, its announced size,
and exactly when it is read back as it was written.
*/
module Replay {
  import opened Options
  import opened Wire
  import D = Decks
  import R = Response

  /** A fixed-length string: twenty UTF-16 words. */
  type Name = s: seq<U16> | |s| == 20 witness seq(20, _ => 0)

  datatype ReplayDeck = ReplayDeck(main: seq<U32>, extra: seq<U32>)

  datatype Body = Body(
    hostName: Name,
    tagHostName: Option<Name>,
    tagClientName: Option<Name>,
    clientName: Name,
    startLp: U32,
    startHand: U32,
    drawCount: U32,
    options: U16,
    rule: U16,
    hostDeck: ReplayDeck,
    tagHostDeck: Option<ReplayDeck>,
    clientDeck: ReplayDeck,
    tagClientDeck: Option<ReplayDeck>,
    datas: seq<R.Response>)

  // ---------- decks ----------

  /** The core fills decks from the bottom, so a replay stores them reversed, and no side deck. */
  function FromDeck(d: D.Deck): ReplayDeck { ReplayDeck(Reverse(d.main), Reverse(d.extra)) }

  function ToDeck(d: ReplayDeck): D.Deck { D.Deck(Reverse(d.main), [], Reverse(d.extra)) }

  lemma {:induction false} ReverseTwice<T>(s: seq<T>)
    ensures Reverse(Reverse(s)) == s
  {
  }

  /** A deck comes back from a replay without its side deck; a replay deck comes back as it was. */
  lemma DeckThereAndBack(d: D.Deck, r: ReplayDeck)
    ensures ToDeck(FromDeck(d)) == d.(side := []) && FromDeck(ToDeck(r)) == r
  {
    ReverseTwice(d.main);
    ReverseTwice(d.extra);
    ReverseTwice(r.main);
    ReverseTwice(r.extra);
  }

  // ---------- writing ----------

  function EncodeDeck(d: ReplayDeck): Bytes {
    Le32(|d.main| % 0x1_0000_0000) + Words32(d.main) + Le32(|d.extra| % 0x1_0000_0000) + Words32(d.extra)
  }

  /** A tag field is written only in a tag replay, and then only if it is there. */
  function EncodeName(tag: bool, name: Option<Name>): Bytes {
    if tag && name.Some? then Words16(name.value) else []
  }

  function EncodeTagDeck(tag: bool, deck: Option<ReplayDeck>): Bytes {
    if tag && deck.Some? then EncodeDeck(deck.value) else []
  }

  function EncodeDatas(datas: seq<R.Response>): Bytes {
    if datas == [] then [] else [R.Len(datas[0]) % 0x100] + R.Encode(datas[0]) + EncodeDatas(datas[1..])
  }

  function Names(tag: bool, b: Body): Bytes {
    Words16(b.hostName) + (EncodeName(tag, b.tagHostName) + (EncodeName(tag, b.tagClientName) + Words16(b.clientName)))
  }

  function Settings(b: Body): Bytes {
    Le32(b.startLp) + (Le32(b.startHand) + (Le32(b.drawCount) + (Le16(b.options) + Le16(b.rule))))
  }

  function Decks(tag: bool, b: Body): Bytes {
    EncodeDeck(b.hostDeck) + (EncodeTagDeck(tag, b.tagHostDeck) + (EncodeDeck(b.clientDeck) + EncodeTagDeck(tag, b.tagClientDeck)))
  }

  function Encode(tag: bool, b: Body): Bytes { Names(tag, b) + (Settings(b) + (Decks(tag, b) + EncodeDatas(b.datas))) }

  // ---------- what stands where ----------

  lemma {:induction false} ReversedAt<T>(s: seq<T>, i: nat)
    requires i < |s|
    ensures |Reverse(s)| == |s| && Reverse(s)[i] == s[|s| - 1 - i]
    decreases |s|
  {
    if |s| > 1 { ReversedAt(s[1..], if i < |s| - 1 then i else 0); }
  }

  /** The first card of a stored section is the last of the deck's. */
  lemma StoredReversed(d: D.Deck, i: nat)
    ensures i < |d.main| ==> |FromDeck(d).main| == |d.main| && FromDeck(d).main[i] == d.main[|d.main| - 1 - i]
    ensures i < |d.extra| ==> |FromDeck(d).extra| == |d.extra| && FromDeck(d).extra[i] == d.extra[|d.extra| - 1 - i]
  {
    if i < |d.main| { ReversedAt(d.main, i); }
    if i < |d.extra| { ReversedAt(d.extra, i); }
  }

  /** The names come first, the host's before the client's and the tag partners' in between. */
  lemma NamesStand(tag: bool, b: Body)
    requires tag ==> b.tagHostName.Some? && b.tagClientName.Some?
    ensures var s, n := Names(tag, b), if tag then 160 else 80;
      && |s| == n && s[..40] == Words16(b.hostName) && s[n - 40..] == Words16(b.clientName)
      && (tag ==> s[40..80] == Words16(b.tagHostName.value) && s[80..120] == Words16(b.tagClientName.value))
  {
    hide Words16;
    NameLength(b.hostName);
    NameLength(b.clientName);
    if tag {
      NameLength(b.tagHostName.value);
      NameLength(b.tagClientName.value);
    }
  }

  /** Then sixteen bytes of settings. */
  lemma SettingsStand(b: Body)
    ensures var s := Settings(b);
      && |s| == 16 && s[..4] == Le32(b.startLp) && s[4..8] == Le32(b.startHand) && s[8..12] == Le32(b.drawCount)
      && s[12..14] == Le16(b.options) && s[14..] == Le16(b.rule)
  {
    WordLengths(b.startLp, b.options);
    WordLengths(b.startHand, b.rule);
    WordLengths(b.drawCount, b.rule);
    hide Le32, Le16;
  }

  lemma WordLengths(x: U32, y: U16)
    ensures |Le32(x)| == 4 && |Le16(y)| == 2
  {
  }

  /** A deck is two counted lists, main before extra. */
  lemma DeckStands(d: ReplayDeck)
    requires |d.main| < 0x1_0000_0000 && |d.extra| < 0x1_0000_0000
    ensures var s, n := EncodeDeck(d), 4 * |d.main|;
      && |s| == 8 + n + 4 * |d.extra|
      && s[..4] == Le32(|d.main|) && s[4..4 + n] == Words32(d.main)
      && s[4 + n..8 + n] == Le32(|d.extra|) && s[8 + n..] == Words32(d.extra)
  {
    hide Le32, Words32;
    WordsLength32(d.main);
    WordsLength32(d.extra);
    WordLengths(|d.main|, 0);
    WordLengths(|d.extra|, 0);
    FourParts(Le32(|d.main|), Words32(d.main), Le32(|d.extra|), Words32(d.extra));
  }

  lemma FourParts(a: Bytes, b: Bytes, c: Bytes, d: Bytes)
    ensures var s, i, j, k := a + b + c + d, |a|, |a| + |b|, |a| + |b| + |c|;
      s[..i] == a && s[i..j] == b && s[j..k] == c && s[k..] == d
  {
  }

  /** The whole body: names, settings, the decks of host, host's partner, client and client's partner, then the responses. */
  lemma BodyStands(tag: bool, b: Body)
    requires tag ==> b.tagHostName.Some? && b.tagClientName.Some? && b.tagHostDeck.Some? && b.tagClientDeck.Some?
    ensures var s, n := Encode(tag, b), if tag then 160 else 80;
      && n + 16 <= |s| && s[..n] == Names(tag, b) && s[n..n + 16] == Settings(b)
      && s[n + 16..] ==
        EncodeDeck(b.hostDeck) + (if tag then EncodeDeck(b.tagHostDeck.value) else [])
        + EncodeDeck(b.clientDeck) + (if tag then EncodeDeck(b.tagClientDeck.value) else []) + EncodeDatas(b.datas)
  {
    NamesLength(tag, b);
    SettingsLength(b);
    hide Names, Settings, EncodeDeck, EncodeDatas;
    var host, client := EncodeDeck(b.hostDeck), EncodeDeck(b.clientDeck);
    var s, n := Encode(tag, b), if tag then 160 else 80;
    assert s == Names(tag, b) + Settings(b) + (Decks(tag, b) + EncodeDatas(b.datas));
    assert s[n + 16..] == Decks(tag, b) + EncodeDatas(b.datas);
    assert Decks(tag, b) == host + (if tag then EncodeDeck(b.tagHostDeck.value) else []) + client + (if tag then EncodeDeck(b.tagClientDeck.value) else []);
  }

  /** Each response follows a byte with its length. */
  lemma {:induction false} FirstStands(datas: seq<R.Response>)
    requires datas != [] && R.Len(datas[0]) < 0x100
    ensures var s, n := EncodeDatas(datas), R.Len(datas[0]);
      |s| > n && s[0] == n && s[1..1 + n] == R.Encode(datas[0]) && s[1 + n..] == EncodeDatas(datas[1..])
  {
    R.LenIsLength(datas[0]);
    hide R.Len, R.Encode;
    var n: U8 := R.Len(datas[0]);
    FourParts([n], R.Encode(datas[0]), EncodeDatas(datas[1..]), []);
    assert EncodeDatas(datas) + [] == EncodeDatas(datas);
    hide EncodeDatas;
  }

  // ---------- the announced size ----------

  function DeckSize(d: ReplayDeck): nat { 4 + |d.main| * 4 + 4 + |d.extra| * 4 }

  function DatasSize(datas: seq<R.Response>): nat {
    if datas == [] then 0 else 1 + R.Len(datas[0]) + DatasSize(datas[1..])
  }

  function TagDeckSize(d: Option<ReplayDeck>): nat { if d.Some? then DeckSize(d.value) else 0 }

  /** The size as the header computes it, before it is cut to 32 bits. */
  function DataSize(tag: bool, b: Body): nat {
    40 + 40 + 4 + 4 + 4 + 2 + 2 + DeckSize(b.hostDeck) + DeckSize(b.clientDeck) + DatasSize(b.datas)
    + if tag then 40 + 40 + TagDeckSize(b.tagHostDeck) + TagDeckSize(b.tagClientDeck) else 0
  }

  lemma {:induction false} NameLength(n: Name)
    ensures |Words16(n)| == 40
  {
    WordsLength16(n);
  }

  lemma DeckLength(d: ReplayDeck)
    ensures |EncodeDeck(d)| == DeckSize(d)
  {
    WordsLength32(d.main);
    WordsLength32(d.extra);
  }

  lemma {:induction false} DatasLength(datas: seq<R.Response>)
    ensures |EncodeDatas(datas)| == DatasSize(datas)
    decreases datas
  {
    if datas != [] {
      R.LenIsLength(datas[0]);
      DatasLength(datas[1..]);
    }
  }

  /** The announced size is the length of the encoded body if and only if a tag replay has both tag names. */
  lemma SizeIsLength(tag: bool, b: Body)
    ensures DataSize(tag, b) % 0x1_0000_0000 == |Encode(tag, b)| % 0x1_0000_0000 <==>
      (tag ==> b.tagHostName.Some? && b.tagClientName.Some?)
    ensures (tag ==> b.tagHostName.Some? && b.tagClientName.Some?) ==> DataSize(tag, b) == |Encode(tag, b)|
  {
    hide Names, Settings, Decks, EncodeDatas, DeckSize, DatasSize;
    var missing := if !tag then 0 else (if b.tagHostName.None? then 40 else 0) + (if b.tagClientName.None? then 40 else 0);
    NamesLength(tag, b);
    SettingsLength(b);
    DecksLength(tag, b);
    DatasLength(b.datas);
    assert DataSize(tag, b) == |Encode(tag, b)| + missing;
  }

  lemma NamesLength(tag: bool, b: Body)
    ensures |Names(tag, b)| == 80 + (if tag && b.tagHostName.Some? then 40 else 0) + (if tag && b.tagClientName.Some? then 40 else 0)
  {
    NameLength(b.hostName);
    NameLength(b.clientName);
    if b.tagHostName.Some? { NameLength(b.tagHostName.value); }
    if b.tagClientName.Some? { NameLength(b.tagClientName.value); }
    hide Words16;
  }

  lemma DecksLength(tag: bool, b: Body)
    ensures |Decks(tag, b)| == DeckSize(b.hostDeck) + DeckSize(b.clientDeck)
      + if tag then TagDeckSize(b.tagHostDeck) + TagDeckSize(b.tagClientDeck) else 0
  {
    hide EncodeDeck, DeckSize;
    DeckLength(b.hostDeck);
    DeckLength(b.clientDeck);
    if b.tagHostDeck.Some? { DeckLength(b.tagHostDeck.value); }
    if b.tagClientDeck.Some? { DeckLength(b.tagClientDeck.value); }
  }

  lemma SettingsLength(b: Body) ensures |Settings(b)| == 16 {}

  /** The header of a replay, of which the tag flag and the announced size are modelled, with its body. */
  class Replay {
    const tag: bool
    var dataSize: U32
    var body: Body

    constructor (tag: bool, body: Body)
      ensures this.tag == tag && this.body == body && dataSize == 0
    {
      this.tag, this.body, dataSize := tag, body, 0;
    }

    method FillDataSize()
      modifies `dataSize
      ensures dataSize == DataSize(tag, body) % 0x1_0000_0000
    {
      var datas := 0;
      assert body.datas[0..] == body.datas;
      for i := 0 to |body.datas|
        invariant datas + DatasSize(body.datas[i..]) == DatasSize(body.datas)
      {
        assert body.datas[i..][1..] == body.datas[i + 1..];
        datas := datas + 1 + R.Len(body.datas[i]);
      }
      var size := 40 + 40 + 4 + 4 + 4 + 2 + 2 + DeckSize(body.hostDeck) + DeckSize(body.clientDeck) + datas;
      if tag {
        size := size + 40 + 40;
        if body.tagHostDeck.Some? { size := size + DeckSize(body.tagHostDeck.value); }
        if body.tagClientDeck.Some? { size := size + DeckSize(body.tagClientDeck.value); }
      }
      dataSize := size % 0x1_0000_0000;
    }
  }

  // ---------- reading ----------

  function TakeName(s: Bytes): Read<Name> {
    match TakeWords16(s, 20)
    case Failed(error) => Failed(error)
    case Got(words, rest) =>
      TakenLength(s, 20);
      var name: Name := words;
      Got(name, rest)
  }

  lemma {:induction false} TakenLength(s: Bytes, count: nat)
    ensures TakeWords16(s, count).Got? ==> |TakeWords16(s, count).value| == count
    decreases count
  {
    if count > 0 && TakeU16(s).Got? { TakenLength(TakeU16(s).rest, count - 1); }
  }

  function TakeTagName(tag: bool, s: Bytes): Read<Option<Name>> {
    if !tag then Got(None, s)
    else
      match TakeName(s)
      case Failed(error) => Failed(error)
      case Got(name, rest) => Got(Some(name), rest)
  }

  function TakeList(s: Bytes): Read<seq<U32>> {
    match TakeU32(s)
    case Failed(error) => Failed(error)
    case Got(count, rest) => TakeWords32(rest, count)
  }

  function TakeDeck(s: Bytes): Read<ReplayDeck> {
    match TakeList(s)
    case Failed(error) => Failed(error)
    case Got(main, rest) =>
      match TakeList(rest)
      case Failed(error) => Failed(error)
      case Got(extra, left) => Got(ReplayDeck(main, extra), left)
  }

  function TakeTagDeck(tag: bool, s: Bytes): Read<Option<ReplayDeck>> {
    if !tag then Got(None, s)
    else
      match TakeDeck(s)
      case Failed(error) => Failed(error)
      case Got(deck, rest) => Got(Some(deck), rest)
  }

  /** Raw responses until the input ends; one that is cut short is dropped. */
  function AllDatas(s: Bytes): seq<R.Response> {
    if s == [] || |s| <= s[0] then [] else [R.Unknown(s[1..1 + s[0] as int])] + AllDatas(s[1 + s[0] as int..])
  }

  datatype FourNames = FourNames(host: Name, tagHost: Option<Name>, tagClient: Option<Name>, client: Name)

  function TakeNames(tag: bool, s: Bytes): Read<FourNames> {
    var host := TakeName(s); if host.Failed? then Failed(host.error) else
    var tagHost := TakeTagName(tag, host.rest); if tagHost.Failed? then Failed(tagHost.error) else
    var tagClient := TakeTagName(tag, tagHost.rest); if tagClient.Failed? then Failed(tagClient.error) else
    var client := TakeName(tagClient.rest); if client.Failed? then Failed(client.error) else
    Got(FourNames(host.value, tagHost.value, tagClient.value, client.value), client.rest)
  }

  datatype FiveSettings = FiveSettings(lp: U32, hand: U32, draw: U32, options: U16, rule: U16)

  function TakeSettings(s: Bytes): Read<FiveSettings> {
    var lp := TakeU32(s); if lp.Failed? then Failed(lp.error) else
    var hand := TakeU32(lp.rest); if hand.Failed? then Failed(hand.error) else
    var draw := TakeU32(hand.rest); if draw.Failed? then Failed(draw.error) else
    var options := TakeU16(draw.rest); if options.Failed? then Failed(options.error) else
    var rule := TakeU16(options.rest); if rule.Failed? then Failed(rule.error) else
    Got(FiveSettings(lp.value, hand.value, draw.value, options.value, rule.value), rule.rest)
  }

  datatype FourDecks = FourDecks(host: ReplayDeck, tagHost: Option<ReplayDeck>, client: ReplayDeck, tagClient: Option<ReplayDeck>)

  function TakeDecks(tag: bool, s: Bytes): Read<FourDecks> {
    var host := TakeDeck(s); if host.Failed? then Failed(host.error) else
    var tagHost := TakeTagDeck(tag, host.rest); if tagHost.Failed? then Failed(tagHost.error) else
    var client := TakeDeck(tagHost.rest); if client.Failed? then Failed(client.error) else
    var tagClient := TakeTagDeck(tag, client.rest); if tagClient.Failed? then Failed(tagClient.error) else
    Got(FourDecks(host.value, tagHost.value, client.value, tagClient.value), tagClient.rest)
  }

  function TakeBody(tag: bool, s: Bytes): Read<Body> {
    var n := TakeNames(tag, s); if n.Failed? then Failed(n.error) else
    var t := TakeSettings(n.rest); if t.Failed? then Failed(t.error) else
    var d := TakeDecks(tag, t.rest); if d.Failed? then Failed(d.error) else
    Got(Body(n.value.host, n.value.tagHost, n.value.tagClient, n.value.client,
             t.value.lp, t.value.hand, t.value.draw, t.value.options, t.value.rule,
             d.value.host, d.value.tagHost, d.value.client, d.value.tagClient, AllDatas(d.rest)), [])
  }

  // ---------- the round trip ----------

  /** The tag fields are there exactly in a tag replay. */
  predicate Tagged(tag: bool, b: Body) {
    b.tagHostName.Some? == tag && b.tagClientName.Some? == tag && b.tagHostDeck.Some? == tag && b.tagClientDeck.Some? == tag
  }

  predicate Sized(d: ReplayDeck) { |d.main| < 0x1_0000_0000 && |d.extra| < 0x1_0000_0000 }

  predicate DecksSized(b: Body) {
    Sized(b.hostDeck) && Sized(b.clientDeck) && (b.tagHostDeck.Some? ==> Sized(b.tagHostDeck.value))
    && (b.tagClientDeck.Some? ==> Sized(b.tagClientDeck.value))
  }

  predicate ShortResponses(datas: seq<R.Response>) { forall i :: 0 <= i < |datas| ==> R.Len(datas[i]) < 0x100 }

  function Raw(datas: seq<R.Response>): (raw: seq<R.Response>)
    ensures |raw| == |datas| && forall i :: 0 <= i < |datas| ==> raw[i] == R.Unknown(R.Encode(datas[i]))
  {
    if datas == [] then [] else [R.Unknown(R.Encode(datas[0]))] + Raw(datas[1..])
  }

  lemma {:induction false} NameBack(n: Name, rest: Bytes)
    ensures TakeName(Words16(n) + rest) == Got(n, rest)
  {
    TakeWordsBack16(n, 20, rest);
    assert n[20..] == [] && n[..20] == n;
    assert Words16(n[20..]) + rest == rest;
  }

  lemma TagNameBack(tag: bool, n: Option<Name>, rest: Bytes)
    requires n.Some? == tag
    ensures TakeTagName(tag, EncodeName(tag, n) + rest) == Got(n, rest)
  {
    if tag { NameBack(n.value, rest); } else { assert [] + rest == rest; }
    hide TakeName;
  }

  lemma {:induction false} ListBack(list: seq<U32>, rest: Bytes)
    requires |list| < 0x1_0000_0000
    ensures TakeList(Le32(|list| % 0x1_0000_0000) + (Words32(list) + rest)) == Got(list, rest)
  {
    hide TakeU32, Le32, Words32, TakeWords32;
    TakeBack32(|list|, Words32(list) + rest);
    TakeWordsBack32(list, rest);
  }

  lemma DeckBack(d: ReplayDeck, rest: Bytes)
    requires Sized(d)
    ensures TakeDeck(EncodeDeck(d) + rest) == Got(d, rest)
  {
    hide TakeList, Le32, Words32;
    var main, extra := Le32(|d.main| % 0x1_0000_0000), Le32(|d.extra| % 0x1_0000_0000);
    assert EncodeDeck(d) + rest == main + (Words32(d.main) + (extra + (Words32(d.extra) + rest)));
    ListBack(d.main, extra + (Words32(d.extra) + rest));
    ListBack(d.extra, rest);
  }

  lemma TagDeckBack(tag: bool, d: Option<ReplayDeck>, rest: Bytes)
    requires d.Some? == tag && (d.Some? ==> Sized(d.value))
    ensures TakeTagDeck(tag, EncodeTagDeck(tag, d) + rest) == Got(d, rest)
  {
    if tag { DeckBack(d.value, rest); } else { assert [] + rest == rest; }
    hide TakeDeck, EncodeDeck;
  }

  lemma {:induction false} DatasBack(datas: seq<R.Response>)
    requires ShortResponses(datas)
    ensures AllDatas(EncodeDatas(datas)) == Raw(datas)
    decreases datas
  {
    if datas != [] {
      var bytes, tail := R.Encode(datas[0]), EncodeDatas(datas[1..]);
      R.LenIsLength(datas[0]);
      var s := EncodeDatas(datas);
      assert s[0] == |bytes| && s[1..1 + |bytes|] == bytes && s[1 + |bytes|..] == tail;
      DatasBack(datas[1..]);
    }
  }

  lemma NamesBack(tag: bool, b: Body, rest: Bytes)
    requires Tagged(tag, b)
    ensures TakeNames(tag, Names(tag, b) + rest) == Got(FourNames(b.hostName, b.tagHostName, b.tagClientName, b.clientName), rest)
  {
    hide TakeName, TakeTagName, EncodeName, Words16;
    var after3 := Words16(b.clientName) + rest;
    var after2 := EncodeName(tag, b.tagClientName) + after3;
    var after1 := EncodeName(tag, b.tagHostName) + after2;
    assert Names(tag, b) + rest == Words16(b.hostName) + after1;
    NameBack(b.hostName, after1);
    TagNameBack(tag, b.tagHostName, after2);
    TagNameBack(tag, b.tagClientName, after3);
    NameBack(b.clientName, rest);
  }

  lemma SettingsBack(b: Body, rest: Bytes)
    ensures TakeSettings(Settings(b) + rest) == Got(FiveSettings(b.startLp, b.startHand, b.drawCount, b.options, b.rule), rest)
  {
    hide TakeU32, Le32, TakeU16, Le16;
    var after4 := Le16(b.rule) + rest;
    var after3 := Le16(b.options) + after4;
    var after2 := Le32(b.drawCount) + after3;
    var after1 := Le32(b.startHand) + after2;
    assert Settings(b) + rest == Le32(b.startLp) + after1;
    TakeBack32(b.startLp, after1);
    TakeBack32(b.startHand, after2);
    TakeBack32(b.drawCount, after3);
    TakeBack16(b.options, after4);
    TakeBack16(b.rule, rest);
  }

  lemma DecksBack(tag: bool, b: Body, rest: Bytes)
    requires Tagged(tag, b) && DecksSized(b)
    ensures TakeDecks(tag, Decks(tag, b) + rest) == Got(FourDecks(b.hostDeck, b.tagHostDeck, b.clientDeck, b.tagClientDeck), rest)
  {
    hide TakeDeck, TakeTagDeck, EncodeDeck, EncodeTagDeck;
    var after3 := EncodeTagDeck(tag, b.tagClientDeck) + rest;
    var after2 := EncodeDeck(b.clientDeck) + after3;
    var after1 := EncodeTagDeck(tag, b.tagHostDeck) + after2;
    assert Decks(tag, b) + rest == EncodeDeck(b.hostDeck) + after1;
    DeckBack(b.hostDeck, after1);
    TagDeckBack(tag, b.tagHostDeck, after2);
    DeckBack(b.clientDeck, after3);
    TagDeckBack(tag, b.tagClientDeck, rest);
  }

  /** Whatever is read has its tag fields exactly in a tag replay, and only short raw responses. */
  lemma ReadIsTagged(tag: bool, s: Bytes)
    requires TakeBody(tag, s).Got?
    ensures Tagged(tag, TakeBody(tag, s).value)
    ensures ShortResponses(TakeBody(tag, s).value.datas)
  {
    hide TakeNames, TakeSettings, TakeDecks, AllDatas;
    NamesTagged(tag, s);
    var rest := TakeSettings(TakeNames(tag, s).rest).rest;
    DecksTagged(tag, rest);
    DatasAreShort(TakeDecks(tag, rest).rest);
  }

  lemma NamesTagged(tag: bool, s: Bytes)
    requires TakeNames(tag, s).Got?
    ensures var n := TakeNames(tag, s).value; n.tagHost.Some? == tag && n.tagClient.Some? == tag
  {
    hide TakeName;
  }

  lemma DecksTagged(tag: bool, s: Bytes)
    requires TakeDecks(tag, s).Got?
    ensures var d := TakeDecks(tag, s).value; d.tagHost.Some? == tag && d.tagClient.Some? == tag
  {
    hide TakeDeck;
  }

  lemma {:induction false} DatasAreShort(s: Bytes)
    ensures ShortResponses(AllDatas(s))
    decreases |s|
  {
    if !(s == [] || |s| <= s[0]) { DatasAreShort(s[1 + s[0] as int..]); }
  }

  /**
  An encoded body decodes to the same body with raw responses if and only if its tag fields are there exactly in a
  tag replay and every response is at most 255 bytes long.
  */
  lemma BodyRoundTrip(tag: bool, b: Body)
    requires DecksSized(b)
    ensures TakeBody(tag, Encode(tag, b)) == Got(b.(datas := Raw(b.datas)), []) <==> Tagged(tag, b) && ShortResponses(b.datas)
  {
    hide TakeNames, Names, TakeSettings, Settings, TakeDecks, Decks, AllDatas, EncodeDatas;
    var s := Encode(tag, b);
    if Tagged(tag, b) && ShortResponses(b.datas) {
      NamesBack(tag, b, Settings(b) + (Decks(tag, b) + EncodeDatas(b.datas)));
      SettingsBack(b, Decks(tag, b) + EncodeDatas(b.datas));
      DecksBack(tag, b, EncodeDatas(b.datas));
      DatasBack(b.datas);
    } else if TakeBody(tag, s) == Got(b.(datas := Raw(b.datas)), []) {
      ReadIsTagged(tag, s);
      RawIsShort(b.datas);
    }
  }

  lemma {:induction false} RawIsShort(datas: seq<R.Response>)
    ensures ShortResponses(Raw(datas)) ==> ShortResponses(datas)
  {
    hide R.Len, R.Encode;
    if ShortResponses(Raw(datas)) {
      forall i | 0 <= i < |datas| ensures R.Len(datas[i]) < 0x100 {
        RawIsAsLong(datas[i]);
        assert R.Len(Raw(datas)[i]) < 0x100;
      }
    }
  }

  lemma RawIsAsLong(r: R.Response)
    ensures R.Len(R.Unknown(R.Encode(r))) == R.Len(r)
  {
    R.LenIsLength(r);
    hide R.Encode;
  }

  /** Given the prompts they answered, the raw responses of a decoded replay resolve back into the ones recorded. */
  lemma {:induction false} ResolvesBack(datas: seq<R.Response>, prompts: seq<R.Prompt>, i: nat)
    requires ShortResponses(datas) && |prompts| == |datas| && i < |datas|
    requires R.Answers(datas[i], prompts[i]) && datas[i] != R.NO_PLACE
    ensures |AllDatas(EncodeDatas(datas))| == |datas|
    ensures R.Resolved(AllDatas(EncodeDatas(datas))[i], prompts[i]) == R.Ok(datas[i])
  {
    DatasBack(datas);
    R.RoundTrip(datas[i], prompts[i]);
    assert R.Len(datas[i]) < 0x100;
    hide AllDatas, EncodeDatas, R.Decode, R.Encode, R.Answers;
  }
}
