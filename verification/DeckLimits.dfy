/** The limit checks of a deck. */
module DeckLimits {
  // Those that need the forbidden list and the rule, and all checks together (`ygopro-data/src/data/deck.rs`).

  import opened Options
  import opened Decks
  import opened LFLists

  // ---------- the limit list ----------

  const MAX_COPIES := 3

  function Total(l: LFList, codes: seq<U32>, key: string): nat {
    if codes == [] then 0 else Credit(l, codes[0], key) + Total(l, codes[1..], key)
  }

  /** Few enough copies of a card for the general and its own limit. */
  predicate FewCopies(l: LFList, codes: seq<U32>, code: U32) {
    multiset(codes)[code] <= MAX_COPIES && (code in l.content ==> multiset(codes)[code] <= l.content[code])
  }

  /** What the list demands of a deck, whatever the order of its cards. */
  ghost predicate Within(l: LFList, codes: seq<U32>) {
    && (forall code :: code in codes ==> FewCopies(l, codes, code))
    && (forall key :: key in l.creditLimits ==> Total(l, codes, key) <= l.creditLimits[key])
  }

  /** The sum of the credits so far, as a 32-bit counter shows it. */
  function Used(l: LFList, codes: seq<U32>, key: string): U32 { Total(l, codes, key) % 0x1_0000_0000 }

  /** What the check accepts: the copies as demanded, and no credit counter above its limit after any card. */
  ghost predicate Accepts(l: LFList, codes: seq<U32>) {
    && (forall code :: code in codes ==> FewCopies(l, codes, code))
    && CreditsKept(l, codes)
  }

  ghost predicate CreditsKept(l: LFList, codes: seq<U32>) {
    forall key, i :: key in l.creditLimits && 0 < i <= |codes| ==> Used(l, codes[..i], key) <= l.creditLimits[key]
  }

  lemma {:induction false} TotalAppend(l: LFList, a: seq<U32>, b: seq<U32>, key: string)
    ensures Total(l, a + b, key) == Total(l, a, key) + Total(l, b, key)
    decreases a
  {
    if a == [] {
      assert a + b == b;
    } else {
      assert (a + b)[1..] == a[1..] + b;
      TotalAppend(l, a[1..], b, key);
    }
  }

  /** No credit total reaches 2^32, so no counter wraps. */
  ghost predicate Countable(l: LFList, codes: seq<U32>) {
    forall key :: key in l.creditLimits ==> Total(l, codes, key) < 0x1_0000_0000
  }

  /**
  The check refuses no deck the list allows. It accepts a deck the list does not allow exactly when a credit
  counter wraps: among the decks accepted, those within the list are the ones whose totals stay below 2^32.
  */
  lemma {:induction false} AcceptsIsWithin(l: LFList, codes: seq<U32>)
    ensures Within(l, codes) <==> Accepts(l, codes) && Countable(l, codes)
    ensures Accepts(l, codes) ==> (Within(l, codes) <==> Countable(l, codes))
    ensures Countable(l, codes) ==> (Accepts(l, codes) <==> Within(l, codes))
  {
    assert codes[..|codes|] == codes;
    forall key, i | key in l.creditLimits && 0 <= i <= |codes| ensures Total(l, codes[..i], key) <= Total(l, codes, key) {
      assert codes == codes[..i] + codes[i..];
      TotalAppend(l, codes[..i], codes[i..], key);
    }
    if Accepts(l, codes) && Countable(l, codes) {
      forall key | key in l.creditLimits ensures Total(l, codes, key) <= l.creditLimits[key] {
        if codes != [] { assert Used(l, codes[..|codes|], key) <= l.creditLimits[key]; }
      }
    }
  }

  lemma {:induction false} TotalOne(l: LFList, code: U32, key: string)
    ensures Total(l, [code], key) == Credit(l, code, key)
  {
    assert [code][1..] == [];
  }

  /**
  A counter that wraps lets a deck pass under any limit: a card that costs the limit itself, or less, and another
  that costs what is missing to 2^32. A limit of one is passed by costs of 1 and 0xffff_ffff.
  */
  lemma WrappedTotal(l: LFList, key: string, limit: U32, a: U32, b: U32)
    requires l.creditLimits == map[key := limit] && l.content == map[] && a != b
    requires 0 < Credit(l, a, key) <= limit && Credit(l, b, key) == 0x1_0000_0000 - Credit(l, a, key)
    ensures Accepts(l, [a, b]) && !Within(l, [a, b])
  {
    var codes := [a, b];
    TotalOne(l, a, key);
    TotalOne(l, b, key);
    TotalAppend(l, [a], [b], key);
    assert codes == [a] + [b];
    assert codes[..1] == [a] && codes[..2] == codes;
    assert multiset(codes)[a] == 1 && multiset(codes)[b] == 1;
  }

  lemma {:induction false} TotalPermute(l: LFList, a: seq<U32>, b: seq<U32>, key: string)
    requires multiset(a) == multiset(b)
    ensures Total(l, a, key) == Total(l, b, key)
    decreases a
  {
    if a == [] {
      assert |multiset(b)| == 0;
      assert b == [];
    } else {
      assert a[0] in multiset(b);
      var i :| 0 <= i < |b| && b[i] == a[0];
      var c := b[..i] + b[i + 1..];
      TakeOneOut(a, b, i);
      TotalPermute(l, a[1..], c, key);
      assert b == b[..i] + ([b[i]] + b[i + 1..]);
      TotalAppend(l, b[..i], [b[i]] + b[i + 1..], key);
      TotalAppend(l, b[..i], b[i + 1..], key);
      assert ([b[i]] + b[i + 1..])[1..] == b[i + 1..];
    }
  }

  /** The order of the cards does not matter. */
  lemma WithinAnyOrder(l: LFList, a: seq<U32>, b: seq<U32>)
    requires multiset(a) == multiset(b)
    ensures Within(l, a) <==> Within(l, b)
  {
    forall key ensures Total(l, a, key) == Total(l, b, key) { TotalPermute(l, a, b, key); }
    forall code: U32 ensures code in a <==> code in b {
      assert code in a <==> code in multiset(a);
      assert code in b <==> code in multiset(b);
    }
    hide Total;
  }

  /** Without a wrapping counter the order does not matter to the check either. */
  lemma AcceptsAnyOrder(l: LFList, a: seq<U32>, b: seq<U32>)
    requires multiset(a) == multiset(b) && Countable(l, a)
    ensures Accepts(l, a) <==> Accepts(l, b)
  {
    forall key ensures Total(l, a, key) == Total(l, b, key) { TotalPermute(l, a, b, key); }
    WithinAnyOrder(l, a, b);
    AcceptsIsWithin(l, a);
    AcceptsIsWithin(l, b);
    hide Accepts, Within, Total;
  }

  /** With one it does: the deck of `WrappedTotal` is refused with its dear card first. */
  lemma WrappedOrder(l: LFList, key: string, limit: U32, a: U32, b: U32)
    requires l.creditLimits == map[key := limit] && l.content == map[] && a != b
    requires 0 < Credit(l, a, key) <= limit && Credit(l, b, key) == 0x1_0000_0000 - Credit(l, a, key) > limit
    ensures Accepts(l, [a, b]) && !Accepts(l, [b, a])
  {
    WrappedTotal(l, key, limit, a, b);
    TotalOne(l, b, key);
    assert [b, a][..1] == [b];
    assert Used(l, [b, a][..1], key) > limit;
  }

  ghost predicate EachKeyOnce(keys: seq<string>, l: LFList) {
    && (forall i, j :: 0 <= i < j < |keys| ==> keys[i] != keys[j])
    && (forall key :: key in keys <==> key in l.creditLimits)
  }

  function At<K>(counts: map<K, int>, key: K): int { if key in counts then counts[key] else 0 }

  lemma NextCard(l: LFList, codes: seq<U32>, i: nat)
    requires i < |codes|
    ensures multiset(codes[..i + 1]) == multiset(codes[..i]) + multiset{codes[i]}
    ensures forall key :: Used(l, codes[..i + 1], key) == (Used(l, codes[..i], key) + Credit(l, codes[i], key)) % 0x1_0000_0000
  {
    assert codes[..i + 1] == codes[..i] + [codes[i]];
    forall key ensures Total(l, codes[..i + 1], key) == Total(l, codes[..i], key) + Credit(l, codes[i], key) {
      TotalAppend(l, codes[..i], [codes[i]], key);
      assert [codes[i]][1..] == [];
    }
  }

  lemma FewerBefore(codes: seq<U32>, i: nat, code: U32)
    requires i <= |codes|
    ensures multiset(codes[..i])[code] <= multiset(codes)[code]
    ensures code in codes[..i] ==> code in codes
  {
    assert codes == codes[..i] + codes[i..];
  }

  /** The prefix of a deck that has passed so far. */
  ghost predicate Passed(l: LFList, codes: seq<U32>, i: nat)
    requires i <= |codes|
  {
    && (forall code :: code in codes[..i] ==> FewCopies(l, codes[..i], code))
    && (forall key, k :: key in l.creditLimits && 0 < k <= i ==> Used(l, codes[..k], key) <= l.creditLimits[key])
  }

  lemma PassedAll(l: LFList, codes: seq<U32>)
    requires Passed(l, codes, |codes|)
    ensures Accepts(l, codes)
  {
    assert codes[..|codes|] == codes;
  }

  lemma TooMany(l: LFList, codes: seq<U32>, i: nat)
    requires i < |codes| && !FewCopies(l, codes[..i + 1], codes[i])
    ensures !Accepts(l, codes)
  {
    FewerBefore(codes, i + 1, codes[i]);
    assert codes[i] in codes && !FewCopies(l, codes, codes[i]);
  }

  lemma TooDear(l: LFList, codes: seq<U32>, i: nat, key: string)
    requires i < |codes| && key in l.creditLimits && Used(l, codes[..i + 1], key) > l.creditLimits[key]
    ensures !Accepts(l, codes) && !CreditsKept(l, codes)
  {
    assert 0 < i + 1 <= |codes|;
  }

  lemma PassedNext(l: LFList, codes: seq<U32>, i: nat)
    requires i < |codes| && Passed(l, codes, i) && FewCopies(l, codes[..i + 1], codes[i])
    requires forall key :: key in l.creditLimits ==> Used(l, codes[..i + 1], key) <= l.creditLimits[key]
    ensures Passed(l, codes, i + 1)
  {
    NextCard(l, codes, i);
    var before, next := codes[..i], codes[..i + 1];
    assert next == before + [codes[i]];
    hide Used;
    forall code | code in next ensures FewCopies(l, next, code) {
      if code != codes[i] { assert code in before && multiset(next)[code] == multiset(before)[code]; }
    }
  }

  /** Counts card by card and stops at the first card over a limit; the credit keys may be walked in any order. */
  method CheckDeckLflists(codes: seq<U32>, l: LFList, keys: seq<string>) returns (error: Option<DeckError>)
    requires EachKeyOnce(keys, l)
    ensures error.None? <==> Accepts(l, codes)
    ensures error.Some? ==> (error.value.kind == CardCount || error.value.kind == Lflist) && error.value.code in codes
    ensures error.Some? && error.value.kind == CardCount ==> multiset(codes)[error.value.code] > MAX_COPIES
    ensures error.Some? && error.value.kind == Lflist ==>
      (error.value.code in l.content && multiset(codes)[error.value.code] > l.content[error.value.code]) || !CreditsKept(l, codes)
  {
    hide Used, Accepts, Passed, Total, CreditsKept;
    var counts: map<U32, int> := map[];
    var used: map<string, int> := map[];
    NothingPassed(l, codes);
    for i := 0 to |codes|
      invariant Passed(l, codes, i)
      invariant forall code: U32 :: At(counts, code) == multiset(codes[..i])[code]
      invariant forall key :: key in l.creditLimits ==> At(used, key) == Used(l, codes[..i], key)
    {
      var code := codes[i];
      NextCard(l, codes, i);
      FewerBefore(codes, i + 1, code);
      var count := At(counts, code) + 1;
      counts := counts[code := count];
      if count > MAX_COPIES {
        TooMany(l, codes, i);
        return Some(DeckError(CardCount, code));
      }
      if code in l.content && count > l.content[code] {
        TooMany(l, codes, i);
        return Some(DeckError(Lflist, code));
      }
      var dear: Option<string>;
      used, dear := ChargeCredits(codes, i, l, keys, used);
      if dear.Some? {
        TooDear(l, codes, i, dear.value);
        return Some(DeckError(Lflist, code));
      }
      PassedNext(l, codes, i);
    }
    PassedAll(l, codes);
    error := None;
  }

  /** Adds the credits of card `i` key by key, up to the first key over its limit. */
  method ChargeCredits(codes: seq<U32>, i: nat, l: LFList, keys: seq<string>, before: map<string, int>)
    returns (used: map<string, int>, dear: Option<string>)
    requires i < |codes| && EachKeyOnce(keys, l)
    requires forall key :: key in l.creditLimits ==> At(before, key) == Used(l, codes[..i], key)
    ensures dear.Some? ==> dear.value in l.creditLimits && Used(l, codes[..i + 1], dear.value) > l.creditLimits[dear.value]
    ensures dear.None? ==> forall key :: key in l.creditLimits ==>
      At(used, key) == Used(l, codes[..i + 1], key) <= l.creditLimits[key]
  {
    hide Used;
    NextCard(l, codes, i);
    used := before;
    for k := 0 to |keys|
      invariant forall key :: key in keys[..k] ==> key in l.creditLimits && At(used, key) == Used(l, codes[..i + 1], key) <= l.creditLimits[key]
      invariant forall key :: key in l.creditLimits && key !in keys[..k] ==> At(used, key) == Used(l, codes[..i], key)
    {
      var key := keys[k];
      assert key in keys && key !in keys[..k];
      assert keys[..k + 1] == keys[..k] + [key];
      used := used[key := (At(used, key) + Credit(l, codes[i], key)) % 0x1_0000_0000];
      if used[key] > l.creditLimits[key] { return used, Some(key); }
    }
    assert keys[..|keys|] == keys;
    dear := None;
  }

  lemma NothingPassed(l: LFList, codes: seq<U32>)
    ensures Passed(l, codes, 0)
    ensures forall key :: Used(l, codes[..0], key) == 0
  {
  }

  // ---------- the rule ----------

  const OCG: bv8 := 1
  const TCG: bv8 := 2

  predicate Allows(allowed: bv8, availability: bv8) { availability & allowed == allowed }

  function RuleKind(allowed: bv8, availability: bv8): ErrorKind {
    if availability & OCG == OCG && allowed != OCG then OcgOnly
    else if availability & TCG == TCG && allowed != TCG then TcgOnly
    else NotAvailable
  }

  function AvailabilityOf(db: CardDb, code: U32): bv8 { if db(code).Some? then db(code).value.availability else 0 }

  predicate FirstBarred(codes: seq<U32>, allowed: bv8, db: CardDb, i: nat) {
    i < |codes| && !Allows(allowed, AvailabilityOf(db, codes[i])) && forall j :: 0 <= j < i ==> Allows(allowed, AvailabilityOf(db, codes[j]))
  }

  function BarredError(codes: seq<U32>, allowed: bv8, db: CardDb, i: nat): DeckError
    requires i < |codes|
  {
    DeckError(RuleKind(allowed, AvailabilityOf(db, codes[i])), codes[i])
  }

  /** The first card the rule does not allow is reported. */
  method CheckRule(codes: seq<U32>, allowed: bv8, db: CardDb) returns (error: Option<DeckError>)
    ensures error.None? <==> forall c :: c in codes ==> Allows(allowed, AvailabilityOf(db, c))
    ensures error.Some? ==> exists i :: FirstBarred(codes, allowed, db, i) && error.value == BarredError(codes, allowed, db, i)
  {
    for i := 0 to |codes|
      invariant forall j :: 0 <= j < i ==> Allows(allowed, AvailabilityOf(db, codes[j]))
    {
      if !Allows(allowed, AvailabilityOf(db, codes[i])) {
        assert codes[i] in codes && FirstBarred(codes, allowed, db, i);
        return Some(BarredError(codes, allowed, db, i));
      }
    }
    error := None;
  }

  /** A rule asks for every availability it stands for; the rule that stands for none bars nothing. */
  lemma AllowsMeans(allowed: bv8, availability: bv8)
    ensures Allows(allowed, availability) <==> forall k: bv8 :: k < 8 ==> HasBit(allowed, k) ==> HasBit(availability, k)
    ensures Allows(0, availability)
  {
    forall k: bv8 | k < 8 && Allows(allowed, availability) && HasBit(allowed, k) ensures HasBit(availability, k) {
    }
    if forall k: bv8 :: k < 8 ==> HasBit(allowed, k) ==> HasBit(availability, k) {
      assert HasBit(allowed, 0) ==> HasBit(availability, 0);
      assert HasBit(allowed, 1) ==> HasBit(availability, 1);
      assert HasBit(allowed, 2) ==> HasBit(availability, 2);
      assert HasBit(allowed, 3) ==> HasBit(availability, 3);
      assert HasBit(allowed, 4) ==> HasBit(availability, 4);
      assert HasBit(allowed, 5) ==> HasBit(availability, 5);
      assert HasBit(allowed, 6) ==> HasBit(availability, 6);
      assert HasBit(allowed, 7) ==> HasBit(availability, 7);
    }
  }

  predicate HasBit(n: bv8, k: bv8)
    requires k < 8
  {
    (n >> k) & 1 == 1
  }

  /** What a barred card is reported as: of the OCG, of the TCG, or of neither, unless just that was asked for. */
  lemma BarredMeans(codes: seq<U32>, allowed: bv8, db: CardDb, i: nat)
    requires FirstBarred(codes, allowed, db, i)
    ensures var error, availability := BarredError(codes, allowed, db, i), if db(codes[i]).Some? then db(codes[i]).value.availability else 0;
      && error.code == codes[i]
      && (error.kind == OcgOnly <==> HasBit(availability, 0) && allowed != 1)
      && (error.kind == TcgOnly <==> HasBit(availability, 1) && allowed != 2 && !HasBit(availability, 0))
      && error.kind in {OcgOnly, TcgOnly, NotAvailable}
      && availability & allowed != allowed
    ensures forall j :: 0 <= j < i && allowed != 0 ==> db(codes[j]).Some? && db(codes[j]).value.availability & allowed == allowed
  {
    forall j | 0 <= j < i
      ensures Allows(allowed, AvailabilityOf(db, codes[j])) <==> (allowed != 0 ==> db(codes[j]).Some? && db(codes[j]).value.availability & allowed == allowed)
    {
      FitsAvailability(db, allowed, codes[j]);
    }
    assert HasBit(AvailabilityOf(db, codes[i]), 0) <==> AvailabilityOf(db, codes[i]) & 1 == 1;
    assert HasBit(AvailabilityOf(db, codes[i]), 1) <==> AvailabilityOf(db, codes[i]) & 2 == 2;
  }

  // ---------- all checks ----------

  function AllCodes(d: Deck): seq<U32> { d.main + d.extra + d.side }

  /** The codes the cards count as; an unknown card counts as zero. */
  function DuelCodes(db: CardDb, codes: seq<U32>): (r: seq<U32>)
    ensures |r| == |codes|
  {
    if codes == [] then [] else [if db(codes[0]).Some? then db(codes[0]).value.duelCode else 0] + DuelCodes(db, codes[1..])
  }

  /** The cards of a deck, by index, that count as `code`: their entry says so, or they have none and count as zero. */
  ghost function Copies(db: CardDb, cards: seq<U32>, code: nat): set<nat> {
    set i: nat | i < |cards| && code == (if db(cards[i]).Some? then db(cards[i]).value.duelCode else 0)
  }

  lemma {:induction false} DuelCodeAt(db: CardDb, codes: seq<U32>, i: nat)
    requires i < |codes|
    ensures DuelCodes(db, codes)[i] == if db(codes[i]).Some? then db(codes[i]).value.duelCode else 0
    decreases codes
  {
    if i > 0 { DuelCodeAt(db, codes[1..], i - 1); }
  }

  ghost function PlacesOf(s: seq<U32>, code: U32): set<nat> { set i: nat | i < |s| && s[i] == code }

  lemma NextPlace(s: seq<U32>, x: U32, code: U32)
    ensures PlacesOf(s + [x], code) == PlacesOf(s, code) + if x == code then {|s|} else {}
    ensures |PlacesOf(s + [x], code)| == |PlacesOf(s, code)| + if x == code then 1 else 0
  {
    var before, after := PlacesOf(s, code), PlacesOf(s + [x], code);
    assert |s| !in before;
    assert after == before + if x == code then {|s|} else {};
  }

  lemma {:induction false} PlacesCounted(s: seq<U32>, code: U32)
    ensures multiset(s)[code] == |PlacesOf(s, code)|
    decreases s
  {
    if s == [] {
      assert PlacesOf(s, code) == {};
    } else {
      var n := |s| - 1;
      PlacesCounted(s[..n], code);
      NextPlace(s[..n], s[n], code);
      hide PlacesOf;
      assert s == s[..n] + [s[n]];
    }
  }

  /** What is counted are the cards that count as a code, however they are printed. */
  lemma {:induction false} CopiesCounted(db: CardDb, cards: seq<U32>, code: U32)
    ensures |Copies(db, cards, code)| == multiset(DuelCodes(db, cards))[code]
  {
    var codes := DuelCodes(db, cards);
    PlacesCounted(codes, code);
    forall i: nat | i < |cards| { DuelCodeAt(db, cards, i); }
    assert Copies(db, cards, code) == PlacesOf(codes, code);
  }

  /** What the sizes, sections and the rule ask of a deck, whose cards of no entry have no type and no availability. */
  ghost predicate FitsRule(db: CardDb, d: Deck, allowed: bv8) {
    && 40 <= |d.main| <= 60 && |d.extra| <= 15 && |d.side| <= 15
    && (forall c :: c in d.main && db(c).Some? ==> db(c).value.cardType & 0x4000 == 0 && db(c).value.cardType & 0x480_2040 == 0)
    && (forall c :: c in d.side && db(c).Some? ==> db(c).value.cardType & 0x4000 == 0)
    && (forall c :: c in d.extra ==> db(c).Some? && db(c).value.cardType & 0x4000 == 0 && db(c).value.cardType & 0x480_2040 != 0)
    && (forall c :: c in d.main + d.extra + d.side && allowed != 0 ==> db(c).Some? && db(c).value.availability & allowed == allowed)
  }

  /** At most three cards of the whole deck count as the same code, and no more than the list has for it. */
  ghost predicate FewOfEach(db: CardDb, d: Deck, l: LFList) {
    forall code: U32 ::
      && |Copies(db, d.main + d.extra + d.side, code)| <= 3
      && (code in l.content ==> |Copies(db, d.main + d.extra + d.side, code)| <= l.content[code])
  }

  /** No credit counter is above its limit after any card; a counter holds 32 bits. */
  ghost predicate CreditsHold(db: CardDb, d: Deck, l: LFList) {
    forall key, i :: key in l.creditLimits && 0 < i <= |d.main + d.extra + d.side| ==>
      Cost(db, l, d.main + d.extra + d.side, i, key) % 0x1_0000_0000 <= l.creditLimits[key]
  }

  /** What the first `i` cards cost under a credit, each for the code it counts as. */
  ghost function Cost(db: CardDb, l: LFList, cards: seq<U32>, i: nat, key: string): nat
    requires i <= |cards|
  {
    if i == 0 then 0
    else
      var entry := db(cards[i - 1]);
      Cost(db, l, cards, i - 1, key) + Credit(l, if entry.Some? then entry.value.duelCode else 0, key)
  }

  lemma {:induction false} CostIsTotal(db: CardDb, l: LFList, cards: seq<U32>, i: nat, key: string)
    requires i <= |cards|
    ensures Total(l, DuelCodes(db, cards)[..i], key) == Cost(db, l, cards, i, key)
    decreases i
  {
    if i > 0 {
      var codes := DuelCodes(db, cards);
      CostIsTotal(db, l, cards, i - 1, key);
      DuelCodeAt(db, cards, i - 1);
      assert codes[..i] == codes[..i - 1] + [codes[i - 1]];
      TotalAppend(l, codes[..i - 1], [codes[i - 1]], key);
      TotalOne(l, codes[i - 1], key);
    }
  }

  lemma FitsAvailability(db: CardDb, allowed: bv8, c: U32)
    ensures Allows(allowed, AvailabilityOf(db, c)) <==> (allowed != 0 ==> db(c).Some? && db(c).value.availability & allowed == allowed)
  {
  }

  lemma FitsRuleExactly(db: CardDb, d: Deck, allowed: bv8)
    ensures FitsRule(db, d, allowed) <==>
      CheckLength(d).None? && CheckIllegal(db, d).None? && forall c :: c in AllCodes(d) ==> Allows(allowed, AvailabilityOf(db, c))
  {
    hide BelongsInMain, BelongsInSide, BelongsInExtra, Allows, AvailabilityOf;
    forall c | c in d.main
      ensures BelongsInMain(db, c) <==> (db(c).Some? ==> db(c).value.cardType & 0x4000 == 0 && db(c).value.cardType & 0x480_2040 == 0)
    {
      MisplacedMeans(db, c);
    }
    forall c | c in d.side ensures BelongsInSide(db, c) <==> (db(c).Some? ==> db(c).value.cardType & 0x4000 == 0) {
      MisplacedMeans(db, c);
    }
    forall c | c in d.extra
      ensures BelongsInExtra(db, c) <==> db(c).Some? && db(c).value.cardType & 0x4000 == 0 && db(c).value.cardType & 0x480_2040 != 0
    {
      MisplacedMeans(db, c);
    }
    forall c | c in AllCodes(d)
      ensures Allows(allowed, AvailabilityOf(db, c)) <==> (allowed != 0 ==> db(c).Some? && db(c).value.availability & allowed == allowed)
    {
      FitsAvailability(db, allowed, c);
    }
  }

  lemma FewOfEachExactly(db: CardDb, d: Deck, l: LFList)
    ensures Accepts(l, DuelCodes(db, AllCodes(d))) <==> FewOfEach(db, d, l) && CreditsHold(db, d, l)
    ensures CreditsKept(l, DuelCodes(db, AllCodes(d))) <==> CreditsHold(db, d, l)
  {
    var codes := DuelCodes(db, AllCodes(d));
    hide Total, Copies, DuelCodes, Cost;
    forall key, i | key in l.creditLimits && 0 < i <= |codes|
      ensures Used(l, codes[..i], key) == Cost(db, l, AllCodes(d), i, key) % 0x1_0000_0000
    {
      CostIsTotal(db, l, AllCodes(d), i, key);
    }
    forall code: U32
      ensures FewCopies(l, codes, code) <==>
        |Copies(db, AllCodes(d), code)| <= 3 && (code in l.content ==> |Copies(db, AllCodes(d), code)| <= l.content[code])
      ensures code !in codes ==> FewCopies(l, codes, code)
    {
      CopiesCounted(db, AllCodes(d), code);
      NotCounted(codes, code);
    }
  }

  lemma NotCounted(codes: seq<U32>, code: U32)
    ensures code !in codes ==> multiset(codes)[code] == 0
  {
  }

  /**
  A deck is accepted if and only if it fits the sizes, the sections and the rule, holds few enough cards that count
  as the same code, and stays within its credits; the first check that fails is reported.
  */
  method Check(d: Deck, l: LFList, keys: seq<string>, allowed: bv8, db: CardDb) returns (error: Option<DeckError>)
    requires EachKeyOnce(keys, l)
    ensures error.None? <==> FitsRule(db, d, allowed) && FewOfEach(db, d, l) && CreditsHold(db, d, l)
    ensures CheckLength(d).Some? ==> error == CheckLength(d)
    ensures CheckLength(d).None? && CheckIllegal(db, d).Some? ==> error == CheckIllegal(db, d)
    ensures CheckLength(d).None? && CheckIllegal(db, d).None? && !FitsRule(db, d, allowed) ==>
      error.Some? && error.value.kind in {OcgOnly, TcgOnly, NotAvailable}
    ensures FitsRule(db, d, allowed) && error.Some? ==>
      && error.value.kind in {CardCount, Lflist}
      && (error.value.kind == CardCount ==> |Copies(db, d.main + d.extra + d.side, error.value.code)| > 3)
      && (error.value.kind == Lflist ==>
            || !CreditsHold(db, d, l)
            || (error.value.code in l.content && |Copies(db, d.main + d.extra + d.side, error.value.code)| > l.content[error.value.code]))
  {
    FitsRuleExactly(db, d, allowed);
    FewOfEachExactly(db, d, l);
    hide CheckIllegal, Accepts, CreditsKept, FitsRule, FewOfEach, CreditsHold;
    error := CheckLength(d);
    if error.Some? { return; }
    error := CheckIllegalCards(db, d);
    if error.Some? { return; }
    error := CheckRule(AllCodes(d), allowed, db);
    if error.Some? { return; }
    error := CheckDeckLflists(DuelCodes(db, AllCodes(d)), l, keys);
    if error.Some? { CopiesCounted(db, AllCodes(d), error.value.code); }
  }

  /** A loaded deck that arrived without an extra deck is never refused for its extra deck. */
  method LoadAndCheck(d: Deck, l: LFList, keys: seq<string>, allowed: bv8, db: CardDb) returns (error: Option<DeckError>)
    requires d.extra == [] && EachKeyOnce(keys, l)
    ensures error.Some? ==> error.value.kind != ExtraCount
  {
    LoadedIsLegal(db, d);
    hide Loaded, CheckIllegal, Accepts;
    var deck := new PlayerDeck(d);
    var removed := deck.Load(db);
    error := Check(deck.View(), l, keys, allowed, db);
  }
}
