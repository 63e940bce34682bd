/** Messages that work on whole zones: swaps, draws, deck reversal, and the exchange of grave and deck. */
module Deals {
  import opened Options
  import opened Board
  import opened Placement
  import opened Zoning
  import opened Evolution
  import opened Moves
  import opened Updates

  // ---------- where a card added to a zone ends up ----------

  /** A list zone after `key` is added: a deck takes it at an index, the extra deck below its face-up pendulum cards. */
  function AddedList(b: Board, key: Key, z: Zone, sequence: U8): seq<Key> {
    var list := List(b, z);
    match z.kind
    case Deck => InsertAt(list, Min(sequence, |list|), key)
    case Extra => InsertAt(list, ExtraIndex(b, z.player, FaceupPendulumKey(b.cards, key)), key)
    case _ => list + [key]
  }

  /** Adding a card changes one zone: a slot is filled, or a list is one card longer. */
  lemma AddCardZones(b: Board, key: Key, p: Player, location: Location, sequence: U8)
    requires location.base.In? && !location.overlay
    ensures var r := AddCard(b, key, p, location, sequence);
      var z := Zone(p, location.base.kind);
      r.zones == if IsSlots(z.kind) then PutSlot(b.zones, z, sequence, Some(key)) else PutList(b.zones, z, AddedList(b, key, z, sequence))
  {
    var placed := b.(cards := SetPlace(b.cards, key, p, location, sequence));
    assert FaceupPendulumKey(placed.cards, key) == FaceupPendulumKey(b.cards, key);
    hide ResetSequence, ClearTargets, SetPlace, SetType, SetSequence, FaceupPendulumKey, PutList, PutSlot, ExtraIndex;
    if location.base.kind.Hand? {
      var list := List(b, Zone(p, Hand));
      assert InsertAt(list, |list|, key) == list + [key];
    }
    hide InsertAt, IsSlots;
    assert IsSlots(location.base.kind) == (location.base.kind.MZone? || location.base.kind.SZone?) by { SlotKinds(location.base.kind); }
  }

  lemma SlotKinds(kind: Kind)
    ensures IsSlots(kind) == (kind.MZone? || kind.SZone?)
  {
  }

  ghost predicate SameZoneBut(b: Board, r: Board, z: Zone) {
    forall y: Zone :: y != z ==> ListIn(r.zones, y) == ListIn(b.zones, y) && SlotsIn(r.zones, y) == SlotsIn(b.zones, y)
  }

  lemma AddCardOtherZones(b: Board, key: Key, p: Player, location: Location, sequence: U8)
    requires location.base.In? && !location.overlay
    ensures var r := AddCard(b, key, p, location, sequence);
      var z := Zone(p, location.base.kind);
      SameZoneBut(b, r, z) && (!IsSlots(z.kind) ==> |List(r, z)| == |List(b, z)| + 1)
  {
    AddCardZones(b, key, p, location, sequence);
    hide AddCard;
  }

  // ---------- swap ----------

  lemma AddTwice(b: Board, key: Key, p: Player, location: Location, sequence: U8)
    requires location.base.In? && !location.overlay && IsSlots(location.base.kind) && key in b.cards
    requires sequence < |SlotsIn(b.zones, Zone(p, location.base.kind))|
    ensures var r := AddCard(b, key, p, location, sequence); AddCard(r, key, p, location, sequence) == r
  {
    var z := Zone(p, location.base.kind);
    PutSlotCells(b.zones, z, sequence, Some(key));
    var r := AddCard(b, key, p, location, sequence);
    assert SlotsIn(r.zones, z)[sequence := Some(key)] == SlotsIn(r.zones, z);
    assert r.zones.slots[z := SlotsIn(r.zones, z)] == r.zones.slots;
    assert SetPlace(r.cards, key, p, location, sequence) == r.cards;
  }

  lemma SwapApart(b: Board, at1: InfoLocation, at2: InfoLocation, first: Key, second: Key)
    requires Inv(b) && OccupiedSlot(b, at1) && OccupiedSlot(b, at2)
    requires GetInfo(b, at1) == Some(first) && GetInfo(b, at2) == Some(second)
    requires Zone(at1.controller, at1.location.base.kind) != Zone(at2.controller, at2.location.base.kind) || at1.sequence != at2.sequence
    ensures var b1 := RemoveCard(b, at1.controller, at1.location, at1.sequence);
      var b2 := RemoveCard(b1, at2.controller, at2.location, at2.sequence);
      && InvLoose(b2, {first, second}) && first != second
      && b2.cards.Keys == b.cards.Keys && StaysExact(b.cards, b2.cards)
      && Free(b2, at2.controller, at2.location, at2.sequence)
      && Free(b2, at1.controller, at1.location, at1.sequence)
  {
    var z1, z2 := Zone(at1.controller, at1.location.base.kind), Zone(at2.controller, at2.location.base.kind);
    var b1 := RemoveCard(b, at1.controller, at1.location, at1.sequence);
    RemoveCardZones(b, at1.controller, at1.location, at1.sequence, first);
    ZoneCard(b, at1.controller, at1.location, at1.sequence, first, {});
    ZoneCard(b, at2.controller, at2.location, at2.sequence, second, {});
    hide InvLoose, Numbered, EquipsExact, RemoveCard;
    RemoveCardKeeps(b, at1.controller, at1.location, at1.sequence, first, {});
    assert Cell(b1, z2, at2.sequence) == Some(second);
    RemoveCardZones(b1, at2.controller, at2.location, at2.sequence, second);
    assert {} + {first} == {first} && {first} + {second} == {first, second};
    RemoveCardKeeps(b1, at2.controller, at2.location, at2.sequence, second, {first});
  }

  lemma SwapTogether(b: Board, at1: InfoLocation, at2: InfoLocation, first: Key)
    requires Inv(b) && OccupiedSlot(b, at1) && GetInfo(b, at1) == Some(first)
    requires at2.controller == at1.controller && at2.location == at1.location && at2.sequence == at1.sequence
    ensures var r := SwapStep(b, at1, at2); Inv(r) && r.cards.Keys == b.cards.Keys && StaysExact(b.cards, r.cards)
  {
    var b1 := RemoveCard(b, at1.controller, at1.location, at1.sequence);
    RemoveCardZones(b, at1.controller, at1.location, at1.sequence, first);
    assert RemoveCard(b1, at1.controller, at1.location, at1.sequence) == b1;
    hide InvLoose, Numbered, EquipsExact, RemoveCard, AddCard;
    RemoveCardKeeps(b, at1.controller, at1.location, at1.sequence, first, {});
    assert {} + {first} == {first} && {first} - {first} == {};
    AddCardKeeps(b1, first, at1.controller, at1.location, at1.sequence, {first});
    AddTwice(b1, first, at1.controller, at1.location, at1.sequence);
  }

  lemma SwapKeeps(b: Board, at1: InfoLocation, at2: InfoLocation)
    requires Inv(b) && OccupiedSlot(b, at1) && OccupiedSlot(b, at2)
    ensures Inv(SwapStep(b, at1, at2)) && SwapStep(b, at1, at2).cards.Keys == b.cards.Keys
    ensures StaysExact(b.cards, SwapStep(b, at1, at2).cards)
  {
    hide InvLoose, Numbered, EquipsExact, RemoveCard, AddCard;
    var first, second := GetInfo(b, at1).value, GetInfo(b, at2).value;
    var z1, z2 := Zone(at1.controller, at1.location.base.kind), Zone(at2.controller, at2.location.base.kind);
    if z1 == z2 && at1.sequence == at2.sequence {
      SwapTogether(b, at1, at2, first);
    } else {
      SwapApart(b, at1, at2, first, second);
      var b2 := RemoveCard(RemoveCard(b, at1.controller, at1.location, at1.sequence), at2.controller, at2.location, at2.sequence);
      AddCardKeeps(b2, first, at2.controller, at2.location, at2.sequence, {first, second});
      assert {first, second} - {first} == {second} && {second} - {second} == {};
      AddCardZones(b2, first, at2.controller, at2.location, at2.sequence);
      PutSlotCells(b2.zones, z2, at2.sequence, Some(first));
      var b3 := AddCard(b2, first, at2.controller, at2.location, at2.sequence);
      assert |SlotsIn(b3.zones, z1)| == |SlotsIn(b2.zones, z1)|;
      AddCardKeeps(b3, second, at1.controller, at1.location, at1.sequence, {second});
    }
  }

  // ---------- reversal ----------

  lemma {:induction false} ReverseMembers(s: seq<Key>)
    ensures KeysOf(Reverse(s)) == KeysOf(s)
    ensures Distinct(s) ==> Distinct(Reverse(s))
  {
    var r := Reverse(s);
    forall k | k in s ensures k in r {
      var i :| 0 <= i < |s| && s[i] == k;
      assert r[|s| - 1 - i] == k;
    }
  }

  lemma ReverseDeckKeeps(b: Board, p: Player)
    requires Inv(b)
    ensures Inv(ReverseDeckOf(b, p)) && ReverseDeckOf(b, p).cards.Keys == b.cards.Keys
    ensures StaysExact(b.cards, ReverseDeckOf(b, p).cards)
  {
    var z := Zone(p, Deck);
    ListDistinct(b, z, {});
    ReverseMembers(List(b, z));
    hide InvLoose, Numbered, EquipsExact;
    Relist(b, z, Reverse(List(b, z)), {});
    assert {} + KeysOf(List(b, z)) - KeysOf(Reverse(List(b, z))) == {};
  }

  lemma ReverseDecksKeep(b: Board)
    requires Inv(b)
    ensures var r := ReverseDeckOf(ReverseDeckOf(b, First), Second).(deckReversed := !b.deckReversed);
      Inv(r) && r.cards.Keys == b.cards.Keys && StaysExact(b.cards, r.cards)
  {
    hide InvLoose, Numbered, EquipsExact, ReverseDeckOf;
    ReverseDeckKeeps(b, First);
    ReverseDeckKeeps(ReverseDeckOf(b, First), Second);
    FlagFree(ReverseDeckOf(ReverseDeckOf(b, First), Second), !b.deckReversed);
  }

  lemma FlagFree(b: Board, flag: bool)
    requires Inv(b)
    ensures Inv(b.(deckReversed := flag))
  {
  }

  // ---------- draw ----------

  lemma {:induction false} DrawCardsKeep(b: Board, p: Player, count: nat)
    requires Inv(b)
    requires |List(b, Zone(p, Hand))| + Min(count, |List(b, Zone(p, Deck))|) <= NUMBERS
    ensures Inv(DrawCards(b, p, count)) && DrawCards(b, p, count).cards.Keys == b.cards.Keys
    ensures StaysExact(b.cards, DrawCards(b, p, count).cards)
    decreases count
  {
    hide InvLoose, Numbered, EquipsExact, AddCard;
    var deck := List(b, Zone(p, Deck));
    if count > 0 && deck != [] {
      var top := deck[|deck| - 1];
      var b1 := SetList(b, Zone(p, Deck), deck[..|deck| - 1]);
      PopKeeps(b, Zone(p, Deck), {});
      PutListCells(b.zones, Zone(p, Deck), deck[..|deck| - 1]);
      assert {} + {top} == {top} && {top} - {top} == {};
      assert List(b1, Zone(p, Hand)) == List(b, Zone(p, Hand));
      AddCardKeeps(b1, top, p, Location(In(Hand), false), 0, {top});
      AddCardOtherZones(b1, top, p, Location(In(Hand), false), 0);
      DrawCardsKeep(AddCard(b1, top, p, Location(In(Hand), false), 0), p, count - 1);
    }
  }

  lemma DrawKeeps(b: Board, p: Player, codes: seq<U32>)
    requires Inv(b)
    requires |List(b, Zone(p, Hand))| + Min(|codes|, |List(b, Zone(p, Deck))|) <= NUMBERS
    ensures Inv(DrawStep(b, p, codes)) && DrawStep(b, p, codes).cards.Keys == b.cards.Keys
    ensures StaysExact(b.cards, DrawStep(b, p, codes).cards)
  {
    hide InvLoose, Numbered, EquipsExact, NameFromTop, DrawCards;
    var deck := List(b, Zone(p, Deck));
    var c := NameFromTop(b.cards, deck, |deck| - 1, codes, b.deckReversed);
    NameFromTopFrame(b.cards, deck, |deck| - 1, codes, b.deckReversed);
    SameLinksKeep(b, c, {});
    DrawCardsKeep(b.(cards := c), p, |codes|);
  }

  // ---------- grave and deck ----------

  lemma {:induction false} SetLocationsEffect(cards: Arena, list: seq<Key>, location: Location)
    ensures var r := SetLocations(cards, list, location);
      && r.Keys == cards.Keys
      && forall k :: k in cards ==> r[k] == if k in list then cards[k].(location := location) else cards[k]
    decreases list
  {
    if list != [] { SetLocationsEffect(SetLocation(cards, list[0], location), list[1..], location); }
  }

  /** The old deck becomes the grave; the old grave is loose. */
  lemma SwapPiles(b: Board, p: Player)
    requires Inv(b)
    ensures var grave, deck := List(b, Zone(p, Grave)), List(b, Zone(p, Deck));
      var r := SetList(SetList(b, Zone(p, Grave), deck), Zone(p, Deck), []).(
        cards := SetLocations(b.cards, deck, Location(In(Grave), false)));
      && InvLoose(r, KeysOf(grave)) && r.cards.Keys == b.cards.Keys && StaysExact(b.cards, r.cards)
      && Distinct(grave) && |grave| <= NUMBERS
      && (forall i :: 0 <= i < |grave| ==> grave[i] in r.cards && r.cards[grave[i]] == b.cards[grave[i]])
      && (forall i :: 0 <= i < |grave| ==> r.cards[grave[i]].controller == Some(p))
  {
    hide InvLoose, Numbered, EquipsExact, Distinct, SetLocations, At, SameOverlays, SameEquips, SameTargets;
    var zg, zd := Zone(p, Grave), Zone(p, Deck);
    var grave, deck := List(b, zg), List(b, zd);
    var b2 := SetList(SetList(b, zg, []), zd, []);
    ListDistinct(b, zg, {});
    LiftPiles(b, p);
    var loose := KeysOf(grave) + KeysOf(deck);
    var c := SetLocations(b.cards, deck, Location(In(Grave), false));
    FileInGrave(b.cards, deck, p);
    PlacesOfLooseKeep(b2, c, loose);
    LayList(b2.(cards := c), zg, deck, loose);
    assert loose - KeysOf(deck) == KeysOf(grave);
    assert PutList(b2.zones, zg, deck) == PutList(PutList(b.zones, zg, deck), zd, []);
    forall i | 0 <= i < |grave| ensures grave[i] in c && c[grave[i]] == b.cards[grave[i]] {
      assert grave[i] in KeysOf(grave);
      assert FiledUnder(b.cards, grave[i], zg);
    }
  }

  lemma LiftPiles(b: Board, p: Player)
    requires Inv(b)
    ensures var grave, deck := List(b, Zone(p, Grave)), List(b, Zone(p, Deck));
      var r := SetList(SetList(b, Zone(p, Grave), []), Zone(p, Deck), []);
      && InvLoose(r, KeysOf(grave) + KeysOf(deck))
      && Distinct(deck) && KeysOf(deck) !! KeysOf(grave) && List(r, Zone(p, Grave)) == []
      && (forall i :: 0 <= i < |deck| ==> deck[i] in b.cards && At(b.cards[deck[i]], Zone(p, Deck), i))
  {
    var zg, zd := Zone(p, Grave), Zone(p, Deck);
    var b1 := SetList(b, zg, []);
    TakeList(b, zg, {});
    hide InvLoose, Numbered, EquipsExact;
    assert {} + KeysOf(List(b, zg)) == KeysOf(List(b, zg));
    assert List(b1, zd) == List(b, zd);
    TakeList(b1, zd, KeysOf(List(b, zg)));
  }

  lemma {:induction false} FileInGrave(cards: Arena, deck: seq<Key>, p: Player)
    requires forall i :: 0 <= i < |deck| ==> deck[i] in cards && At(cards[deck[i]], Zone(p, Deck), i)
    ensures var r := SetLocations(cards, deck, Location(In(Grave), false));
      && SamePlacesBut(cards, r, KeysOf(deck)) && SameRelations(cards, r)
      && (forall i :: 0 <= i < |deck| ==> deck[i] in r && At(r[deck[i]], Zone(p, Grave), i))
      && (forall k :: k in cards && k !in deck ==> r[k] == cards[k])
  {
    var grave := Location(In(Grave), false);
    var r := SetLocations(cards, deck, grave);
    SetLocationsEffect(cards, deck, grave);
    hide SetLocations;
    forall i | 0 <= i < |deck| ensures deck[i] in r && At(r[deck[i]], Zone(p, Grave), i) {
      assert At(cards[deck[i]], Zone(p, Deck), i);
      var k := deck[i];
      assert k in deck && k in cards;
      assert r[k] == cards[k].(location := grave);
    }
  }

  lemma AddToExtraOthers(b: Board, key: Key, p: Player)
    ensures var r := AddCard(b, key, p, Location(In(Extra), false), 0);
      && r.cards.Keys == b.cards.Keys
      && forall k :: k in b.cards && k != key && k !in List(b, Zone(p, Extra)) ==> r.cards[k] == b.cards[k]
  {
    var placed := b.(cards := SetPlace(b.cards, key, p, Location(In(Extra), false), 0));
    var list := InsertAt(List(b, Zone(p, Extra)), ExtraIndex(placed, p, FaceupPendulumKey(placed.cards, key)), key);
    ResetSequenceFrame(placed.cards, list, 0);
    assert list[0..] == list;
    hide ResetSequence;
  }

  /** What the cards still to be dealt and those kept for the deck have in common. */
  ghost predicate Dealing(b: Board, p: Player, source: seq<Key>, kept: seq<Key>) {
    && InvLoose(b, KeysOf(source) + KeysOf(kept)) && List(b, Zone(p, Deck)) == []
    && Distinct(source) && Distinct(kept) && KeysOf(source) !! KeysOf(kept)
    && |source| + |kept| <= NUMBERS
    && |List(b, Zone(p, Extra))| + ExtraTypes(b.cards, source) <= NUMBERS
    && (forall i :: 0 <= i < |source| ==> source[i] in b.cards && b.cards[source[i]].controller == Some(p))
    && (forall i :: 0 <= i < |kept| ==> kept[i] in b.cards && At(b.cards[kept[i]], Zone(p, Deck), i))
  }

  lemma {:induction false} ExtraTypesSame(c: Arena, d: Arena, list: seq<Key>)
    requires forall i :: 0 <= i < |list| ==> IsExtraDeckType(c, list[i]) == IsExtraDeckType(d, list[i])
    ensures ExtraTypes(c, list) == ExtraTypes(d, list)
    decreases list
  {
    if list != [] { ExtraTypesSame(c, d, list[1..]); }
  }

  lemma HeadAndTail(s: seq<Key>)
    requires s != [] && Distinct(s)
    ensures KeysOf(s) == {s[0]} + KeysOf(s[1..]) && s[0] !in KeysOf(s[1..]) && Distinct(s[1..])
  {
  }

  lemma DealToExtra(b: Board, p: Player, source: seq<Key>, kept: seq<Key>)
    requires Dealing(b, p, source, kept) && source != [] && IsExtraDeckType(b.cards, source[0])
    ensures var c := SetPosition(b.cards, source[0], FACEDOWN);
      var r := AddCard(b.(cards := c), source[0], p, Location(In(Extra), false), 0);
      Dealing(r, p, source[1..], kept) && r.cards.Keys == b.cards.Keys && StaysExact(b.cards, r.cards)
  {
    hide InvLoose, Numbered, EquipsExact, AddCard;
    var key, rest := source[0], source[1..];
    var loose := KeysOf(source) + KeysOf(kept);
    var c := SetPosition(b.cards, key, FACEDOWN);
    var b1 := b.(cards := c);
    HeadAndTail(source);
    SetPositionKeeps(b, key, FACEDOWN, loose);
    ListDistinct(b, Zone(p, Extra), loose);
    AddCardKeeps(b1, key, p, Location(In(Extra), false), 0, loose);
    AddCardOtherZones(b1, key, p, Location(In(Extra), false), 0);
    AddToExtraOthers(b1, key, p);
    var r := AddCard(b1, key, p, Location(In(Extra), false), 0);
    assert loose - {key} == KeysOf(rest) + KeysOf(kept);
    forall k | k in KeysOf(rest) + KeysOf(kept) ensures k in r.cards && r.cards[k] == b.cards[k] {
      assert k in loose && k !in List(b, Zone(p, Extra));
    }
    forall i | 0 <= i < |rest| ensures rest[i] in r.cards && r.cards[rest[i]] == b.cards[rest[i]] {
      assert rest[i] in KeysOf(rest) && rest[i] == source[i + 1];
    }
    forall i | 0 <= i < |kept| ensures kept[i] in r.cards && r.cards[kept[i]] == b.cards[kept[i]] {
      assert kept[i] in KeysOf(kept);
    }
    ExtraTypesSame(b.cards, r.cards, rest);
  }

  /** A loose card filed as the next card of the deck. */
  lemma FileInDeck(b: Board, key: Key, i: nat, loose: set<Key>)
    requires InvLoose(b, loose) && key in loose && i < NUMBERS
    ensures var r := SetSequence(SetLocation(b.cards, key, Location(In(Deck), false)), key, AsU8(i));
      && InvLoose(b.(cards := r), loose) && StaysExact(b.cards, r)
      && key in b.cards && b.cards[key].overlayTarget.None?
      && r == b.cards[key := b.cards[key].(location := Location(In(Deck), false), sequence := i)]
  {
    var c := SetLocation(b.cards, key, Location(In(Deck), false));
    assert key in b.cards && b.cards[key].overlayTarget.None?;
    hide InvLoose, Numbered, EquipsExact;
    assert SetSequence(c, key, AsU8(i)) == b.cards[key := b.cards[key].(location := Location(In(Deck), false), sequence := i)];
    FrameLocation(b.cards, key, Location(In(Deck), false));
    FrameSequence(c, key, AsU8(i));
    hide SetLocation, SetSequence, SameOverlays, SameEquips, SameTargets;
    PlacesOfLooseKeep(b, c, loose);
    PlacesOfLooseKeep(b.(cards := c), SetSequence(c, key, AsU8(i)), loose);
  }

  lemma DealToDeck(b: Board, p: Player, source: seq<Key>, kept: seq<Key>)
    requires Dealing(b, p, source, kept) && source != [] && !IsExtraDeckType(b.cards, source[0])
    ensures var c := SetSequence(SetLocation(b.cards, source[0], Location(In(Deck), false)), source[0], AsU8(|kept|));
      Dealing(b.(cards := c), p, source[1..], kept + [source[0]]) && c.Keys == b.cards.Keys && StaysExact(b.cards, c)
  {
    hide InvLoose, Numbered, EquipsExact, SetLocation, SetSequence;
    var key, rest, kept' := source[0], source[1..], kept + [source[0]];
    var loose := KeysOf(source) + KeysOf(kept);
    HeadAndTail(source);
    FileInDeck(b, key, |kept|, loose);
    var c := SetSequence(SetLocation(b.cards, key, Location(In(Deck), false)), key, AsU8(|kept|));
    assert loose == KeysOf(rest) + KeysOf(kept');
    forall i | 0 <= i < |rest| ensures rest[i] in c && c[rest[i]] == b.cards[rest[i]] {
      assert rest[i] in KeysOf(rest) && rest[i] == source[i + 1];
    }
    forall i | 0 <= i < |kept| ensures kept[i] != key { assert kept[i] in KeysOf(kept) && key in KeysOf(source); }
    ExtraTypesSame(b.cards, c, rest);
  }

  lemma {:induction false} DealGraveKeeps(b: Board, p: Player, source: seq<Key>, kept: seq<Key>)
    requires Dealing(b, p, source, kept)
    ensures Inv(DealGrave(b, p, source, kept)) && DealGrave(b, p, source, kept).cards.Keys == b.cards.Keys
    ensures StaysExact(b.cards, DealGrave(b, p, source, kept).cards)
    decreases source
  {
    if source == [] {
      assert KeysOf(source) + KeysOf(kept) == KeysOf(kept);
      LayList(b, Zone(p, Deck), kept, KeysOf(kept));
      assert KeysOf(kept) - KeysOf(kept) == {};
    } else if IsExtraDeckType(b.cards, source[0]) {
      DealToExtra(b, p, source, kept);
      hide Dealing, AddCard;
      var b1 := b.(cards := SetPosition(b.cards, source[0], FACEDOWN));
      DealGraveKeeps(AddCard(b1, source[0], p, Location(In(Extra), false), 0), p, source[1..], kept);
    } else {
      DealToDeck(b, p, source, kept);
      hide Dealing;
      var c := SetSequence(SetLocation(b.cards, source[0], Location(In(Deck), false)), source[0], AsU8(|kept|));
      DealGraveKeeps(b.(cards := c), p, source[1..], kept + [source[0]]);
    }
  }

  lemma SwapGraveDeckKeeps(b: Board, p: Player)
    requires Inv(b)
    requires |List(b, Zone(p, Extra))| + ExtraTypes(b.cards, List(b, Zone(p, Grave))) <= NUMBERS
    ensures Inv(SwapGraveDeckStep(b, p)) && SwapGraveDeckStep(b, p).cards.Keys == b.cards.Keys
    ensures StaysExact(b.cards, SwapGraveDeckStep(b, p).cards)
  {
    var grave, deck := List(b, Zone(p, Grave)), List(b, Zone(p, Deck));
    var r := SetList(SetList(b, Zone(p, Grave), deck), Zone(p, Deck), []).(
      cards := SetLocations(b.cards, deck, Location(In(Grave), false)));
    SwapPiles(b, p);
    ExtraTypesSame(b.cards, r.cards, grave);
    hide InvLoose, Numbered, EquipsExact, SetLocations;
    assert KeysOf(grave) + KeysOf([]) == KeysOf(grave);
    assert List(r, Zone(p, Extra)) == List(b, Zone(p, Extra));
    DealGraveKeeps(r, p, grave, []);
  }
}
