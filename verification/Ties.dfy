/** What the messages do to everything a card holds besides its place. */
module Ties {
  // Code, type, position and the relations of every card after a message, told by the cards before it.
  // A card that changes its zone ends its own target pairs and leaves the card it is equipped to; cards
  // equipped to it stay, and so does everything of all other cards.

  import opened Options
  import opened Board
  import opened Placement
  import opened Zoning
  import opened Evolution
  import opened Moves
  import opened SetCards
  import opened Effects

  /** The cards agree in everything but where they lie. */
  ghost predicate SameButPlace(c: Card, d: Card) {
    d == c.(controller := d.controller, location := d.location, sequence := d.sequence)
  }

  ghost predicate OnlyPlaces(c: Arena, d: Arena) {
    c.Keys == d.Keys && forall x :: x in c ==> SameButPlace(c[x], d[x])
  }

  lemma PlacesChain(c: Arena, d: Arena, e: Arena)
    requires OnlyPlaces(c, d) && OnlyPlaces(d, e)
    ensures OnlyPlaces(c, e)
  {
  }

  // ---------- zone operations ----------

  lemma {:induction false} ResetOnlyPlaces(cards: Arena, list: seq<Key>)
    ensures OnlyPlaces(cards, ResetSequence(cards, list, 0))
  {
    ResetSequenceFrame(cards, list, 0);
  }

  lemma RemoveOnlyPlaces(b: Board, p: Player, location: Location, sequence: U8)
    ensures OnlyPlaces(b.cards, RemoveCard(b, p, location, sequence).cards)
  {
    hide ResetSequence, FaceupPendulumKey, PutList, PutSlot, RemoveAt;
    if location.base.In? && !IsSlots(location.base.kind) && sequence < |List(b, Zone(p, location.base.kind))| {
      ResetOnlyPlaces(b.cards, RemoveAt(List(b, Zone(p, location.base.kind)), sequence));
    }
  }

  lemma AddOnlyPlaces(b: Board, key: Key, p: Player, kind: Kind, sequence: U8)
    requires !kind.Deck?
    ensures OnlyPlaces(b.cards, AddCard(b, key, p, Location(In(kind), false), sequence).cards)
  {
    hide ExtraIndex, FaceupPendulumKey, ResetSequence, InsertAt, PutList, PutSlot;
    var placed := b.(cards := SetPlace(b.cards, key, p, Location(In(kind), false), sequence));
    var z := Zone(p, kind);
    match kind
    case Hand => ResetOnlyPlaces(placed.cards, InsertAt(List(placed, z), |List(placed, z)|, key));
    case Extra => ResetOnlyPlaces(placed.cards, InsertAt(List(placed, z), ExtraIndex(placed, p, FaceupPendulumKey(placed.cards, key)), key));
    case _ =>
  }

  /** A card put into the deck forgets its type and its targets. */
  lemma AddToDeck(b: Board, key: Key, p: Player, sequence: U8)
    requires Converse(b.cards) && key in b.cards
    ensures var r := AddCard(b, key, p, Location(In(Deck), false), sequence).cards;
      && r.Keys == b.cards.Keys
      && SameButPlace(b.cards[key].(cardType := NO_TYPE, cardTarget := {}, ownerTarget := {}), r[key])
      && forall x :: x in b.cards && x != key ==> SameButPlace(Unaimed(b.cards[x], {key}), r[x])
  {
    hide ResetSequence, InsertAt, PutList;
    var placed := b.(cards := SetPlace(b.cards, key, p, Location(In(Deck), false), sequence));
    var z := Zone(p, Deck);
    var list := InsertAt(List(placed, z), Min(sequence, |List(placed, z)|), key);
    var c := ResetSequence(placed.cards, list, 0);
    ResetOnlyPlaces(placed.cards, list);
    assert OnlyPlaces(b.cards, placed.cards);
    PlacesChain(b.cards, placed.cards, c);
    ClearTargetsEffect(ClearCard(c, key), key);
    hide ClearTargets;
  }

  // ---------- ties are cut ----------

  /** What a card other than `key` is after `key` ended its target pairs and left the card it was equipped to. */
  function Parted(c: Arena, x: Key, key: Key): Card
    requires x in c && key in c
  {
    Unaimed(c[x], {key}).(equipped := if c[key].equipTarget == Some(x) then c[x].equipped - {key} else c[x].equipped)
  }

  lemma UnlinkParts(c: Arena, key: Key)
    requires Converse(c) && key in c
    ensures var r := Unlink(c, key);
      && r.Keys == c.Keys
      && r[key] == Parted(c, key, key).(cardTarget := {}, ownerTarget := {}, equipTarget := None)
      && forall x :: x in c && x != key ==> r[x] == Parted(c, x, key)
  {
    ClearTargetsEffect(c, key);
    hide ClearTargets;
  }

  // ---------- a move across ----------

  /** The relations of all cards but `key`, and its own, before and after it moves across. */
  ghost predicate TiesCut(c: Arena, d: Arena, key: Key)
    requires key in c && c.Keys == d.Keys
  {
    && d[key].cardTarget == {} && d[key].ownerTarget == {} && d[key].equipTarget == None
    && (forall x :: x in c && x != key ==>
          d[x].cardTarget == c[x].cardTarget - {key} && d[x].ownerTarget == c[x].ownerTarget - {key} && d[x].equipTarget == c[x].equipTarget)
    && (forall x :: x in c ==>
          d[x].equipped == if c[key].equipTarget == Some(x) then c[x].equipped - {key} else c[x].equipped)
  }

  ghost predicate TargetsCut(c: Arena, d: Arena, key: Key)
    requires key in c && c.Keys == d.Keys
  {
    && d[key].cardTarget == {} && d[key].ownerTarget == {}
    && (forall x :: x in c && x != key ==>
          d[x].cardTarget == c[x].cardTarget - {key} && d[x].ownerTarget == c[x].ownerTarget - {key})
    && (forall x :: x in c ==> d[x].equipTarget == c[x].equipTarget && d[x].equipped == c[x].equipped)
  }

  ghost predicate TiesStay(c: Arena, d: Arena)
    requires c.Keys == d.Keys
  {
    forall x :: x in c ==>
      && d[x].cardTarget == c[x].cardTarget && d[x].ownerTarget == c[x].ownerTarget
      && d[x].equipTarget == c[x].equipTarget && d[x].equipped == c[x].equipped
  }

  /** Code, type and position of every card but `key`. */
  ghost predicate OthersLookTheSame(c: Arena, d: Arena, key: Key)
    requires c.Keys == d.Keys
  {
    forall x :: x in c && x != key ==>
      d[x].code == c[x].code && d[x].cardType == c[x].cardType && d[x].position == c[x].position
  }

  /** A target relation that is converse names a cut card nowhere; an exact equip relation lists it nowhere. */
  lemma CutMeansCut(c: Arena, d: Arena, key: Key)
    requires key in c && c.Keys == d.Keys && TiesCut(c, d, key)
    ensures forall x :: x in d ==> key !in d[x].cardTarget && key !in d[x].ownerTarget
    ensures EquipsExact(c) ==> forall x :: x in d ==> key !in d[x].equipped
  {
  }

  /** The mover as it is put down. */
  lemma PutDownTies(b: Board, key: Key, p: Player, kind: Kind, sequence: U8)
    requires Converse(b.cards) && key in b.cards
    ensures var d := AddCard(b, key, p, Location(In(kind), false), sequence).cards;
      && d.Keys == b.cards.Keys && OthersLookTheSame(b.cards, d, key)
      && (if kind.Deck? then TargetsCut(b.cards, d, key) else TiesStay(b.cards, d))
      && d[key].cardType == (if kind.Deck? then NO_TYPE else b.cards[key].cardType)
      && d[key].code == b.cards[key].code && d[key].position == b.cards[key].position
      && (forall x :: x in b.cards ==> d[x].overlayed == b.cards[x].overlayed && d[x].overlayTarget == b.cards[x].overlayTarget)
  {
    if kind.Deck? { AddToDeck(b, key, p, sequence); } else { AddOnlyPlaces(b, key, p, kind, sequence); }
    hide AddCard;
  }

  lemma NamedTies(c: Arena, key: Key, code: U32)
    requires Converse(c) && key in c
    ensures var d := c[key := c[key].(code := code)];
      d.Keys == c.Keys && Converse(d) && OthersLookTheSame(c, d, key) && TiesStay(c, d)
  {
    var d := c[key := c[key].(code := code)];
    assert d.Keys == c.Keys;
  }

  lemma UnlinkTies(c: Arena, key: Key)
    requires Converse(c) && key in c
    ensures var d := Unlink(c, key);
      && d.Keys == c.Keys && OthersLookTheSame(c, d, key) && TiesCut(c, d, key)
      && d[key].code == c[key].code && d[key].cardType == c[key].cardType
  {
    UnlinkParts(c, key);
    hide Unlink;
  }

  lemma ConverseCut(c: Arena, d: Arena, key: Key)
    requires Converse(c) && key in c && c.Keys == d.Keys && TiesCut(c, d, key)
    ensures Converse(d)
  {
  }

  /** The mover named and, if it changes its zone, cut from its ties. */
  lemma TakenUpTies(c0: Arena, c: Arena, key: Key, cut: bool)
    requires Converse(c0) && key in c0 && key in c && c == c0[key := c0[key].(code := c[key].code)]
    ensures var d := if cut then Unlink(c, key) else c;
      && d.Keys == c0.Keys && OthersLookTheSame(c0, d, key) && (if cut then TiesCut(c0, d, key) else TiesStay(c0, d))
      && d[key].code == c[key].code && d[key].cardType == c0[key].cardType && Converse(d)
  {
    hide Unlink, Converse;
    NamedTies(c0, key, c[key].code);
    UnlinkTies(c, key);
    ConverseCut(c, Unlink(c, key), key);
  }

  lemma ConversePlaces(c: Arena, d: Arena)
    requires Converse(c) && OnlyPlaces(c, d)
    ensures Converse(d)
  {
  }

  lemma RenamedIs(cards: Arena, key: Key, code: U32, hide0: bool)
    requires key in cards
    ensures var c := Renamed(cards, key, code, hide0);
      key in c && c == cards[key := cards[key].(code := c[key].code)] && c[key].code == if code != 0 || hide0 then code else cards[key].code
  {
    assert cards == cards[key := cards[key]];
  }

  lemma ConverseOf(b: Board)
    requires Inv(b)
    ensures Converse(b.cards)
  {
  }

  /**
  A move that changes the location ends every target pair of the card and its equip, and no other tie; a move
  inside its location ends nothing, except that the deck forgets targets. Only the mover changes its looks.
  */
  lemma MoveAcrossTies(b: Board, code: U32, previous: InfoLocation, current: InfoLocation, key: Key)
    requires Inv(b) && !previous.location.overlay && current.location.base.In? && !current.location.overlay
    requires GetCard(b, previous.controller, previous.location, previous.sequence, 0) == Some(key)
    ensures var c, d := b.cards, MoveAcross(b, code, previous, current).cards;
      && key in c && c.Keys == d.Keys
      && (current.location != previous.location ==> TiesCut(c, d, key))
      && (current.location == previous.location && current.location.base.kind.Deck? ==> TargetsCut(c, d, key))
      && (current.location == previous.location && !current.location.base.kind.Deck? ==> TiesStay(c, d))
      && OthersLookTheSame(c, d, key) && d[key].position == current.position
      && d[key].cardType == (if current.location.base.kind.Deck? then NO_TYPE else c[key].cardType)
  {
    hide InvLoose, Renamed, Unlink, RemoveCard, AddCard, GetCard, TiesCut, TargetsCut, TiesStay, OthersLookTheSame, OnlyPlaces, Converse;
    KnownKey(b, previous.controller, previous.location, previous.sequence, 0, key);
    ConverseOf(b);
    var c := b.cards;
    var c1 := Renamed(c, key, code, current.location == Location(In(Extra), false));
    RenamedIs(c, key, code, current.location == Location(In(Extra), false));
    var cut := current.location != previous.location;
    TakenUpTies(c, c1, key, cut);
    var c2 := if cut then Unlink(c1, key) else c1;
    var b1 := RemoveCard(b.(cards := c2), previous.controller, previous.location, previous.sequence);
    RemoveOnlyPlaces(b.(cards := c2), previous.controller, previous.location, previous.sequence);
    ConversePlaces(c2, b1.cards);
    PlacesMean(c2, b1.cards, key);
    var b2 := b1.(cards := SetPosition(b1.cards, key, current.position));
    PositionTies(b1.cards, key, current.position);
    PutDownTies(b2, key, current.controller, current.location.base.kind, current.sequence);
    var d := MoveAcross(b, code, previous, current).cards;
    assert current.location == Location(In(current.location.base.kind), false);
    if cut {
      CutThenPut(c, c2, b1.cards, b2.cards, d, key, current.location.base.kind);
    } else {
      StayThenPut(c, c2, b1.cards, b2.cards, d, key, current.location.base.kind);
    }
    LooksChain5(c, c2, b1.cards, b2.cards, d, key);
  }

  lemma PlacesMean(c: Arena, d: Arena, key: Key)
    requires OnlyPlaces(c, d)
    ensures c.Keys == d.Keys && TiesStay(c, d) && OthersLookTheSame(c, d, key)
    ensures key in c ==> d[key].cardType == c[key].cardType && d[key].code == c[key].code
  {
  }

  lemma PositionTies(cards: Arena, key: Key, position: bv8)
    requires key in cards && Converse(cards)
    ensures var d := SetPosition(cards, key, position);
      && d.Keys == cards.Keys && TiesStay(cards, d) && OthersLookTheSame(cards, d, key) && Converse(d)
      && d[key].cardType == cards[key].cardType && d[key].code == cards[key].code && d[key].position == position
  {
  }

  lemma CutThenPut(c: Arena, c2: Arena, c3: Arena, c4: Arena, d: Arena, key: Key, kind: Kind)
    requires key in c && c.Keys == c2.Keys == c3.Keys == c4.Keys == d.Keys
    requires TiesCut(c, c2, key) && TiesStay(c2, c3) && TiesStay(c3, c4)
    requires if kind.Deck? then TargetsCut(c4, d, key) else TiesStay(c4, d)
    ensures TiesCut(c, d, key)
  {
  }

  lemma StayThenPut(c: Arena, c2: Arena, c3: Arena, c4: Arena, d: Arena, key: Key, kind: Kind)
    requires key in c && c.Keys == c2.Keys == c3.Keys == c4.Keys == d.Keys
    requires TiesStay(c, c2) && TiesStay(c2, c3) && TiesStay(c3, c4)
    requires if kind.Deck? then TargetsCut(c4, d, key) else TiesStay(c4, d)
    ensures if kind.Deck? then TargetsCut(c, d, key) else TiesStay(c, d)
  {
  }

  lemma LooksChain5(c: Arena, c2: Arena, c3: Arena, c4: Arena, d: Arena, key: Key)
    requires c.Keys == c2.Keys == c3.Keys == c4.Keys == d.Keys
    requires OthersLookTheSame(c, c2, key) && OthersLookTheSame(c2, c3, key) && OthersLookTheSame(c3, c4, key) && OthersLookTheSame(c4, d, key)
    ensures OthersLookTheSame(c, d, key)
  {
  }

  // ---------- moves of materials ----------

  lemma AttachTies(c: Arena, host: Key, key: Key)
    requires host in c && key in c
    ensures var d := AttachMaterial(c, host, key);
      d.Keys == c.Keys && TiesStay(c, d) && SameLooks(c, d)
  {
  }

  lemma LocationTies(c: Arena, key: Key, location: Location)
    requires key in c
    ensures var d := SetLocation(c, key, location);
      d.Keys == c.Keys && TiesStay(c, d) && SameLooks(c, d)
  {
  }

  lemma {:induction false} DetachTies(c: Arena, host: Key, i: nat)
    requires host in c && i < |c[host].overlayed|
    ensures var d := DetachMaterial(c, host, i);
      d.Keys == c.Keys && TiesStay(c, d) && SameLooks(c, d)
  {
    var rest := c[host].overlayed[..i] + c[host].overlayed[i + 1..];
    ResetSequenceFrame(c[host := c[host].(overlayed := [])], rest, 0);
    hide ResetSequence;
  }

  lemma LooksOfOthers(c: Arena, d: Arena, key: Key)
    requires SameLooks(c, d)
    ensures OthersLookTheSame(c, d, key)
  {
  }

  /** A card that goes under a host, and also one whose host is missing, ends its target pairs and its equip, and no other tie. */
  lemma MoveUnderTies(b: Board, code: U32, previous: InfoLocation, current: InfoLocation, key: Key)
    requires Inv(b) && !previous.location.overlay
    requires GetCard(b, previous.controller, previous.location, previous.sequence, 0) == Some(key)
    ensures var c, d := b.cards, MoveUnder(b, code, previous, current).cards;
      && key in c && c.Keys == d.Keys && TiesCut(c, d, key) && OthersLookTheSame(c, d, key)
      && d[key].cardType == c[key].cardType && d[key].position == c[key].position
      && d[key].code == (if code != 0 then code else c[key].code)
    ensures GetCard(b, current.controller, ClearPlace(current), current.sequence, 0).None? ==>
      MoveUnder(b, code, previous, current).zones == b.zones && OnlyMarks(b.cards, MoveUnder(b, code, previous, current).cards)
  {
    hide InvLoose, Unlink, RemoveCard, GetCard, TiesCut, TiesStay, OthersLookTheSame, OnlyPlaces, Converse, AttachMaterial, SetLocation, SameLooks, OnlyMarks;
    KnownKey(b, previous.controller, previous.location, previous.sequence, 0, key);
    ConverseOf(b);
    var c := b.cards;
    var c1 := if code != 0 then SetCode(c, key, code) else c;
    CodedIs(c, key, code);
    TakenUpTies(c, c1, key, true);
    var c2 := Unlink(c1, key);
    UnlinkPosition(c, c1, key);
    var b1 := b.(cards := c2);
    var host := GetCard(b, current.controller, ClearPlace(current), current.sequence, 0);
    GetZoneCard(b, c2, current.controller, ClearPlace(current), current.sequence);
    if host.Some? {
      KnownKey(b, current.controller, ClearPlace(current), current.sequence, 0, host.value);
      var b2 := RemoveCard(b1, previous.controller, previous.location, previous.sequence);
      RemoveOnlyPlaces(b1, previous.controller, previous.location, previous.sequence);
      PlacesMean(c2, b2.cards, key);
      PlacesLook(c2, b2.cards);
      AttachTies(b2.cards, host.value, key);
      var c3 := AttachMaterial(b2.cards, host.value, key);
      LocationTies(c3, key, OVERLAY);
      LooksOfOthers(b2.cards, c3, key);
      var d := SetLocation(c3, key, OVERLAY);
      LooksOfOthers(c3, d, key);
      CutThenStay(c, c2, b2.cards, c3, d, key);
      LooksChain5(c, c2, b2.cards, c3, d, key);
      LooksOfMover(c2, b2.cards, c3, d, key);
    }
  }

  lemma CodedIs(cards: Arena, key: Key, code: U32)
    requires key in cards
    ensures var c := if code != 0 then SetCode(cards, key, code) else cards;
      key in c && c == cards[key := cards[key].(code := c[key].code)] && c[key].code == if code != 0 then code else cards[key].code
  {
    assert cards == cards[key := cards[key]];
  }

  /** Cards keep everything but codes, targets and equips. */
  ghost predicate OnlyMarks(c: Arena, d: Arena) {
    c.Keys == d.Keys && forall x :: x in c ==>
      d[x] == c[x].(code := d[x].code, cardTarget := d[x].cardTarget, ownerTarget := d[x].ownerTarget,
                    equipTarget := d[x].equipTarget, equipped := d[x].equipped)
  }

  lemma UnlinkPosition(c0: Arena, c: Arena, key: Key)
    requires Converse(c0) && key in c0 && key in c && c == c0[key := c0[key].(code := c[key].code)]
    ensures var d := Unlink(c, key); key in d && d[key].position == c0[key].position && OnlyMarks(c0, d)
  {
    NamedTies(c0, key, c[key].code);
    UnlinkParts(c, key);
    hide Unlink, Converse;
  }

  lemma PlacesLook(c: Arena, d: Arena)
    requires OnlyPlaces(c, d)
    ensures SameLooks(c, d)
  {
  }

  lemma CutThenStay(c: Arena, c2: Arena, c3: Arena, c4: Arena, d: Arena, key: Key)
    requires key in c && c.Keys == c2.Keys == c3.Keys == c4.Keys == d.Keys
    requires TiesCut(c, c2, key) && TiesStay(c2, c3) && TiesStay(c3, c4) && TiesStay(c4, d)
    ensures TiesCut(c, d, key)
  {
  }

  lemma LooksOfMover(c2: Arena, c3: Arena, c4: Arena, d: Arena, key: Key)
    requires key in c2 && SameLooks(c2, c3) && SameLooks(c3, c4) && SameLooks(c4, d)
    ensures key in d && d[key].code == c2[key].code && d[key].cardType == c2[key].cardType && d[key].position == c2[key].position
  {
  }

  /** A material that goes back to a zone keeps its ties, except that the deck forgets its targets and its type. */
  lemma MoveFromUnderTies(b: Board, previous: InfoLocation, current: InfoLocation, key: Key)
    requires Inv(b) && MovedMaterial(b, previous) == Some(key) && current.location.base.In? && !current.location.overlay
    ensures var c, d := b.cards, MoveFromUnder(b, previous, current).cards;
      && key in c && c.Keys == d.Keys && OthersLookTheSame(c, d, key)
      && (if current.location.base.kind.Deck? then TargetsCut(c, d, key) else TiesStay(c, d))
      && d[key].position == current.position && d[key].code == c[key].code
      && d[key].cardType == (if current.location.base.kind.Deck? then NO_TYPE else c[key].cardType)
  {
    hide InvLoose, AddCard, GetCard, TargetsCut, TiesStay, OthersLookTheSame, Converse, DetachMaterial, SameLooks;
    var c := b.cards;
    var host := GetCard(b, previous.controller, ClearPlace(previous), previous.sequence, 0);
    MovedMaterialFacts(b, previous, key, host.value);
    ConverseOf(b);
    var c1 := Detached(b, previous);
    DetachTies(c, host.value, previous.overlaySequence);
    LooksOfOthers(c, c1, key);
    ConverseTies(c, c1);
    LooksMean(c, c1, key);
    var c2 := SetOverlayTarget(c1, key, None);
    var c3 := SetPosition(c2, key, current.position);
    FreedTies(c1, key);
    PositionTies(c2, key, current.position);
    var b3 := b.(cards := c3);
    PutDownTies(b3, key, current.controller, current.location.base.kind, current.sequence);
    var d := MoveFromUnder(b, previous, current).cards;
    assert current.location == Location(In(current.location.base.kind), false);
    StayThenPut(c, c1, c2, c3, d, key, current.location.base.kind);
    LooksChain5(c, c1, c2, c3, d, key);
  }

  lemma ConverseTies(c: Arena, d: Arena)
    requires Converse(c) && c.Keys == d.Keys && TiesStay(c, d)
    ensures Converse(d)
  {
  }

  lemma LooksMean(c: Arena, d: Arena, key: Key)
    requires SameLooks(c, d) && key in c
    ensures key in d && d[key].code == c[key].code && d[key].cardType == c[key].cardType && d[key].position == c[key].position
  {
  }

  lemma FreedTies(c: Arena, key: Key)
    requires key in c && Converse(c)
    ensures var d := SetOverlayTarget(c, key, None);
      && d.Keys == c.Keys && TiesStay(c, d) && OthersLookTheSame(c, d, key) && Converse(d)
      && d[key].code == c[key].code && d[key].cardType == c[key].cardType && d[key].position == c[key].position
  {
  }

  /** A material that changes hosts keeps all its ties and its looks; so does every other card. */
  lemma MoveBetweenTies(b: Board, previous: InfoLocation, current: InfoLocation)
    requires Inv(b)
    ensures var r := MoveBetween(b, previous, current);
      r.cards.Keys == b.cards.Keys && TiesStay(b.cards, r.cards) && SameLooks(b.cards, r.cards) && r.zones == b.zones
  {
    hide InvLoose, GetCard, TiesStay, DetachMaterial, AttachMaterial, SameLooks;
    NothingHappens(b.cards);
    var host := GetCard(b, current.controller, ClearPlace(current), current.sequence, 0);
    var key := MovedMaterial(b, previous);
    if host.Some? && key.Some? {
      var from := GetCard(b, previous.controller, ClearPlace(previous), previous.sequence, 0).value;
      MovedMaterialFacts(b, previous, key.value, from);
      KnownKey(b, current.controller, ClearPlace(current), current.sequence, 0, host.value);
      DetachTies(b.cards, from, previous.overlaySequence);
      var c := Detached(b, previous);
      AttachTies(c, host.value, key.value);
      TiesThenTies(b.cards, c, AttachMaterial(c, host.value, key.value));
    }
  }

  lemma NothingHappens(c: Arena)
    ensures TiesStay(c, c) && SameLooks(c, c)
  {
  }

  lemma TiesThenTies(c: Arena, d: Arena, e: Arena)
    requires c.Keys == d.Keys == e.Keys && TiesStay(c, d) && TiesStay(d, e) && SameLooks(c, d) && SameLooks(d, e)
    ensures TiesStay(c, e) && SameLooks(c, e)
  {
  }

  // ---------- a card leaves or appears ----------

  /** What becomes of a card when `key` leaves the duel with its materials. */
  ghost predicate Bereft(c: Arena, d: Arena, x: Key, key: Key)
    requires key in c && x in c && x in d
  {
    var gone := {key} + KeysOf(c[key].overlayed);
    && d[x].cardTarget == c[x].cardTarget - gone && d[x].ownerTarget == c[x].ownerTarget - gone
    && d[x].equipTarget == (if x in c[key].equipped then None else c[x].equipTarget)
    && d[x].equipped == (if c[key].equipTarget == Some(x) then c[x].equipped - {key} else c[x].equipped)
    && d[x].overlayed == (if c[key].overlayTarget == Some(x) then Without(c[x].overlayed, key) else c[x].overlayed)
    && d[x].code == c[x].code && d[x].cardType == c[x].cardType && d[x].position == c[x].position && d[x].overlayTarget == c[x].overlayTarget
  }

  /** The arena just before the card is destroyed: nothing but targets, its code and places changed. */
  ghost predicate Parting(c: Arena, d: Arena, key: Key)
    requires key in c
  {
    c.Keys == d.Keys && forall x :: x in c ==>
      && d[x].equipTarget == c[x].equipTarget && d[x].equipped == c[x].equipped
      && d[x].overlayed == c[x].overlayed && d[x].overlayTarget == c[x].overlayTarget
      && (x != key ==> d[x].code == c[x].code && d[x].cardTarget == c[x].cardTarget - {key} && d[x].ownerTarget == c[x].ownerTarget - {key})
      && d[x].cardType == c[x].cardType && d[x].position == c[x].position
  }

  lemma ClearedParting(c: Arena, key: Key, code: U32)
    requires Converse(c) && key in c
    ensures var d := ClearTargets(c[key := c[key].(code := code)], key); Parting(c, d, key) && Converse(d)
  {
    NamedTies(c, key, code);
    var m := c[key := c[key].(code := code)];
    ClearTargetsEffect(m, key);
    hide ClearTargets;
  }

  lemma PlacesParting(c: Arena, d: Arena, e: Arena, key: Key)
    requires key in c && Parting(c, d, key) && OnlyPlaces(d, e)
    ensures Parting(c, e, key)
  {
  }

  lemma SurvivorBereft(c: Arena, d: Arena, m: Arena, key: Key, x: Key)
    requires key in c && Parting(c, m, key) && x in c && x != key && x in d && d[x] == Survivor(m, key, x)
    ensures Bereft(c, d, x, key)
  {
  }

  /** The board just before the card is destroyed. */
  lemma AboutToGo(b: Board, code: U32, previous: InfoLocation, key: Key)
    requires Inv(b) && GetInfo(b, previous) == Some(key)
    ensures var c := if code != 0 then SetCode(b.cards, key, code) else b.cards;
      var b2 := RemoveCard(b.(cards := ClearTargets(c, key)), previous.controller, previous.location, previous.sequence);
      Converse(b2.cards) && Overlays(b2.cards)
  {
    hide InvLoose, Numbered, EquipsExact, SetCode, ClearTargets, RemoveCard, Destroy;
    KnownKey(b, previous.controller, previous.location, previous.sequence, AsI8(previous.overlaySequence), key);
    var c := if code != 0 then SetCode(b.cards, key, code) else b.cards;
    SetCodeKeeps(b, key, code, {});
    ClearTargetsKeep(b.(cards := c), key, {});
    var b1 := b.(cards := ClearTargets(c, key));
    var b2 := RemoveCard(b1, previous.controller, previous.location, previous.sequence);
    var loose: set<Key> := if previous.location.overlay then {} else {key};
    if previous.location.overlay {
      NoRemoval(b1, previous.controller, previous.location, previous.sequence);
    } else {
      RemoveCardKeeps(b1, previous.controller, previous.location, previous.sequence, key, {});
      assert {} + {key} == {key};
    }
    LooseMeans(b2, loose);
  }

  lemma LooseMeans(b: Board, loose: set<Key>)
    requires InvLoose(b, loose)
    ensures Converse(b.cards) && Overlays(b.cards)
  {
  }

  /** Everything that named the card or one of its materials forgets it; nothing else changes. */
  lemma MoveOutBereaves(b: Board, code: U32, previous: InfoLocation, key: Key)
    requires Inv(b) && GetInfo(b, previous) == Some(key)
    ensures var c, d := b.cards, MoveOut(b, code, previous).cards;
      && key in c && d.Keys == c.Keys - {key} - KeysOf(c[key].overlayed)
      && forall x :: x in d ==> Bereft(c, d, x, key)
  {
    hide InvLoose, ClearTargets, RemoveCard, GetCard, OnlyPlaces, Converse, Parting, Destroy, Survivor, Bereft, Overlays, KeysOf;
    KnownKey(b, previous.controller, previous.location, previous.sequence, AsI8(previous.overlaySequence), key);
    ConverseOf(b);
    AboutToGo(b, code, previous, key);
    var c := b.cards;
    var c1 := if code != 0 then SetCode(c, key, code) else c;
    CodedIs(c, key, code);
    ClearedParting(c, key, c1[key].code);
    var c2 := ClearTargets(c1, key);
    var b1 := RemoveCard(b.(cards := c2), previous.controller, previous.location, previous.sequence);
    RemoveOnlyPlaces(b.(cards := c2), previous.controller, previous.location, previous.sequence);
    PlacesParting(c, c2, b1.cards, key);
    DestroyEffect(b1.cards, key);
    var d := MoveOut(b, code, previous).cards;
    PartingKeys(c, b1.cards, key);
    forall x | x in d ensures x in c && Bereft(c, d, x, key) {
      SurvivorBereft(c, d, b1.cards, key, x);
    }
  }

  lemma PartingKeys(c: Arena, d: Arena, key: Key)
    requires key in c && Parting(c, d, key)
    ensures c.Keys == d.Keys && KeysOf(d[key].overlayed) == KeysOf(c[key].overlayed)
  {
  }

  /** The zones lose the card and nothing else; a material leaves no zone. */
  lemma MoveOutLeaves(b: Board, code: U32, previous: InfoLocation, key: Key)
    requires Inv(b) && GetInfo(b, previous) == Some(key)
    ensures var r := MoveOut(b, code, previous);
      && OthersStay(b, r, key) && (previous.location.overlay ==> r.zones == b.zones)
      && forall z: Zone, i: nat :: Cell(r, z, i) != Some(key)
  {
    hide InvLoose, ClearTargets, RemoveCard, GetCard, Destroy, OthersStay, SetCode;
    MoveOutKeeps(b, code, previous);
    MoveOutBereaves(b, code, previous, key);
    var c := ClearTargets(if code != 0 then SetCode(b.cards, key, code) else b.cards, key);
    if previous.location.overlay {
      NoRemoval(b.(cards := c), previous.controller, previous.location, previous.sequence);
      SameZonesStay(b, MoveOut(b, code, previous), key);
    } else {
      SubZero(b, previous);
      TakenOut(b, c, previous.controller, previous.location, previous.sequence, key);
      ZonesAlone(b, RemoveCard(b.(cards := c), previous.controller, previous.location, previous.sequence), MoveOut(b, code, previous), key);
    }
    Gone(MoveOut(b, code, previous), key);
  }

  lemma SubZero(b: Board, at: InfoLocation)
    requires !at.location.overlay
    ensures GetInfo(b, at) == GetCard(b, at.controller, at.location, at.sequence, 0)
  {
  }

  lemma ZonesAlone(b: Board, m: Board, r: Board, key: Key)
    requires OthersStay(b, m, key) && r.zones == m.zones
    ensures OthersStay(b, r, key)
  {
    hide Without;
  }

  lemma Gone(r: Board, key: Key)
    requires Inv(r) && key !in r.cards
    ensures forall z: Zone, i: nat :: Cell(r, z, i) != Some(key)
  {
  }

  /** A card that appears has a code and a position and nothing else; every other card keeps everything but its place. */
  lemma MoveInTies(b: Board, code: U32, current: InfoLocation)
    requires Inv(b) && current.location.base.In? && !current.location.overlay
    ensures var c, d := b.cards, MoveIn(b, code, current).cards;
      && d.Keys == c.Keys + {b.next} && SameButPlace(BLANK.(code := code, position := current.position), d[b.next])
      && forall x :: x in c ==> x != b.next && SameButPlace(c[x], d[x])
  {
    hide AddCard;
    assert b.next !in b.cards;
    var c1 := b.cards[b.next := BLANK.(code := code, position := current.position)];
    var b1 := b.(cards := c1, next := b.next + 1);
    assert SetCode(SetPosition(b.cards[b.next := BLANK], b.next, current.position), b.next, code) == c1;
    assert current.location == Location(In(current.location.base.kind), false);
    FreshTies(b, c1);
    hide InvLoose;
    if current.location.base.kind.Deck? {
      AddToDeck(b1, b.next, current.controller, current.sequence);
    } else {
      AddOnlyPlaces(b1, b.next, current.controller, current.location.base.kind, current.sequence);
    }
  }

  lemma FreshTies(b: Board, c: Arena)
    requires Inv(b) && b.next in c && c == b.cards[b.next := c[b.next]] && c[b.next].cardTarget == {} && c[b.next].ownerTarget == {}
    ensures Converse(c) && forall x :: x in b.cards ==> Unaimed(b.cards[x], {b.next}) == b.cards[x]
  {
    assert b.next !in b.cards;
    forall x | x in b.cards ensures Unaimed(b.cards[x], {b.next}) == b.cards[x] {
      assert b.cards[x].cardTarget - {b.next} == b.cards[x].cardTarget;
      assert b.cards[x].ownerTarget - {b.next} == b.cards[x].ownerTarget;
    }
  }

  // ---------- messages that move many cards ----------

  /** A swap changes places only. */
  lemma SwapOnlyPlaces(b: Board, at1: InfoLocation, at2: InfoLocation)
    requires OccupiedSlot(b, at1) && OccupiedSlot(b, at2)
    ensures OnlyPlaces(b.cards, SwapStep(b, at1, at2).cards)
  {
    hide RemoveCard, AddCard, OnlyPlaces;
    var first, second := GetInfo(b, at1).value, GetInfo(b, at2).value;
    var b1 := RemoveCard(b, at1.controller, at1.location, at1.sequence);
    var b2 := RemoveCard(b1, at2.controller, at2.location, at2.sequence);
    var b3 := AddCard(b2, first, at2.controller, at2.location, at2.sequence);
    var r := AddCard(b3, second, at1.controller, at1.location, at1.sequence);
    assert at1.location == Location(In(at1.location.base.kind), false) && at2.location == Location(In(at2.location.base.kind), false);
    RemoveOnlyPlaces(b, at1.controller, at1.location, at1.sequence);
    RemoveOnlyPlaces(b1, at2.controller, at2.location, at2.sequence);
    AddOnlyPlaces(b2, first, at2.controller, at2.location.base.kind, at2.sequence);
    AddOnlyPlaces(b3, second, at1.controller, at1.location.base.kind, at1.sequence);
    PlacesChain(b.cards, b1.cards, b2.cards);
    PlacesChain(b.cards, b2.cards, b3.cards);
    PlacesChain(b.cards, b3.cards, r.cards);
  }

  /** Turning the decks over changes places only. */
  lemma ReverseOnlyPlaces(b: Board)
    ensures OnlyPlaces(b.cards, Step(b, Message.ReverseDeck).cards)
  {
    hide ResetSequence, Reverse, OnlyPlaces;
    var m := ReverseDeckOf(b, First);
    ResetOnlyPlaces(b.cards, Reverse(List(b, Zone(First, Deck))));
    ResetOnlyPlaces(m.cards, Reverse(List(m, Zone(Second, Deck))));
    PlacesChain(b.cards, m.cards, ReverseDeckOf(m, Second).cards);
  }

  lemma {:induction false} DrawOnlyPlaces(b: Board, p: Player, count: nat)
    ensures OnlyPlaces(b.cards, DrawCards(b, p, count).cards)
    decreases count
  {
    hide AddCard;
    var deck := List(b, Zone(p, Deck));
    if count > 0 && deck != [] {
      var b1 := SetList(b, Zone(p, Deck), deck[..|deck| - 1]);
      AddOnlyPlaces(b1, deck[|deck| - 1], p, Hand, 0);
      var b2 := AddCard(b1, deck[|deck| - 1], p, Location(In(Hand), false), 0);
      DrawOnlyPlaces(b2, p, count - 1);
      PlacesChain(b.cards, b2.cards, DrawCards(b2, p, count - 1).cards);
    }
  }

  /** The code the card at index `i` gets when `codes` name the cards from index `top` down; zeros may be skipped. */
  function NamedCode(top: int, codes: seq<U32>, skipZero: bool, i: nat, code: U32): U32 {
    if i <= top && top - i < |codes| && !(skipZero && codes[top - i] == 0) then codes[top - i] else code
  }

  lemma {:induction false} NamedDown(cards: Arena, list: seq<Key>, top: int, codes: seq<U32>, skipZero: bool, x: Key)
    requires top < |list| && Distinct(list) && x in cards
    ensures var r := NameFromTop(cards, list, top, codes, skipZero);
      && r.Keys == cards.Keys
      && (x !in list ==> r[x] == cards[x])
      && forall i :: 0 <= i < |list| && list[i] == x ==> r[x] == cards[x].(code := NamedCode(top, codes, skipZero, i, cards[x].code))
    decreases codes
  {
    if codes == [] || (top < 0 && !(skipZero && codes[0] == 0)) {
      assert cards[x] == cards[x].(code := cards[x].code);
    } else if skipZero && codes[0] == 0 {
      NamedDown(cards, list, top - 1, codes[1..], skipZero, x);
    } else {
      var c := SetCode(cards, list[top], codes[0]);
      assert c.Keys == cards.Keys by { CodedKeys(cards, list[top], codes[0]); }
      NamedDown(c, list, top - 1, codes[1..], skipZero, x);
    }
  }

  lemma CodedKeys(cards: Arena, key: Key, code: U32)
    ensures SetCode(cards, key, code).Keys == cards.Keys
  {
  }

  /**
  A draw names the deck from its top down, one card a code; while the decks lie face-up a zero code leaves the card its
  own. Apart from that it changes places only.
  */
  lemma DrawNames(b: Board, p: Player, codes: seq<U32>, x: Key)
    requires Inv(b) && x in b.cards
    ensures var deck := List(b, Zone(p, Deck));
      var d := DrawStep(b, p, codes).cards;
      && d.Keys == b.cards.Keys
      && (x !in deck ==> SameButPlace(b.cards[x], d[x]))
      && forall i :: 0 <= i < |deck| && deck[i] == x ==>
           SameButPlace(b.cards[x].(code := NamedCode(|deck| - 1, codes, b.deckReversed, i, b.cards[x].code)), d[x])
  {
    var deck := List(b, Zone(p, Deck));
    ListDistinct(b, Zone(p, Deck), {});
    hide InvLoose, NameFromTop, DrawCards, Distinct, NamedCode;
    NamedDown(b.cards, deck, |deck| - 1, codes, b.deckReversed, x);
    DrawOnlyPlaces(b.(cards := NameFromTop(b.cards, deck, |deck| - 1, codes, b.deckReversed)), p, |codes|);
  }

  /** Setting cards anew hides the code of every card selected and otherwise changes places only. */
  lemma ShuffleHides(b: Board, where: Location, olds: seq<InfoLocation>, news: seq<InfoLocation>, x: Key)
    requires x in b.cards
    ensures var d := ShuffleSetCardStep(b, where, olds, news).cards;
      var kind := if where == Location(In(MZone), false) then MZone else SZone;
      var selected := exists i :: 0 <= i < |olds| && Cell(b, Zone(olds[i].controller, kind), olds[i].sequence) == Some(x);
      d.Keys == b.cards.Keys && SameButPlace(b.cards[x].(code := if selected then 0 else b.cards[x].code), d[x])
  {
    var kind := ShuffleKind(where);
    var keys := Selected(b, kind, olds);
    SelectedAt(b, kind, olds);
    HiddenCode(b.cards, keys, x);
    SetCardsOnlyPlaces(b.(cards := HideSelected(b.cards, keys)), kind, keys, news);
    hide MoveSetCards, HideSelected, Selected;
    assert Some(x) in keys <==> exists i :: 0 <= i < |olds| && SlotAt(b, kind, olds[i]) == Some(x) by {
      if Some(x) in keys {
        var i :| 0 <= i < |keys| && keys[i] == Some(x);
        assert SlotAt(b, kind, olds[i]) == Some(x);
      }
      if i :| 0 <= i < |olds| && SlotAt(b, kind, olds[i]) == Some(x) { assert keys[i] == Some(x); }
    }
  }

  lemma {:induction false} HiddenCode(cards: Arena, keys: seq<Option<Key>>, x: Key)
    requires x in cards
    ensures var d := HideSelected(cards, keys);
      d.Keys == cards.Keys && d[x] == cards[x].(code := if Some(x) in keys then 0 else cards[x].code)
    decreases keys
  {
    if keys == [] {
      assert cards[x] == cards[x].(code := cards[x].code);
    } else {
      var c := if keys[0].Some? then SetCode(cards, keys[0].value, 0) else cards;
      if keys[0].Some? { CodedKeys(cards, keys[0].value, 0); }
      HiddenCode(c, keys[1..], x);
    }
  }

  lemma SetCardOnlyPlaces(b: Board, kind: Kind, key: Key, at: InfoLocation)
    requires IsSlots(kind) && key in b.cards
    ensures OnlyPlaces(b.cards, MoveSetCard(b, kind, key, at).cards)
  {
    hide PutSlot, Cell;
  }

  lemma {:induction false} SetCardsOnlyPlaces(b: Board, kind: Kind, keys: seq<Option<Key>>, news: seq<InfoLocation>)
    requires IsSlots(kind)
    ensures OnlyPlaces(b.cards, MoveSetCards(b, kind, keys, news).cards)
    decreases |news|
  {
    hide MoveSetCard;
    if news != [] {
      var tail := if keys == [] then [] else keys[1..];
      if news[0].location == LIMBO || keys == [] || keys[0].None? || keys[0].value !in b.cards {
        SetCardsOnlyPlaces(b, kind, tail, news[1..]);
      } else {
        var b1 := MoveSetCard(b, kind, keys[0].value, news[0]);
        SetCardOnlyPlaces(b, kind, keys[0].value, news[0]);
        SetCardsOnlyPlaces(b1, kind, tail, news[1..]);
        PlacesChain(b.cards, b1.cards, MoveSetCards(b1, kind, tail, news[1..]).cards);
      }
    }
  }

  /** A card of an extra deck type that leaves the grave for the extra deck is turned face-down. */
  ghost predicate Turned(c: Arena, d: Arena, source: seq<Key>) {
    c.Keys == d.Keys && forall x :: x in c ==>
      SameButPlace(c[x].(position := if x in source && c[x].cardType & 0x480_2040 != 0 then 0x0a else c[x].position), d[x])
  }

  lemma TurnedFirst(c: Arena, m: Arena, d: Arena, source: seq<Key>)
    requires source != [] && IsExtraDeckType(c, source[0])
    requires c.Keys == m.Keys && SameButPlace(c[source[0]].(position := FACEDOWN), m[source[0]])
    requires (forall x :: x in c && x != source[0] ==> SameButPlace(c[x], m[x])) && Turned(m, d, source[1..])
    ensures Turned(c, d, source)
  {
    assert forall x :: x in source <==> x == source[0] || x in source[1..];
  }

  lemma TurnedRest(c: Arena, m: Arena, d: Arena, source: seq<Key>)
    requires source != [] && !IsExtraDeckType(c, source[0]) && OnlyPlaces(c, m) && Turned(m, d, source[1..])
    ensures Turned(c, d, source)
  {
    assert forall x :: x in source <==> x == source[0] || x in source[1..];
  }

  lemma FiledOnlyPlaces(cards: Arena, key: Key, sequence: U8)
    ensures OnlyPlaces(cards, SetSequence(SetLocation(cards, key, Location(In(Deck), false)), key, sequence))
  {
  }

  lemma TurnedDown(b: Board, p: Player, key: Key)
    requires key in b.cards
    ensures var d := AddCard(b.(cards := SetPosition(b.cards, key, FACEDOWN)), key, p, Location(In(Extra), false), 0).cards;
      && b.cards.Keys == d.Keys && SameButPlace(b.cards[key].(position := FACEDOWN), d[key])
      && forall x :: x in b.cards && x != key ==> SameButPlace(b.cards[x], d[x])
  {
    AddOnlyPlaces(b.(cards := SetPosition(b.cards, key, FACEDOWN)), key, p, Extra, 0);
    hide AddCard;
  }

  lemma {:induction false} DealTurns(b: Board, p: Player, source: seq<Key>, kept: seq<Key>)
    ensures Turned(b.cards, DealGrave(b, p, source, kept).cards, source)
    decreases source
  {
    hide AddCard, SetPosition, SetSequence, SetLocation, Turned, OnlyPlaces, SameButPlace;
    if source == [] {
      NothingTurned(b.cards);
    } else if IsExtraDeckType(b.cards, source[0]) {
      var b1 := b.(cards := SetPosition(b.cards, source[0], FACEDOWN));
      var b2 := AddCard(b1, source[0], p, Location(In(Extra), false), 0);
      TurnedDown(b, p, source[0]);
      DealTurns(b2, p, source[1..], kept);
      TurnedFirst(b.cards, b2.cards, DealGrave(b, p, source, kept).cards, source);
    } else {
      var c := SetSequence(SetLocation(b.cards, source[0], Location(In(Deck), false)), source[0], AsU8(|kept|));
      FiledOnlyPlaces(b.cards, source[0], AsU8(|kept|));
      DealTurns(b.(cards := c), p, source[1..], kept + [source[0]]);
      TurnedRest(b.cards, c, DealGrave(b, p, source, kept).cards, source);
    }
  }

  lemma NothingTurned(c: Arena)
    ensures Turned(c, c, [])
  {
  }

  lemma {:induction false} LocatedOnlyPlaces(cards: Arena, list: seq<Key>, location: Location)
    ensures OnlyPlaces(cards, SetLocations(cards, list, location))
    decreases list
  {
    if list != [] { LocatedOnlyPlaces(SetLocation(cards, list[0], location), list[1..], location); }
  }

  /** Exchanging grave and deck turns the cards that go to the extra deck face-down and otherwise changes places only. */
  lemma SwapGraveDeckTurns(b: Board, p: Player)
    ensures Turned(b.cards, SwapGraveDeckStep(b, p).cards, List(b, Zone(p, Grave)))
  {
    hide DealGrave, SetLocations;
    var grave, deck := List(b, Zone(p, Grave)), List(b, Zone(p, Deck));
    var c := SetLocations(b.cards, deck, Location(In(Grave), false));
    LocatedOnlyPlaces(b.cards, deck, Location(In(Grave), false));
    DealTurns(SetList(SetList(b, Zone(p, Grave), deck), Zone(p, Deck), []).(cards := c), p, grave, []);
    TurnedBefore(b.cards, c, SwapGraveDeckStep(b, p).cards, grave);
  }

  lemma TurnedBefore(c: Arena, m: Arena, d: Arena, source: seq<Key>)
    requires OnlyPlaces(c, m) && Turned(m, d, source)
    ensures Turned(c, d, source)
  {
  }
}
