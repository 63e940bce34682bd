/** What the messages do to places. */
module Effects {
  // Told by where the cards are before and where they are after the message. The card a move names arrives where the move says and nothing else moves. These statements do not
  // follow the order in which the handlers work, so they would fail for a handler that took, put or
  // kept the wrong card.

  import opened Options
  import opened Board
  import opened Placement
  import opened Zoning
  import opened Evolution
  import opened Moves
  import opened Updates
  import opened Deals

  // ---------- everything but one card ----------

  /** Apart from `key`, every list keeps its cards in order and every slot its card. */
  ghost predicate OthersStay(b: Board, r: Board, key: Key) {
    && (forall z: Zone :: !IsSlots(z.kind) ==> Without(List(r, z), key) == Without(List(b, z), key))
    && (forall z: Zone, i: nat :: IsSlots(z.kind) && Cell(b, z, i) != Some(key) && Cell(r, z, i) != Some(key) ==>
          Cell(r, z, i) == Cell(b, z, i))
  }

  /** Apart from the hosts in `but`, every host keeps its materials. */
  ghost predicate HostsStay(c: Arena, d: Arena, but: set<Key>) {
    forall h :: h in c && h in d && h !in but ==> d[h].overlayed == c[h].overlayed
  }

  /** Where a card ends up in a zone it enters: its slot, an index of the deck, or the end of another pile. */
  function LandingIndex(b: Board, z: Zone, key: Key, sequence: U8): nat {
    if IsSlots(z.kind) then sequence
    else
      var others := |Without(List(b, z), key)|;
      if z.kind.Deck? && sequence < others then sequence else others
  }

  /** In the extra deck a face-up pendulum card (0x5, 0x100_0000) goes on top, and any other right below the counted ones. */
  predicate LandsInExtra(r: Board, p: Player, key: Key)
    requires key in r.cards
  {
    var others, n := |List(r, Zone(p, Extra))| - 1, PendulumCount(r, p);
    var up := r.cards[key].position & 0x05 != 0 && r.cards[key].cardType & 0x100_0000 != 0;
    r.cards[key].sequence == if up || n <= 0 then others else if others < n then 0 else others - n
  }

  /** `key` has arrived at the address, told by its own fields and by the zone. */
  ghost predicate Arrived(b: Board, r: Board, key: Key, current: InfoLocation)
    requires current.location.base.In?
  {
    var z := Zone(current.controller, current.location.base.kind);
    && key in r.cards && r.cards[key].controller == Some(current.controller)
    && r.cards[key].location == current.location && r.cards[key].position == current.position
    && Cell(r, z, r.cards[key].sequence) == Some(key)
    && (if z.kind.Extra? then LandsInExtra(r, z.player, key) else r.cards[key].sequence == LandingIndex(b, z, key, current.sequence))
  }

  lemma OthersChain(b: Board, m: Board, r: Board, key: Key)
    requires OthersStay(b, m, key) && OthersStay(m, r, key)
    requires forall z: Zone, i: nat :: Cell(m, z, i) != Some(key)
    ensures OthersStay(b, r, key)
  {
    hide Cell, List;
  }

  lemma SameZonesStay(b: Board, r: Board, key: Key)
    requires r.zones == b.zones
    ensures OthersStay(b, r, key)
  {
  }

  lemma {:induction false} WithoutAppend(a: seq<Key>, b: seq<Key>, key: Key)
    ensures Without(a + b, key) == Without(a, key) + Without(b, key)
    decreases a
  {
    if a == [] {
      assert a + b == b;
    } else {
      assert (a + b)[1..] == a[1..] + b;
      WithoutAppend(a[1..], b, key);
    }
  }

  lemma {:induction false} WithoutAround(s: seq<Key>, i: nat, key: Key)
    requires i <= |s|
    ensures Without(InsertAt(s, i, key), key) == Without(s, key)
    ensures i < |s| && s[i] == key ==> Without(RemoveAt(s, i), key) == Without(s, key)
  {
    WithoutAppend(s[..i] + [key], s[i..], key);
    WithoutAppend(s[..i], [key], key);
    WithoutAppend(s[..i], s[i..], key);
    assert s == s[..i] + s[i..];
    assert Without([key], key) == [] && Without(s[..i], key) + [] == Without(s[..i], key);
    if i < |s| && s[i] == key {
      assert s[i..] == [key] + s[i + 1..];
      WithoutAppend([key], s[i + 1..], key);
      WithoutAppend(s[..i], s[i + 1..], key);
      assert [] + Without(s[i + 1..], key) == Without(s[i + 1..], key);
    }
  }

  lemma RemoveCardOthers(b: Board, p: Player, location: Location, sequence: U8, key: Key)
    requires location.base.In? && !location.overlay && Cell(b, Zone(p, location.base.kind), sequence) == Some(key)
    ensures OthersStay(b, RemoveCard(b, p, location, sequence), key)
  {
    var z := Zone(p, location.base.kind);
    RemoveCardZones(b, p, location, sequence, key);
    hide RemoveCard, Without, RemoveAt;
    if !IsSlots(z.kind) { WithoutAround(List(b, z), sequence, key); }
  }

  lemma AddCardOthers(b: Board, key: Key, p: Player, location: Location, sequence: U8)
    requires location.base.In? && !location.overlay
    ensures OthersStay(b, AddCard(b, key, p, location, sequence), key)
  {
    var z := Zone(p, location.base.kind);
    var r := AddCard(b, key, p, location, sequence);
    AddCardZones(b, key, p, location, sequence);
    AddCardOtherZones(b, key, p, location, sequence);
    if IsSlots(z.kind) {
      if sequence < |SlotsIn(b.zones, z)| { PutSlotCells(b.zones, z, sequence, Some(key)); }
    } else {
      AddedListWithout(b, key, z, sequence);
    }
    hide AddCard, Without, AddedList, PutSlot;
  }

  lemma {:induction false} AddedListWithout(b: Board, key: Key, z: Zone, sequence: U8)
    ensures Without(AddedList(b, key, z, sequence), key) == Without(List(b, z), key)
  {
    hide Without, ExtraIndex, FaceupPendulumKey, InsertAt;
    var list := List(b, z);
    match z.kind
    case Deck => WithoutAround(list, Min(sequence, |list|), key);
    case Extra => WithoutAround(list, ExtraIndex(b, z.player, FaceupPendulumKey(b.cards, key)), key);
    case _ =>
      WithoutAround(list, |list|, key);
      AtTheEnd(list, key);
  }

  lemma AtTheEnd(list: seq<Key>, key: Key)
    ensures InsertAt(list, |list|, key) == list + [key]
  {
  }

  // ---------- one card arrives ----------

  /** The fields of an added card. */
  lemma AddedCard(b: Board, key: Key, p: Player, location: Location, sequence: U8)
    requires location.base.In? && !location.overlay && key in b.cards
    ensures var c := AddCard(b, key, p, location, sequence).cards;
      && key in c && c[key].controller == Some(p) && c[key].location == location
      && c[key].position == b.cards[key].position && c[key].code == b.cards[key].code
  {
    hide ExtraIndex, FaceupPendulumKey, ResetSequence, ClearTargets, InsertAt, PutList, PutSlot;
    var placed := b.(cards := SetPlace(b.cards, key, p, location, sequence));
    var z := Zone(p, location.base.kind);
    match location.base.kind
    case Deck =>
      var list := InsertAt(List(placed, z), Min(sequence, |List(placed, z)|), key);
      RenumberedCard(placed.cards, list, key);
      ClearedCard(ClearCard(ResetSequence(placed.cards, list, 0), key), key);
    case Hand => RenumberedCard(placed.cards, InsertAt(List(placed, z), |List(placed, z)|, key), key);
    case Extra => RenumberedCard(placed.cards, InsertAt(List(placed, z), ExtraIndex(placed, p, FaceupPendulumKey(placed.cards, key)), key), key);
    case _ =>
  }

  lemma {:induction false} RenumberedCard(cards: Arena, list: seq<Key>, key: Key)
    requires key in cards
    ensures var r := ResetSequence(cards, list, 0); key in r && r[key] == cards[key].(sequence := r[key].sequence)
  {
    ResetSequenceFrame(cards, list, 0);
  }

  predicate SameButTargets(c: Card, d: Card) { d == c.(cardTarget := d.cardTarget, ownerTarget := d.ownerTarget) }

  lemma ClearedCard(cards: Arena, key: Key)
    requires key in cards
    ensures key in ClearTargets(cards, key) && SameButTargets(cards[key], ClearTargets(cards, key)[key])
  {
  }

  /** A loose card put down arrives. */
  lemma PutDownArrives(b0: Board, b: Board, key: Key, current: InfoLocation)
    requires InvLoose(b, {key}) && Free(b, current.controller, current.location, current.sequence)
    requires current.location.base.In? && !current.location.overlay && OthersStay(b0, b, key)
    ensures var r := AddCard(b.(cards := SetPosition(b.cards, key, current.position)), key,
        current.controller, current.location, current.sequence);
      Arrived(b0, r, key, current) && OthersStay(b0, r, key) && HostsStay(b.cards, r.cards, {})
      && r.cards[key].code == b.cards[key].code
  {
    var m := b.(cards := SetPosition(b.cards, key, current.position));
    var r := AddCard(m, key, current.controller, current.location, current.sequence);
    var z := Zone(current.controller, current.location.base.kind);
    NowhereInZones(b, key);
    SetPositionKeeps(b, key, current.position, {key});
    PutDown(b, key, current);
    AddedCard(m, key, current.controller, current.location, current.sequence);
    AddCardOthers(m, key, current.controller, current.location, current.sequence);
    AddCardKeeps(m, key, current.controller, current.location, current.sequence, {key});
    AddCardZones(m, key, current.controller, current.location, current.sequence);
    hide InvLoose, AddCard, Without, OthersStay;
    SameZonesStay(b, m, key);
    assert forall y: Zone, i: nat :: Cell(m, y, i) != Some(key);
    OthersChain(b, m, r, key);
    OthersChain(b0, b, r, key);
    HousedAt(r, key, z);
    WhereAdded(b0, m, r, key, z, current.sequence);
    if z.kind.Extra? { AddedToExtra(m, key, z.player, current.sequence); }
  }

  /** The index in the extra deck, seen from the card that lies there now. */
  lemma AddedToExtra(m: Board, key: Key, p: Player, sequence: U8)
    requires key in m.cards
    ensures var r := AddCard(m, key, p, Location(In(Extra), false), sequence);
      var others, n := |List(r, Zone(p, Extra))| - 1, PendulumCount(r, p);
      key in r.cards && others >= 0 &&
      var up := r.cards[key].position & 0x05 != 0 && r.cards[key].cardType & 0x100_0000 != 0;
      Cell(r, Zone(p, Extra), if up || n <= 0 then others else if others < n then 0 else others - n) == Some(key)
  {
    var z := Zone(p, Extra);
    var placed := m.(cards := SetPlace(m.cards, key, p, Location(In(Extra), false), sequence));
    var list := List(placed, z);
    RenumberedCard(placed.cards, InsertAt(list, ExtraIndex(placed, p, FaceupPendulumKey(placed.cards, key)), key), key);
    hide ResetSequence;
  }

  lemma NowhereInZones(b: Board, key: Key)
    requires InvLoose(b, {key})
    ensures key in b.cards && forall z: Zone, i: nat :: Cell(b, z, i) != Some(key)
  {
  }

  lemma HousedAt(r: Board, key: Key, z: Zone)
    requires Inv(r) && key in r.cards && r.cards[key].controller == Some(z.player) && r.cards[key].location == Location(In(z.kind), false)
    ensures Cell(r, z, r.cards[key].sequence) == Some(key)
    ensures forall i: nat :: Cell(r, z, i) == Some(key) ==> i == r.cards[key].sequence
  {
    MaterialsLieOver(r, key);
    assert Housed(r.cards, r.zones, key);
  }

  lemma MaterialsLieOver(b: Board, key: Key)
    requires Inv(b) && key in b.cards
    ensures b.cards[key].overlayTarget.None? || b.cards[key].location == OVERLAY
  {
    if b.cards[key].overlayTarget.Some? {
      var h := b.cards[key].overlayTarget.value;
      var i :| 0 <= i < |b.cards[h].overlayed| && b.cards[h].overlayed[i] == key;
      assert IsMaterial(b.cards, key, h);
    }
  }

  /** The index follows from where the list puts it. */
  lemma WhereAdded(b0: Board, m: Board, r: Board, key: Key, z: Zone, sequence: U8)
    requires r.zones == if IsSlots(z.kind) then PutSlot(m.zones, z, sequence, Some(key)) else PutList(m.zones, z, AddedList(m, key, z, sequence))
    requires IsSlots(z.kind) ==> sequence < |SlotsIn(m.zones, z)|
    requires OthersStay(b0, m, key) && forall y: Zone, i: nat :: Cell(m, y, i) != Some(key)
    ensures !z.kind.Extra? ==> Cell(r, z, LandingIndex(b0, z, key, sequence)) == Some(key)
  {
    if IsSlots(z.kind) {
      PutSlotCells(m.zones, z, sequence, Some(key));
    } else {
      var list := List(m, z);
      forall i | 0 <= i < |list| ensures list[i] != key { assert Cell(m, z, i) == Some(list[i]); }
      WithoutNone(list, key);
      assert Without(List(b0, z), key) == list;
      hide Without;
    }
  }

  // ---------- moves ----------

  /** A card that moves across arrives, with the code the message gives unless it gives none. */
  lemma MoveAcrossArrives(b: Board, code: U32, previous: InfoLocation, current: InfoLocation, key: Key)
    requires Inv(b) && !previous.location.overlay && !current.location.overlay
    requires GetCard(b, previous.controller, previous.location, previous.sequence, 0) == Some(key)
    requires Room(b, Some(key), current.controller, current.location, current.sequence)
    ensures var r := MoveAcross(b, code, previous, current);
      && Arrived(b, r, key, current) && OthersStay(b, r, key) && HostsStay(b.cards, r.cards, {})
      && key in b.cards
      && r.cards[key].code == (if code != 0 || current.location.base.kind.Extra? then code else b.cards[key].code)
  {
    hide InvLoose, SetCode, SetPosition, Unlink, RemoveCard, AddCard, GetCard, Room, SameLinks, Arrived, OthersStay, SameRelations, HostsStay;
    var p, location, sequence := previous.controller, previous.location, previous.sequence;
    ZoneCard(b, p, location, sequence, key, {});
    var c := Renamed(b.cards, key, code, current.location == Location(In(Extra), false));
    RenameLinks(b.cards, key, code);
    TakeMover(b, c, p, location, sequence, key, current.location != location);
    var c1 := if current.location != location then Unlink(c, key) else c;
    var b1 := b.(cards := c1);
    var b2 := RemoveCard(b1, p, location, sequence);
    RoomIsFree(b, b2, p, location, sequence, key, current.controller, current.location, current.sequence);
    GetZoneCard(b, c1, p, location, sequence);
    TakenOut(b, c1, p, location, sequence, key);
    PutDownArrives(b, b2, key, current);
    RenamedCode(b.cards, key, code, current.location == Location(In(Extra), false));
    RoomMeans(b, Some(key), current);
    CodeKept(b, c, c1, b2, p, location, sequence, key);
    HostsChain(b.cards, b2.cards, MoveAcross(b, code, previous, current).cards);
  }

  lemma RoomMeans(b: Board, mover: Option<Key>, current: InfoLocation)
    requires Room(b, mover, current.controller, current.location, current.sequence)
    ensures current.location.base.In? && !current.location.overlay
  {
  }

  lemma RenamedCode(cards: Arena, key: Key, code: U32, hide0: bool)
    requires key in cards
    ensures var r := Renamed(cards, key, code, hide0);
      key in r && r[key].code == if code != 0 || hide0 then code else cards[key].code
  {
  }

  lemma HostsChain(c: Arena, d: Arena, e: Arena)
    requires c.Keys == d.Keys && HostsStay(c, d, {}) && HostsStay(d, e, {})
    ensures HostsStay(c, e, {})
  {
  }

  /** Taking a card out of its zone leaves all others in place. */
  lemma TakenOut(b: Board, c1: Arena, p: Player, location: Location, sequence: U8, key: Key)
    requires !location.overlay && GetCard(b, p, location, sequence, 0) == Some(key)
    ensures location.base.In? && OthersStay(b, RemoveCard(b.(cards := c1), p, location, sequence), key)
  {
    RemoveCardOthers(b.(cards := c1), p, location, sequence, key);
    hide RemoveCard, Without;
  }

  /** Unlinking and taking out change neither codes nor materials. */
  lemma CodeKept(b: Board, c: Arena, c1: Arena, b2: Board, p: Player, location: Location, sequence: U8, key: Key)
    requires Inv(b) && key in b.cards && SameLinks(b.cards, c) && (c1 == c || c1 == Unlink(c, key))
    requires !location.overlay && GetCard(b, p, location, sequence, 0) == Some(key)
    requires b2 == RemoveCard(b.(cards := c1), p, location, sequence)
    ensures key in b2.cards && b2.cards[key].code == c[key].code && HostsStay(b.cards, b2.cards, {}) && b2.cards.Keys == b.cards.Keys
  {
    assert Targets(c) by { TargetsFrame(b.cards, c); }
    hide InvLoose, RemoveCard;
    UnlinkedCode(c, key);
    GetZoneCard(b, c1, p, location, sequence);
    TakenCode(b.(cards := c1), p, location, sequence, key);
    hide Unlink;
  }

  lemma UnlinkedCode(c: Arena, key: Key)
    requires key in c && Targets(c)
    ensures var r := Unlink(c, key); r.Keys == c.Keys && r[key].code == c[key].code && HostsStay(c, r, {})
  {
    ClearTargetsEffect(c, key);
    hide ClearTargets;
  }

  lemma TakenCode(b: Board, p: Player, location: Location, sequence: U8, key: Key)
    requires !location.overlay && GetCard(b, p, location, sequence, 0) == Some(key) && key in b.cards
    ensures var r := RemoveCard(b, p, location, sequence).cards;
      r.Keys == b.cards.Keys && r[key].code == b.cards[key].code && HostsStay(b.cards, r, {})
  {
    var z := Zone(p, location.base.kind);
    if !IsSlots(z.kind) { ResetSequenceFrame(b.cards, RemoveAt(List(b, z), sequence), 0); }
    hide ResetSequence, FaceupPendulumKey, PutList, PutSlot;
  }

  /** A card that appears is a new one with the code given; everything there was stays. */
  lemma MoveInArrives(b: Board, code: U32, current: InfoLocation)
    requires Inv(b) && Room(b, None, current.controller, current.location, current.sequence)
    ensures var r := MoveIn(b, code, current);
      && b.next !in b.cards && Arrived(b, r, b.next, current) && r.cards[b.next].code == code && OthersStay(b, r, b.next)
      && HostsStay(b.cards, r.cards, {})
  {
    hide InvLoose, SetCode, SetPosition, AddCard, Room, Arrived, OthersStay, HostsStay;
    var key := b.next;
    RoomMeans(b, None, current);
    CreateCardKeeps(b, {});
    assert {} + {key} == {key};
    var b1 := CreateCard(b);
    SetCodeKeeps(b1, key, code, {key});
    var b2 := b1.(cards := SetCode(b1.cards, key, code));
    SameZonesStay(b, b2, key);
    NewRoomIsFree(b, current);
    PutDownArrives(b, b2, key, current);
    Commutes(b1.cards, key, code, current.position);
    var r := MoveIn(b, code, current);
    HostsKept(b, b1, key, code);
    HostsOfNew(b.cards, b2.cards, r.cards);
  }

  lemma NewRoomIsFree(b: Board, current: InfoLocation)
    requires Room(b, None, current.controller, current.location, current.sequence)
    ensures var r := CreateCard(b);
      Free(r.(cards := SetCode(r.cards, b.next, 0)), current.controller, current.location, current.sequence)
    ensures forall c: Arena :: Free(CreateCard(b).(cards := c), current.controller, current.location, current.sequence)
  {
  }

  lemma Commutes(cards: Arena, key: Key, code: U32, position: bv8)
    requires key in cards
    ensures SetPosition(SetCode(cards, key, code), key, position) == SetCode(SetPosition(cards, key, position), key, code)
    ensures SetCode(cards, key, code)[key].code == code
  {
  }

  lemma HostsKept(b: Board, b1: Board, key: Key, code: U32)
    requires b1 == CreateCard(b) && key == b.next && key !in b.cards
    ensures HostsStay(b.cards, SetCode(b1.cards, key, code), {}) && b.cards.Keys <= SetCode(b1.cards, key, code).Keys
  {
  }

  lemma HostsOfNew(c: Arena, d: Arena, e: Arena)
    requires c.Keys <= d.Keys && HostsStay(c, d, {}) && HostsStay(d, e, {})
    ensures HostsStay(c, e, {})
  {
  }

  /** The material at an index goes from under its host; the others close up and nobody else is touched. */
  lemma DetachedHosts(b: Board, host: Key, i: nat)
    requires Inv(b) && host in b.cards && i < |b.cards[host].overlayed|
    ensures var key := b.cards[host].overlayed[i];
      var c := DetachMaterial(b.cards, host, i);
      && c.Keys == b.cards.Keys && key in c && key != host && c[key].code == b.cards[key].code
      && c[host].overlayed == RemoveAt(b.cards[host].overlayed, i) && HostsStay(b.cards, c, {host})
  {
    DetachEffect(b.cards, host, i);
    var key := b.cards[host].overlayed[i];
    var c := DetachMaterial(b.cards, host, i);
    var r := SetOverlayTarget(c, key, None);
    assert c.Keys == r.Keys && forall x :: x in c ==> r[x].overlayed == c[x].overlayed && r[x].code == c[x].code;
    hide DetachMaterial, InvLoose, SetOverlayTarget, RemoveAt;
  }

  /** A material that goes back to a zone arrives there and leaves its host, whose other materials stay in order. */
  lemma MoveFromUnderArrives(b: Board, previous: InfoLocation, current: InfoLocation, key: Key)
    requires Inv(b) && MovedMaterial(b, previous) == Some(key)
    requires Room(b, None, current.controller, current.location, current.sequence)
    ensures var host := GetCard(b, previous.controller, ClearPlace(previous), previous.sequence, 0).value;
      var r := MoveFromUnder(b, previous, current);
      && host in b.cards && previous.overlaySequence < |b.cards[host].overlayed|
      && Arrived(b, r, key, current) && OthersStay(b, r, key) && HostsStay(b.cards, r.cards, {host})
      && host in r.cards && r.cards[host].overlayed == RemoveAt(b.cards[host].overlayed, previous.overlaySequence)
      && r.cards[key].overlayTarget.None?
  {
    hide InvLoose, AddCard, Room, Arrived, OthersStay, HostsStay, GetCard, IsMaterial, DetachMaterial, RemoveAt, SetPosition;
    var host := GetCard(b, previous.controller, ClearPlace(previous), previous.sequence, 0).value;
    var i: nat := previous.overlaySequence;
    MovedMaterialFacts(b, previous, key, host);
    RoomMeans(b, None, current);
    Lift(b, host, i);
    DetachedHosts(b, host, i);
    var c := SetOverlayTarget(DetachMaterial(b.cards, host, i), key, None);
    var m := b.(cards := c);
    SameZonesStay(b, m, key);
    SameRoom(b, c, current);
    PutDownArrives(b, m, key, current);
    MoveFromUnderKeeps(b, previous, current);
    var r := MoveFromUnder(b, previous, current);
    HostsAfter(b.cards, DetachMaterial(b.cards, host, i), c, r.cards, host, key);
    ArrivedIsNoMaterial(b, r, key, current);
  }

  lemma SameRoom(b: Board, c: Arena, current: InfoLocation)
    requires Room(b, None, current.controller, current.location, current.sequence)
    ensures Free(b.(cards := c), current.controller, current.location, current.sequence)
  {
  }

  lemma HostsAfter(b: Arena, d: Arena, c: Arena, r: Arena, host: Key, key: Key)
    requires d.Keys == b.Keys && r.Keys == b.Keys && host in b && HostsStay(b, d, {host}) && c == SetOverlayTarget(d, key, None) && HostsStay(c, r, {})
    ensures HostsStay(b, r, {host}) && r[host].overlayed == d[host].overlayed
  {
  }

  lemma ArrivedIsNoMaterial(b: Board, r: Board, key: Key, current: InfoLocation)
    requires Inv(r) && current.location.base.In? && Arrived(b, r, key, current)
    ensures r.cards[key].overlayTarget.None?
  {
    MaterialsLieOver(r, key);
    hide InvLoose;
  }

  /** A card that goes under a host becomes its last material and leaves its zone; everything else stays. */
  lemma MoveUnderArrives(b: Board, code: U32, previous: InfoLocation, current: InfoLocation, key: Key, host: Key)
    requires Inv(b) && LegalMove(b, previous, current) && !previous.location.overlay && previous.location != LIMBO && current.location.overlay
    requires GetCard(b, previous.controller, previous.location, previous.sequence, 0) == Some(key)
    requires GetCard(b, current.controller, ClearPlace(current), current.sequence, 0) == Some(host)
    ensures var r := MoveUnder(b, code, previous, current);
      && key in b.cards && host in b.cards && key in r.cards && host in r.cards
      && r.cards[host].overlayed == b.cards[host].overlayed + [key] && r.cards[key].overlayTarget == Some(host)
      && OthersStay(b, r, key) && HostsStay(b.cards, r.cards, {host})
      && r.cards[key].code == (if code != 0 then code else b.cards[key].code)
      && forall z: Zone, i: nat :: Cell(r, z, i) != Some(key)
  {
    var p, location, sequence := previous.controller, previous.location, previous.sequence;
    assert key != host && Bare(b, key);
    hide InvLoose, SetCode, Unlink, RemoveCard, GetCard, SameLinks, Bare, AttachMaterial, SetLocation, OthersStay, HostsStay, SameRelations, LegalMove;
    ZoneCard(b, p, location, sequence, key, {});
    var c := if code != 0 then SetCode(b.cards, key, code) else b.cards;
    RenameLinks(b.cards, key, code);
    TakeMover(b, c, p, location, sequence, key, true);
    var c1 := Unlink(c, key);
    var b2 := RemoveCard(b.(cards := c1), p, location, sequence);
    GetZoneCard(b, c1, current.controller, ClearPlace(current), current.sequence);
    BareMover(b, c, p, location, sequence, key, current, host);
    TakenOut(b, c1, p, location, sequence, key);
    CodeKept(b, c, c1, b2, p, location, sequence, key);
    AttachEffect(b2.cards, host, key);
    var r := MoveUnder(b, code, previous, current);
    assert r == b2.(cards := SetLocation(AttachMaterial(b2.cards, host, key), key, OVERLAY));
    NamedCode(b.cards, key, code);
    NowhereInZones(b2, key);
    HostsAttached(b.cards, b2.cards, r.cards, host, key);
    StaysWithZones(b, b2, r, key);
  }

  lemma NamedCode(cards: Arena, key: Key, code: U32)
    requires key in cards
    ensures SetCode(cards, key, code)[key].code == code
  {
  }

  lemma StaysWithZones(b: Board, m: Board, r: Board, key: Key)
    requires OthersStay(b, m, key) && r.zones == m.zones && forall z: Zone, i: nat :: Cell(m, z, i) != Some(key)
    ensures OthersStay(b, r, key) && forall z: Zone, i: nat :: Cell(r, z, i) != Some(key)
  {
    hide Without;
    forall z: Zone, i: nat ensures Cell(r, z, i) == Cell(m, z, i) {}
  }

  lemma HostsAttached(b: Arena, m: Arena, r: Arena, host: Key, key: Key)
    requires b.Keys == m.Keys && r.Keys == m.Keys && host in m && key in m && host != key && HostsStay(b, m, {})
    requires r[host].overlayed == m[host].overlayed + [key] && r[key].overlayed == m[key].overlayed
    requires forall x :: x in m && x != host && x != key ==> r[x] == m[x]
    ensures HostsStay(b, r, {host}) && r[host].overlayed == b[host].overlayed + [key]
  {
  }

  /** A material that changes hosts leaves one list and is last in the other; no zone changes. */
  lemma MoveBetweenArrives(b: Board, previous: InfoLocation, current: InfoLocation, key: Key, to: Key)
    requires Inv(b) && MovedMaterial(b, previous) == Some(key)
    requires GetCard(b, current.controller, ClearPlace(current), current.sequence, 0) == Some(to)
    ensures var host := GetCard(b, previous.controller, ClearPlace(previous), previous.sequence, 0).value;
      var r := MoveBetween(b, previous, current);
      && host in b.cards && to in b.cards && previous.overlaySequence < |b.cards[host].overlayed|
      && var left := RemoveAt(b.cards[host].overlayed, previous.overlaySequence);
      && r.zones == b.zones && r.cards.Keys == b.cards.Keys && HostsStay(b.cards, r.cards, {host, to})
      && r.cards[to].overlayed == (if to == host then left else b.cards[to].overlayed) + [key]
      && (host != to ==> r.cards[host].overlayed == left)
      && key in r.cards && r.cards[key].overlayTarget == Some(to)
  {
    hide InvLoose, GetCard, IsMaterial, DetachMaterial, RemoveAt, HostsStay, AttachMaterial;
    var host := GetCard(b, previous.controller, ClearPlace(previous), previous.sequence, 0).value;
    var i: nat := previous.overlaySequence;
    MovedMaterialFacts(b, previous, key, host);
    ZoneCard(b, current.controller, ClearPlace(current), current.sequence, to, {});
    DetachedHosts(b, host, i);
    MaterialIsNoZoneCard(b, key, to, host);
    var c := DetachMaterial(b.cards, host, i);
    AttachedHosts(b.cards, c, host, to, key);
  }

  lemma MaterialIsNoZoneCard(b: Board, key: Key, to: Key, host: Key)
    requires Inv(b) && to in b.cards && b.cards[to].overlayTarget.None? && IsMaterial(b.cards, key, host)
    ensures key != to
  {
  }

  lemma AttachedHosts(b: Arena, c: Arena, host: Key, to: Key, key: Key)
    requires b.Keys == c.Keys && host in b && to in b && key in b && key != to && HostsStay(b, c, {host})
    ensures var r := AttachMaterial(c, to, key);
      && r.Keys == b.Keys && HostsStay(b, r, {host, to}) && r[to].overlayed == c[to].overlayed + [key]
      && (host != to ==> r[host].overlayed == c[host].overlayed && r[to].overlayed == b[to].overlayed + [key])
      && r[key].overlayTarget == Some(to)
  {
  }

  // ---------- swaps, draws, piles ----------

  /** Two slot cards trade places; no other slot and no list changes. */
  lemma SwapTrades(b: Board, at1: InfoLocation, at2: InfoLocation)
    requires Inv(b) && OccupiedSlot(b, at1) && OccupiedSlot(b, at2)
    ensures var r := SwapStep(b, at1, at2);
      var z1, z2 := Zone(at1.controller, at1.location.base.kind), Zone(at2.controller, at2.location.base.kind);
      && Cell(r, z1, at1.sequence) == GetInfo(b, at2) && Cell(r, z2, at2.sequence) == GetInfo(b, at1)
      && (forall z: Zone, i: nat :: !(z == z1 && i == at1.sequence) && !(z == z2 && i == at2.sequence) ==> Cell(r, z, i) == Cell(b, z, i))
  {
    hide InvLoose, RemoveCard, AddCard;
    var first, second := GetInfo(b, at1).value, GetInfo(b, at2).value;
    var z1, z2 := Zone(at1.controller, at1.location.base.kind), Zone(at2.controller, at2.location.base.kind);
    var b1 := RemoveCard(b, at1.controller, at1.location, at1.sequence);
    RemoveCardZones(b, at1.controller, at1.location, at1.sequence, first);
    var b2 := RemoveCard(b1, at2.controller, at2.location, at2.sequence);
    if z1 == z2 && at1.sequence == at2.sequence {
      SlotWasEmptied(b1, at2);
    } else {
      RemoveCardZones(b1, at2.controller, at2.location, at2.sequence, second);
    }
    var b3 := AddCard(b2, first, at2.controller, at2.location, at2.sequence);
    AddCardZones(b2, first, at2.controller, at2.location, at2.sequence);
    PutSlotCells(b2.zones, z2, at2.sequence, Some(first));
    AddCardZones(b3, second, at1.controller, at1.location, at1.sequence);
    PutSlotCells(b3.zones, z1, at1.sequence, Some(second));
  }

  lemma SlotWasEmptied(b: Board, at: InfoLocation)
    requires at.location.base.In? && !at.location.overlay && Cell(b, Zone(at.controller, at.location.base.kind), at.sequence).None?
    ensures RemoveCard(b, at.controller, at.location, at.sequence) == b
  {
  }

  /** Outside two zones everything lies as it did. */
  ghost predicate SameOutside(b: Board, r: Board, y: Zone, z: Zone) {
    forall x: Zone :: x != y && x != z ==> List(r, x) == List(b, x) && SlotsIn(r.zones, x) == SlotsIn(b.zones, x)
  }

  lemma DrawOne(b: Board, p: Player)
    requires List(b, Zone(p, Deck)) != []
    ensures var deck, hand := List(b, Zone(p, Deck)), List(b, Zone(p, Hand));
      var r := AddCard(SetList(b, Zone(p, Deck), deck[..|deck| - 1]), deck[|deck| - 1], p, Location(In(Hand), false), 0);
      && List(r, Zone(p, Deck)) == deck[..|deck| - 1] && List(r, Zone(p, Hand)) == hand + [deck[|deck| - 1]]
      && SameOutside(b, r, Zone(p, Deck), Zone(p, Hand))
  {
    hide AddCard;
    var deck := List(b, Zone(p, Deck));
    AddCardZones(SetList(b, Zone(p, Deck), deck[..|deck| - 1]), deck[|deck| - 1], p, Location(In(Hand), false), 0);
  }

  /** The top `n` cards of the deck have gone to the hand, from the top down, and nothing else has moved. */
  ghost predicate Drawn(b: Board, r: Board, p: Player, n: nat)
    requires n <= |List(b, Zone(p, Deck))|
  {
    var deck, hand := List(b, Zone(p, Deck)), List(b, Zone(p, Hand));
    && List(r, Zone(p, Deck)) == deck[..|deck| - n] && List(r, Zone(p, Hand)) == hand + Reverse(deck[|deck| - n..])
    && SameOutside(b, r, Zone(p, Deck), Zone(p, Hand))
  }

  lemma DrawnOneMore(b: Board, m: Board, r: Board, p: Player, n: nat)
    requires 0 < n <= |List(b, Zone(p, Deck))| && SameOutside(b, m, Zone(p, Deck), Zone(p, Hand))
    requires var deck := List(b, Zone(p, Deck));
      List(m, Zone(p, Deck)) == deck[..|deck| - 1] && List(m, Zone(p, Hand)) == List(b, Zone(p, Hand)) + [deck[|deck| - 1]]
    requires Drawn(m, r, p, n - 1)
    ensures Drawn(b, r, p, n)
  {
    hide List, SlotsIn, Reverse;
    DrawnTail(List(b, Zone(p, Deck)), List(b, Zone(p, Hand)), n);
  }

  /** Draws take the top cards one after the other, so the hand receives them from the top down. */
  lemma {:induction false} DrawnCards(b: Board, p: Player, count: nat)
    ensures Drawn(b, DrawCards(b, p, count), p, Min(count, |List(b, Zone(p, Deck))|))
    decreases count
  {
    hide AddCard, List, SetList, Drawn, SameOutside;
    var deck := List(b, Zone(p, Deck));
    if count == 0 || deck == [] {
      DrawnNone(b, p);
    } else {
      DrawOne(b, p);
      var b2 := AddCard(SetList(b, Zone(p, Deck), deck[..|deck| - 1]), deck[|deck| - 1], p, Location(In(Hand), false), 0);
      DrawnCards(b2, p, count - 1);
      DrawnOneMore(b, b2, DrawCards(b, p, count), p, Min(count, |deck|));
    }
  }

  lemma DrawnNone(b: Board, p: Player)
    ensures Drawn(b, b, p, 0)
  {
    NothingReversed(List(b, Zone(p, Deck)), List(b, Zone(p, Hand)));
  }

  lemma NothingReversed(deck: seq<Key>, hand: seq<Key>)
    ensures deck[..|deck| - 0] == deck && hand + Reverse(deck[|deck| - 0..]) == hand
  {
    assert deck[|deck|..] == [] && hand + [] == hand;
  }

  lemma DrawnTail(deck: seq<Key>, hand: seq<Key>, n: nat)
    requires 0 < n <= |deck|
    ensures var top, rest := deck[|deck| - 1], deck[..|deck| - 1];
      && rest[..|rest| - (n - 1)] == deck[..|deck| - n]
      && (hand + [top]) + Reverse(rest[|rest| - (n - 1)..]) == hand + Reverse(deck[|deck| - n..])
  {
    var top, rest := deck[|deck| - 1], deck[..|deck| - 1];
    assert deck[|deck| - n..] == rest[|rest| - (n - 1)..] + [top];
    ReverseLast(rest[|rest| - (n - 1)..], top);
  }

  lemma {:induction false} ReverseLast(s: seq<Key>, last: Key)
    ensures Reverse(s + [last]) == [last] + Reverse(s)
  {
  }

  /** The whole draw: which cards move, in which order, and nothing else. */
  lemma DrawMoves(b: Board, p: Player, codes: seq<U32>)
    ensures Drawn(b, DrawStep(b, p, codes), p, Min(|codes|, |List(b, Zone(p, Deck))|))
  {
    hide NameFromTop, DrawCards, Reverse, Drawn;
    var deck := List(b, Zone(p, Deck));
    var b1 := b.(cards := NameFromTop(b.cards, deck, |deck| - 1, codes, b.deckReversed));
    DrawnCards(b1, p, |codes|);
    DrawnSame(b, b1, DrawCards(b1, p, |codes|), p, Min(|codes|, |deck|));
  }

  lemma DrawnSame(b: Board, m: Board, r: Board, p: Player, n: nat)
    requires n <= |List(m, Zone(p, Deck))| && m.zones == b.zones && Drawn(m, r, p, n)
    ensures Drawn(b, r, p, n)
  {
    hide Reverse;
  }

  /** Fusion 0x40, Synchro 0x2000, Xyz 0x80_0000 or Link 0x400_0000. */
  predicate OfExtraType(cards: Arena, key: Key) {
    key in cards && var t := cards[key].cardType; t & 0x40 != 0 || t & 0x2000 != 0 || t & 0x80_0000 != 0 || t & 0x400_0000 != 0
  }

  lemma ExtraTypeMeans(cards: Arena, key: Key)
    ensures IsExtraDeckType(cards, key) <==> OfExtraType(cards, key)
  {
    if key in cards { ExtraBits(cards[key].cardType); }
  }

  lemma ExtraBits(t: bv32)
    ensures t & EXTRA_DECK != 0 <==> t & 0x40 != 0 || t & 0x2000 != 0 || t & 0x80_0000 != 0 || t & 0x400_0000 != 0
  {
  }

  /** The cards of a list that are no extra deck cards, in order, and those that are. */
  function MainCards(cards: Arena, list: seq<Key>): seq<Key> {
    if list == [] then [] else (if OfExtraType(cards, list[0]) then [] else [list[0]]) + MainCards(cards, list[1..])
  }

  function ExtraCards(cards: Arena, list: seq<Key>): seq<Key> {
    if list == [] then [] else (if OfExtraType(cards, list[0]) then [list[0]] else []) + ExtraCards(cards, list[1..])
  }

  ghost predicate SameTypes(c: Arena, d: Arena) {
    c.Keys == d.Keys && forall k :: k in c ==> d[k].cardType == c[k].cardType
  }

  lemma {:induction false} SameTypeCards(c: Arena, d: Arena, list: seq<Key>)
    requires SameTypes(c, d)
    ensures MainCards(c, list) == MainCards(d, list) && ExtraCards(c, list) == ExtraCards(d, list)
    decreases list
  {
    if list != [] { SameTypeCards(c, d, list[1..]); }
  }

  lemma AddToExtraTypes(b: Board, key: Key, p: Player)
    ensures SameTypes(b.cards, AddCard(b, key, p, Location(In(Extra), false), 0).cards)
  {
    var placed := b.(cards := SetPlace(b.cards, key, p, Location(In(Extra), false), 0));
    ResetSequenceFrame(placed.cards, InsertAt(List(b, Zone(p, Extra)), ExtraIndex(placed, p, FaceupPendulumKey(placed.cards, key)), key), 0);
    hide ResetSequence, ExtraIndex, FaceupPendulumKey, InsertAt;
  }

  lemma InsertBag(s: seq<Key>, i: nat, key: Key)
    requires i <= |s|
    ensures multiset(InsertAt(s, i, key)) == multiset(s) + multiset{key}
  {
    assert s == s[..i] + s[i..];
  }

  ghost predicate SameBut(b: Board, r: Board, y: Zone) {
    forall z: Zone :: z != y ==> List(r, z) == List(b, z) && SlotsIn(r.zones, z) == SlotsIn(b.zones, z)
  }

  lemma PutInExtra(b: Board, p: Player, key: Key)
    ensures var r := AddCard(b, key, p, Location(In(Extra), false), 0);
      && multiset(List(r, Zone(p, Extra))) == multiset(List(b, Zone(p, Extra))) + multiset{key}
      && SameBut(b, r, Zone(p, Extra))
  {
    hide AddCard, InsertAt, ExtraIndex, FaceupPendulumKey;
    AddCardZones(b, key, p, Location(In(Extra), false), 0);
    InsertBag(List(b, Zone(p, Extra)), ExtraIndex(b, p, FaceupPendulumKey(b.cards, key)), key);
  }

  lemma DealToExtra(b: Board, p: Player, key: Key)
    ensures var b1 := b.(cards := SetPosition(b.cards, key, FACEDOWN));
      var r := AddCard(b1, key, p, Location(In(Extra), false), 0);
      && multiset(List(r, Zone(p, Extra))) == multiset(List(b, Zone(p, Extra))) + multiset{key}
      && SameBut(b, r, Zone(p, Extra)) && SameTypes(b.cards, r.cards)
  {
    hide AddCard, SetPosition, SameTypes;
    var b1 := b.(cards := SetPosition(b.cards, key, FACEDOWN));
    PositionTypes(b.cards, key, FACEDOWN);
    PutInExtra(b1, p, key);
    AddToExtraTypes(b1, key, p);
    SameTypesChain(b.cards, b1.cards, AddCard(b1, key, p, Location(In(Extra), false), 0).cards);
  }

  lemma SameTypesChain(c: Arena, d: Arena, e: Arena)
    requires SameTypes(c, d) && SameTypes(d, e)
    ensures SameTypes(c, e)
  {
  }

  lemma PositionTypes(cards: Arena, key: Key, position: bv8)
    ensures SameTypes(cards, SetPosition(cards, key, position))
  {
  }

  /** What dealing does to the zones, given the cards it keeps and those it sends to the extra deck. */
  ghost predicate Dealt(b: Board, r: Board, p: Player, deck: seq<Key>, extra: seq<Key>) {
    && List(r, Zone(p, Deck)) == deck
    && multiset(List(r, Zone(p, Extra))) == multiset(List(b, Zone(p, Extra))) + multiset(extra)
    && SameOutside(b, r, Zone(p, Deck), Zone(p, Extra))
  }

  lemma DealtOneMore(b: Board, m: Board, r: Board, p: Player, key: Key, deck: seq<Key>, extra: seq<Key>)
    requires Dealt(m, r, p, deck, extra) && SameBut(b, m, Zone(p, Extra))
    requires multiset(List(m, Zone(p, Extra))) == multiset(List(b, Zone(p, Extra))) + multiset{key}
    ensures Dealt(b, r, p, deck, [key] + extra)
  {
    hide List, SlotsIn;
    assert multiset([key] + extra) == multiset{key} + multiset(extra);
  }

  lemma DealtSame(b: Board, m: Board, r: Board, p: Player, deck: seq<Key>, extra: seq<Key>)
    requires Dealt(m, r, p, deck, extra) && m.zones == b.zones
    ensures Dealt(b, r, p, deck, extra)
  {
  }

  /** The first card dealt is one or the other. */
  lemma {:induction false} FirstDealt(cards: Arena, source: seq<Key>)
    requires source != []
    ensures IsExtraDeckType(cards, source[0]) ==>
      MainCards(cards, source) == MainCards(cards, source[1..]) && ExtraCards(cards, source) == [source[0]] + ExtraCards(cards, source[1..])
    ensures !IsExtraDeckType(cards, source[0]) ==>
      MainCards(cards, source) == [source[0]] + MainCards(cards, source[1..]) && ExtraCards(cards, source) == ExtraCards(cards, source[1..])
  {
    ExtraTypeMeans(cards, source[0]);
    hide IsExtraDeckType, OfExtraType;
    assert [] + MainCards(cards, source[1..]) == MainCards(cards, source[1..]);
    assert [] + ExtraCards(cards, source[1..]) == ExtraCards(cards, source[1..]);
  }

  /** An extra deck card is dealt first. */
  lemma {:induction false} DealtExtra(b: Board, p: Player, source: seq<Key>, kept: seq<Key>)
    requires source != [] && IsExtraDeckType(b.cards, source[0])
    requires var b2 := AddCard(b.(cards := SetPosition(b.cards, source[0], FACEDOWN)), source[0], p, Location(In(Extra), false), 0);
      Dealt(b2, DealGrave(b2, p, source[1..], kept), p, kept + MainCards(b2.cards, source[1..]), ExtraCards(b2.cards, source[1..]))
    ensures Dealt(b, DealGrave(b, p, source, kept), p, kept + MainCards(b.cards, source), ExtraCards(b.cards, source))
  {
    hide AddCard, List, SetPosition, SetList, Dealt, SameBut, SameTypes, IsExtraDeckType, MainCards, ExtraCards;
    FirstDealt(b.cards, source);
    var b2 := AddCard(b.(cards := SetPosition(b.cards, source[0], FACEDOWN)), source[0], p, Location(In(Extra), false), 0);
    DealToExtra(b, p, source[0]);
    SameTypeCards(b.cards, b2.cards, source[1..]);
    DealtOneMore(b, b2, DealGrave(b, p, source, kept), p, source[0], kept + MainCards(b.cards, source[1..]), ExtraCards(b.cards, source[1..]));
  }

  /** A main deck card is dealt first. */
  lemma {:induction false} DealtMain(b: Board, p: Player, source: seq<Key>, kept: seq<Key>)
    requires source != [] && !IsExtraDeckType(b.cards, source[0])
    requires var c := SetSequence(SetLocation(b.cards, source[0], Location(In(Deck), false)), source[0], AsU8(|kept|));
      Dealt(b.(cards := c), DealGrave(b.(cards := c), p, source[1..], kept + [source[0]]), p,
        kept + [source[0]] + MainCards(c, source[1..]), ExtraCards(c, source[1..]))
    ensures Dealt(b, DealGrave(b, p, source, kept), p, kept + MainCards(b.cards, source), ExtraCards(b.cards, source))
  {
    hide List, SetSequence, SetLocation, AsU8, Dealt, SameBut, SameTypes, IsExtraDeckType, MainCards, ExtraCards;
    FirstDealt(b.cards, source);
    var c := SetSequence(SetLocation(b.cards, source[0], Location(In(Deck), false)), source[0], AsU8(|kept|));
    DealtTypes(b.cards, source[0], AsU8(|kept|));
    SameTypeCards(b.cards, c, source[1..]);
    DealtSame(b, b.(cards := c), DealGrave(b, p, source, kept), p, (kept + [source[0]]) + MainCards(b.cards, source[1..]), ExtraCards(b.cards, source[1..]));
    assert kept + [source[0]] + MainCards(b.cards, source[1..]) == kept + ([source[0]] + MainCards(b.cards, source[1..]));
  }

  /** Dealing the old grave out: main deck cards keep their order, extra deck cards go to the extra deck. */
  lemma {:induction false} DealtGrave(b: Board, p: Player, source: seq<Key>, kept: seq<Key>)
    ensures Dealt(b, DealGrave(b, p, source, kept), p, kept + MainCards(b.cards, source), ExtraCards(b.cards, source))
    decreases source
  {
    hide AddCard, List, SetPosition, SetSequence, SetLocation, AsU8, Dealt, IsExtraDeckType, OfExtraType;
    if source == [] {
      assert kept + [] == kept;
      DeckPut(b, p, kept);
    } else if IsExtraDeckType(b.cards, source[0]) {
      DealtGrave(AddCard(b.(cards := SetPosition(b.cards, source[0], FACEDOWN)), source[0], p, Location(In(Extra), false), 0), p, source[1..], kept);
      DealtExtra(b, p, source, kept);
    } else {
      var c := SetSequence(SetLocation(b.cards, source[0], Location(In(Deck), false)), source[0], AsU8(|kept|));
      DealtGrave(b.(cards := c), p, source[1..], kept + [source[0]]);
      DealtMain(b, p, source, kept);
    }
  }

  lemma DeckPut(b: Board, p: Player, list: seq<Key>)
    ensures Dealt(b, SetList(b, Zone(p, Deck), list), p, list, [])
  {
  }

  lemma DealtTypes(cards: Arena, key: Key, sequence: U8)
    ensures SameTypes(cards, SetSequence(SetLocation(cards, key, Location(In(Deck), false)), key, sequence))
  {
  }

  lemma SameLists(b: Board, cards: Arena)
    ensures var r := b.(cards := cards); forall z: Zone :: List(r, z) == List(b, z)
  {
  }

  /** The deck becomes the grave as it is; the grave becomes the deck without its extra deck cards. */
  lemma SwapGraveDeckMoves(b: Board, p: Player)
    ensures var r := SwapGraveDeckStep(b, p);
      var grave, deck := List(b, Zone(p, Grave)), List(b, Zone(p, Deck));
      && List(r, Zone(p, Grave)) == deck && List(r, Zone(p, Deck)) == MainCards(b.cards, grave)
      && multiset(List(r, Zone(p, Extra))) == multiset(List(b, Zone(p, Extra))) + multiset(ExtraCards(b.cards, grave))
      && forall z: Zone :: z.player != p || z.kind in {Hand, MZone, SZone, Removed} ==>
           List(r, z) == List(b, z) && SlotsIn(r.zones, z) == SlotsIn(b.zones, z)
  {
    hide DealGrave, MainCards, ExtraCards;
    var grave, deck := List(b, Zone(p, Grave)), List(b, Zone(p, Deck));
    var c := SetLocations(b.cards, deck, Location(In(Grave), false));
    LocatedTypes(b.cards, deck, Location(In(Grave), false));
    SameTypeCards(b.cards, c, grave);
    DealtGrave(SetList(SetList(b, Zone(p, Grave), deck), Zone(p, Deck), []).(cards := c), p, grave, []);
    assert [] + MainCards(c, grave) == MainCards(c, grave);
    hide SetLocations;
  }

  lemma {:induction false} LocatedTypes(cards: Arena, list: seq<Key>, location: Location)
    ensures SameTypes(cards, SetLocations(cards, list, location))
    decreases list
  {
    if list != [] { LocatedTypes(SetLocation(cards, list[0], location), list[1..], location); }
  }

  lemma {:induction false} ReverseTwice(s: seq<Key>)
    ensures Reverse(Reverse(s)) == s
  {
  }

  lemma ReverseDeckMoves(b: Board, p: Player)
    ensures var r := ReverseDeckOf(b, p);
      && List(r, Zone(p, Deck)) == Reverse(List(b, Zone(p, Deck)))
      && forall z: Zone :: z != Zone(p, Deck) ==> List(r, z) == List(b, z) && SlotsIn(r.zones, z) == SlotsIn(b.zones, z)
  {
    hide ResetSequence, Reverse;
  }

  /** Both decks are turned over, nothing else, and turning over twice restores them. */
  lemma ReverseDecksMoves(b: Board)
    ensures var r := Step(b, Message.ReverseDeck);
      && r.deckReversed == !b.deckReversed
      && (forall p: Player :: List(r, Zone(p, Deck)) == Reverse(List(b, Zone(p, Deck))))
      && (forall p: Player :: Reverse(List(r, Zone(p, Deck))) == List(b, Zone(p, Deck)))
      && (forall z: Zone :: !z.kind.Deck? ==> List(r, z) == List(b, z) && SlotsIn(r.zones, z) == SlotsIn(b.zones, z))
  {
    hide ReverseDeckOf, Reverse;
    var m := ReverseDeckOf(b, First);
    var n := ReverseDeckOf(m, Second);
    ReverseDeckMoves(b, First);
    ReverseDeckMoves(m, Second);
    SameLists(n, n.cards);
    ReverseTwice(List(b, Zone(First, Deck)));
    ReverseTwice(List(b, Zone(Second, Deck)));
    forall p: Player
      ensures List(n, Zone(p, Deck)) == Reverse(List(b, Zone(p, Deck))) && Reverse(List(n, Zone(p, Deck))) == List(b, Zone(p, Deck))
    {
      match p
      case First =>
      case Second =>
    }
  }

  // ---------- relations ----------

  function EquippedAfter(cards: Arena, x: Key, key: Key, target: Key): set<Key>
    requires x in cards && key in cards
  {
    if x == target then cards[x].equipped + {key}
    else if cards[key].equipTarget == Some(x) then cards[x].equipped - {key}
    else cards[x].equipped
  }

  predicate SameButEquips(c: Card, d: Card) { d == c.(equipTarget := d.equipTarget, equipped := d.equipped) }

  /** Equipping moves one card from the list of its old target to that of the new one. */
  lemma EquipMoves(b: Board, at1: InfoLocation, at2: InfoLocation)
    requires GetInfo(b, at1).Some? && GetInfo(b, at2).Some? && GetInfo(b, at1).value in b.cards && GetInfo(b, at2).value in b.cards
    ensures var key, target := GetInfo(b, at1).value, GetInfo(b, at2).value;
      var r := EquipStep(b, at1, at2);
      && r.cards.Keys == b.cards.Keys && r.zones == b.zones && r.cards[key].equipTarget == Some(target)
      && (forall x :: x in b.cards && x != key ==> r.cards[x].equipTarget == b.cards[x].equipTarget)
      && (forall x :: x in b.cards ==> r.cards[x].equipped == EquippedAfter(b.cards, x, key, target) && SameButEquips(b.cards[x], r.cards[x]))
  {
    hide GetCard;
  }

  /** Adding or cancelling a target changes exactly one pair of the relation. */
  lemma TargetChangesOnePair(b: Board, at1: InfoLocation, at2: InfoLocation, add: bool)
    requires GetInfo(b, at1).Some? && GetInfo(b, at2).Some? && GetInfo(b, at1).value in b.cards && GetInfo(b, at2).value in b.cards
    ensures var key, target := GetInfo(b, at1).value, GetInfo(b, at2).value;
      var r := TargetStep(b, at1, at2, add);
      && r.cards.Keys == b.cards.Keys && r.zones == b.zones
      && (forall x, y :: x in b.cards ==> (y in r.cards[x].cardTarget <==> if x == key && y == target then add else y in b.cards[x].cardTarget))
      && (forall x, y :: y in b.cards ==> (x in r.cards[y].ownerTarget <==> if x == key && y == target then add else x in b.cards[y].ownerTarget))
      && (forall x :: x in b.cards ==> SameButTargets(b.cards[x], r.cards[x]))
  {
    hide GetCard;
  }

  /** Releasing an equip takes the card off the list of its target and changes nothing else. */
  lemma UnequipMoves(b: Board, at: InfoLocation)
    requires GetInfo(b, at).Some? && GetInfo(b, at).value in b.cards
    ensures var key := GetInfo(b, at).value;
      var r := UnequipStep(b, at);
      && r.cards.Keys == b.cards.Keys && r.zones == b.zones && r.cards[key].equipTarget == None
      && (forall x :: x in b.cards && x != key ==> r.cards[x].equipTarget == b.cards[x].equipTarget)
      && (forall x :: x in b.cards ==>
            r.cards[x].equipped == (if b.cards[key].equipTarget == Some(x) then b.cards[x].equipped - {key} else b.cards[x].equipped)
            && SameButEquips(b.cards[x], r.cards[x]))
  {
    hide GetCard;
  }

  /** Turning a face-up card face-down ends every relation it targets or is targeted in. */
  lemma FlippedDownTargetsNothing(b: Board, code: U32, at: CardPosition, before: bv8, after: bv8)
    requires Inv(b) && before & 0x05 != 0 && after & 0x0a != 0
    requires GetCard(b, at.controller, at.location, at.sequence, 0).Some?
    ensures var key := GetCard(b, at.controller, at.location, at.sequence, 0).value;
      var r := PositionChangeStep(b, code, at, before, after);
      && key in r.cards && r.cards[key].position == after
      && forall x :: x in r.cards ==> key !in r.cards[x].cardTarget && key !in r.cards[x].ownerTarget && x !in r.cards[key].cardTarget
  {
    hide ClearTargets, GetCard, InvLoose;
    var key := GetCard(b, at.controller, at.location, at.sequence, 0).value;
    KnownKey(b, at.controller, at.location, at.sequence, 0, key);
    AimedAt(b, key);
    ClearTargetsEffect(b.cards, key);
  }

  /** A flip summon names and turns the addressed card, wherever it lies, and touches nothing else. */
  lemma FlippedShows(b: Board, code: U32, at: InfoLocation)
    requires Inv(b)
    ensures var r := FlipStep(b, code, at);
      && r.zones == b.zones && r.cards.Keys == b.cards.Keys && GetInfo(r, at) == GetInfo(b, at)
      && (forall x :: x in b.cards && GetInfo(b, at) != Some(x) ==> r.cards[x] == b.cards[x])
      && (GetInfo(b, at).Some? ==> GetInfo(b, at).value in b.cards)
      && (forall x :: GetInfo(b, at) == Some(x) && x in b.cards ==>
            r.cards[x].code == code && r.cards[x].position == at.position && SameRelationsOf(b.cards[x], r.cards[x]))
  {
    hide InvLoose;
    if GetInfo(b, at).Some? {
      KnownKey(b, at.controller, at.location, at.sequence, AsI8(at.overlaySequence), GetInfo(b, at).value);
    }
  }

  ghost predicate SameRelationsOf(c: Card, d: Card) {
    && d.cardTarget == c.cardTarget && d.ownerTarget == c.ownerTarget && d.equipTarget == c.equipTarget && d.equipped == c.equipped
    && d.overlayTarget == c.overlayTarget && d.overlayed == c.overlayed && d.sequence == c.sequence && d.location == c.location
  }

  lemma AimedAt(b: Board, key: Key)
    requires Inv(b) && key in b.cards
    ensures Converse(b.cards)
  {
  }

  // ---------- material records ----------

  /** A record of material codes leaves the host with exactly that many materials, named in order; those it had stay first. */
  lemma OverlayQueryNames(b: Board, host: Key, codes: seq<U32>)
    requires Inv(b) && OnBoard(b, host)
    ensures var r := UpdateOverlayCards(b, host, codes);
      && host in r.cards && |r.cards[host].overlayed| == |codes|
      && (forall i :: 0 <= i < |codes| ==>
            r.cards[host].overlayed[i] in r.cards && r.cards[r.cards[host].overlayed[i]].code == codes[i])
      && (forall i :: 0 <= i < |codes| && i < |b.cards[host].overlayed| ==> r.cards[host].overlayed[i] == b.cards[host].overlayed[i])
  {
    hide InvLoose, Numbered, EquipsExact, NameMaterials, DropMaterials;
    var p := b.cards[host].controller;
    var b1 := NameMaterials(b, host, p, codes, 0);
    NameMaterialsKeep(b, host, p, codes, 0);
    NamedMaterials(b, host, p, codes, 0);
    var all := b1.cards[host].overlayed;
    var kept, dropped := all[..|codes|], all[|codes|..];
    assert all == kept + dropped;
    KeptNames(b1, host, kept, dropped);
  }

  lemma {:induction false} KeptNames(b: Board, host: Key, kept: seq<Key>, dropped: seq<Key>)
    requires Inv(b) && SplitMaterials(b.cards, host, kept, dropped)
    ensures var r := DropMaterials(Kept(b.cards, host, kept), dropped);
      && host in r && r[host].overlayed == kept
      && forall i :: 0 <= i < |kept| ==> kept[i] in b.cards && kept[i] in r && r[kept[i]].code == b.cards[kept[i]].code
  {
    KeptEffect(b.cards, host, kept, dropped);
    SplitFacts(b.cards, host, kept, dropped);
    hide DropMaterials, Kept;
    forall i | 0 <= i < |kept| ensures kept[i] in b.cards && kept[i] !in KeysOf(dropped) && kept[i] != host {
      assert b.cards[host].overlayed[i] == kept[i];
      assert IsMaterial(b.cards, kept[i], host);
      assert kept[i] in kept;
    }
  }

  ghost predicate NamedUpTo(b: Board, host: Key, codes: seq<U32>, n: nat)
    requires host in b.cards && n <= |codes|
  {
    n <= |b.cards[host].overlayed| && forall i :: 0 <= i < n ==>
      b.cards[host].overlayed[i] in b.cards && b.cards[b.cards[host].overlayed[i]].code == codes[i]
  }

  lemma {:induction false} NamedMaterials(b: Board, host: Key, p: Option<Player>, codes: seq<U32>, i: nat)
    requires Inv(b) && OnBoard(b, host) && i <= |codes| && i <= |b.cards[host].overlayed|
    requires NamedUpTo(b, host, codes, i)
    ensures var r := NameMaterials(b, host, p, codes, i);
      && host in r.cards && NamedUpTo(r, host, codes, |codes|) && b.cards[host].overlayed <= r.cards[host].overlayed
    decreases |codes| - i
  {
    hide InvLoose, CreateMaterial, SetCode;
    if i < |codes| {
      var b1 := if i < |b.cards[host].overlayed| then b else CreateMaterial(b, host, p);
      if i == |b.cards[host].overlayed| {
        CreateMaterialKeeps(b, host, p, {});
        MaterialCreated(b, host, p);
        CreatedLast(b, host, p, codes, i);
      }
      var b2 := b1.(cards := SetCode(b1.cards, b1.cards[host].overlayed[i], codes[i]));
      SetCodeKeeps(b1, b1.cards[host].overlayed[i], codes[i], {});
      NameNext(b1, host, codes, i);
      NamedMaterials(b2, host, p, codes, i + 1);
    }
  }

  lemma CreatedLast(b: Board, host: Key, p: Option<Player>, codes: seq<U32>, n: nat)
    requires Inv(b) && OnBoard(b, host) && n <= |codes| && NamedUpTo(b, host, codes, n)
    ensures var r := CreateMaterial(b, host, p);
      host in r.cards && NamedUpTo(r, host, codes, n) && r.cards[host].overlayed == b.cards[host].overlayed + [b.next]
  {
    var r := CreateMaterial(b, host, p);
    assert b.next !in b.cards;
    forall i | 0 <= i < n ensures r.cards[host].overlayed[i] in r.cards && r.cards[r.cards[host].overlayed[i]].code == codes[i] {
      assert r.cards[host].overlayed[i] == b.cards[host].overlayed[i];
    }
  }

  lemma NameNext(b: Board, host: Key, codes: seq<U32>, i: nat)
    requires Inv(b) && host in b.cards && i < |codes| && i < |b.cards[host].overlayed| && NamedUpTo(b, host, codes, i)
    ensures var r := b.(cards := SetCode(b.cards, b.cards[host].overlayed[i], codes[i]));
      host in r.cards && NamedUpTo(r, host, codes, i + 1) && r.cards[host].overlayed == b.cards[host].overlayed
      && r.cards[host].overlayTarget == b.cards[host].overlayTarget
  {
    MaterialAt(b.cards, host, i);
    assert b.cards[host].overlayed[i] in b.cards;
  }

  // ---------- which message does what ----------

  /** A move is told apart by its two locations alone: Limbo on either side first, then the overlay bits. */
  lemma MoveChooses(b: Board, code: U32, previous: InfoLocation, current: InfoLocation)
    ensures var r := Step(b, Move(code, previous, current));
      var from, to := previous.location, current.location;
      var nowhere := Location(Nowhere, false);
      && (from == nowhere ==> r == MoveIn(b, code, current))
      && (from != nowhere && to == nowhere ==> r == MoveOut(b, code, previous))
      && (from != nowhere && to != nowhere && !from.overlay && !to.overlay ==> r == MoveAcross(b, code, previous, current))
      && (from != nowhere && to != nowhere && !from.overlay && to.overlay ==> r == MoveUnder(b, code, previous, current))
      && (from != nowhere && to != nowhere && from.overlay && !to.overlay ==> r == MoveFromUnder(b, previous, current))
      && (from != nowhere && to != nowhere && from.overlay && to.overlay ==> r == MoveBetween(b, previous, current))
  {
  }

  /** The other messages go to the operations described in this project with their fields in this order. */
  lemma MessagesHandled(b: Board, m: Message)
    ensures match m
      case Start(deck1, extra1, deck2, extra2) => Step(b, m) == StartStep(deck1, extra1, deck2, extra2)
      case SwapGraveDeck(p) => Step(b, m) == SwapGraveDeckStep(b, p)
      case ShuffleSetCard(where, olds, news) => Step(b, m) == ShuffleSetCardStep(b, where, olds, news)
      case ConfirmExtraTop(p, codes) => Step(b, m) == ConfirmExtraTopStep(b, p, codes)
      case PositionChange(code, at, before, after) => Step(b, m) == PositionChangeStep(b, code, at, before, after)
      case Swap(at1, at2) => Step(b, m) == SwapStep(b, at1, at2)
      case FlipSummoning(code, at) => Step(b, m) == FlipStep(b, code, at)
      case Draw(p, codes) => Step(b, m) == DrawStep(b, p, codes)
      case Equip(at1, at2) => Step(b, m) == EquipStep(b, at1, at2)
      case Unequip(at) => Step(b, m) == UnequipStep(b, at)
      case CardTarget(at1, at2) => Step(b, m) == TargetStep(b, at1, at2, true)
      case CancelTarget(at1, at2) => Step(b, m) == TargetStep(b, at1, at2, false)
      case TagSwap(p, main, pendulum, top, hand, extra) => Step(b, m) == TagSwapStep(b, p, main, pendulum, top, hand, extra)
      case _ => true
  {
  }
}
