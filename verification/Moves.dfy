/** `Field::move_card`: each of its six kinds of move keeps the invariant, and which cards it creates or destroys. */
module Moves {
  import opened Options
  import opened Board
  import opened Placement
  import opened Zoning
  import opened Evolution

  /** The card at `key` and what lies under it. */
  ghost function WithMaterials(cards: Arena, key: Key): set<Key>
    requires key in cards
  {
    {key} + KeysOf(cards[key].overlayed)
  }

  lemma SetCodeKeeps(b: Board, key: Key, code: U32, loose: set<Key>)
    requires InvLoose(b, loose)
    ensures InvLoose(b.(cards := SetCode(b.cards, key, code)), loose) && StaysExact(b.cards, SetCode(b.cards, key, code))
    ensures SameLinks(b.cards, SetCode(b.cards, key, code))
  {
    FrameCode(b.cards, key, code);
    SameLinksKeep(b, SetCode(b.cards, key, code), loose);
  }

  lemma SetPositionKeeps(b: Board, key: Key, position: bv8, loose: set<Key>)
    requires InvLoose(b, loose)
    ensures InvLoose(b.(cards := SetPosition(b.cards, key, position)), loose)
    ensures StaysExact(b.cards, SetPosition(b.cards, key, position))
    ensures SameLinks(b.cards, SetPosition(b.cards, key, position))
  {
    FramePosition(b.cards, key, position);
    SameLinksKeep(b, SetPosition(b.cards, key, position), loose);
  }

  lemma MoveInKeeps(b: Board, code: U32, current: InfoLocation)
    requires Inv(b) && Room(b, None, current.controller, current.location, current.sequence)
    ensures Inv(MoveIn(b, code, current))
    ensures MoveIn(b, code, current).cards.Keys == b.cards.Keys + {b.next} && b.next !in b.cards
    ensures StaysExact(b.cards, MoveIn(b, code, current).cards)
  {
    CreateCardKeeps(b, {});
    hide InvLoose, Numbered, EquipsExact, SetCode, SetPosition, AddCard;
    var b1 := CreateCard(b);
    var loose := {b.next};
    assert {} + loose == loose && loose - loose == {};
    SetPositionKeeps(b1, b.next, current.position, loose);
    var b2 := b1.(cards := SetPosition(b1.cards, b.next, current.position));
    SetCodeKeeps(b2, b.next, code, loose);
    var b3 := b2.(cards := SetCode(b2.cards, b.next, code));
    AddCardKeeps(b3, b.next, current.controller, current.location, current.sequence, loose);
  }

  lemma MoveOutKeeps(b: Board, code: U32, previous: InfoLocation)
    requires Inv(b)
    ensures var key := GetInfo(b, previous);
      && Inv(MoveOut(b, code, previous))
      && (key.None? ==> MoveOut(b, code, previous) == b)
      && (key.Some? ==> key.value in b.cards)
      && (key.Some? ==> MoveOut(b, code, previous).cards.Keys == b.cards.Keys - WithMaterials(b.cards, key.value))
    ensures StaysEquipped(b.cards, MoveOut(b, code, previous).cards)
    ensures !previous.location.overlay ==> StaysNumbered(b.cards, MoveOut(b, code, previous).cards)
  {
    hide InvLoose, Numbered, EquipsExact, SetCode, ClearTargets, RemoveCard, Destroy;
    var found := GetInfo(b, previous);
    if found.Some? {
      var key := found.value;
      KnownKey(b, previous.controller, previous.location, previous.sequence, AsI8(previous.overlaySequence), key);
      var c := if code != 0 then SetCode(b.cards, key, code) else b.cards;
      SetCodeKeeps(b, key, code, {});
      ClearTargetsKeep(b.(cards := c), key, {});
      var b1 := b.(cards := ClearTargets(c, key));
      var b2 := RemoveCard(b1, previous.controller, previous.location, previous.sequence);
      var loose: set<Key> := if previous.location.overlay then {} else {key};
      if previous.location.overlay {
        assert b2 == b1 by { NoRemoval(b1, previous.controller, previous.location, previous.sequence); }
      } else {
        RemoveCardKeeps(b1, previous.controller, previous.location, previous.sequence, key, {});
        assert {} + {key} == {key};
      }
      DestroyKeeps(b2, key, loose);
      assert loose - {key} == {};
      DestroyKeys(b2, key, loose);
    }
  }

  lemma NoRemoval(b: Board, p: Player, location: Location, sequence: U8)
    requires location.overlay
    ensures RemoveCard(b, p, location, sequence) == b
  {
  }

  lemma DestroyKeys(b: Board, key: Key, loose: set<Key>)
    requires InvLoose(b, loose) && key in b.cards
    ensures Destroy(b.cards, key).Keys == b.cards.Keys - WithMaterials(b.cards, key)
  {
    DestroyEffect(b.cards, key);
  }

  /** Whatever `get_card` finds is live: a zone card without overlay bit, a material with it. */
  lemma KnownKey(b: Board, p: Player, location: Location, sequence: U8, sub: int, key: Key)
    requires Inv(b) && GetCard(b, p, location, sequence, sub) == Some(key)
    ensures key in b.cards && (b.cards[key].overlayTarget.Some? <==> location.overlay)
    ensures location.base.In?
    ensures location.overlay ==> b.cards[key].overlayed == []
  {
    var host := CellIn(b.zones, Zone(p, location.base.kind), sequence);
    assert host.Some? && host.value in b.cards;
    if location.overlay {
      assert IsMaterial(b.cards, key, host.value);
    }
  }

  lemma RoomIsFree(b: Board, r: Board, p: Player, from: Location, fromSequence: U8, key: Key, q: Player, to: Location, sequence: U8)
    requires Inv(b) && !from.overlay && GetCard(b, p, from, fromSequence, 0) == Some(key)
    requires Room(b, Some(key), q, to, sequence)
    requires r.zones == RemoveCard(b, p, from, fromSequence).zones
    ensures Free(r, q, to, sequence)
  {
    var z := Zone(q, to.base.kind);
    var y := Zone(p, from.base.kind);
    ZoneCard(b, p, from, fromSequence, key, {});
    RemoveCardZones(b, p, from, fromSequence, key);
    if IsSlots(z.kind) {
      assert Cell(b, z, sequence) == Some(key) ==> At(b.cards[key], z, sequence);
    } else {
      ListDistinct(b, z, {});
      if key in List(b, z) {
        var i :| 0 <= i < |List(b, z)| && List(b, z)[i] == key;
        assert Cell(b, z, i) == Some(key);
        assert At(b.cards[key], z, i);
      }
    }
  }

  /** Zones are found by zones alone. */
  lemma GetZoneCard(b: Board, cards: Arena, p: Player, location: Location, sequence: U8)
    requires !location.overlay
    ensures GetCard(b.(cards := cards), p, location, sequence, 0) == GetCard(b, p, location, sequence, 0)
  {
  }

  lemma RemoveSameZones(b: Board, cards: Arena, p: Player, location: Location, sequence: U8)
    ensures RemoveCard(b.(cards := cards), p, location, sequence).zones == RemoveCard(b, p, location, sequence).zones
  {
  }

  lemma UnlinkKeeps(b: Board, key: Key, loose: set<Key>)
    requires InvLoose(b, loose)
    ensures InvLoose(b.(cards := Unlink(b.cards, key)), loose)
    ensures SamePlaces(b.cards, Unlink(b.cards, key)) && SameOverlays(b.cards, Unlink(b.cards, key))
    ensures Unlink(b.cards, key).Keys == b.cards.Keys && StaysExact(b.cards, Unlink(b.cards, key))
  {
    var c := ClearTargets(b.cards, key);
    ClearTargetsKeep(b, key, loose);
    ReleaseEquipKeeps(b.(cards := c), key, loose);
    SameChain(b.cards, c, Unlink(b.cards, key));
    assert Unlink(b.cards, key).Keys == b.cards.Keys;
    hide InvLoose, Numbered, EquipsExact, ClearTargets, ReleaseEquip, SamePlaces, SameOverlays;
  }

  /** The mover is renamed, unlinked if it changes its zone, and taken out. */
  lemma TakeMover(b: Board, c: Arena, p: Player, location: Location, sequence: U8, key: Key, unlink: bool)
    requires Inv(b) && !location.overlay && GetCard(b, p, location, sequence, 0) == Some(key)
    requires SameLinks(b.cards, c)
    ensures var b1 := b.(cards := if unlink then Unlink(c, key) else c);
      var b2 := RemoveCard(b1, p, location, sequence);
      && InvLoose(b2, {key}) && b2.cards.Keys == b.cards.Keys
      && SameRelations(b1.cards, b2.cards) && StaysExact(b.cards, b2.cards)
      && Inv(b1) && b1.cards.Keys == b.cards.Keys && StaysExact(b.cards, b1.cards)
      && b2.zones == RemoveCard(b, p, location, sequence).zones
  {
    var c1 := if unlink then Unlink(c, key) else c;
    var b1 := b.(cards := c1);
    SameLinksKeep(b, c, {});
    UnlinkKeeps(b.(cards := c), key, {});
    GetZoneCard(b, c1, p, location, sequence);
    RemoveSameZones(b, c1, p, location, sequence);
    hide InvLoose, Numbered, EquipsExact, Unlink, RemoveCard, GetCard;
    RemoveCardKeeps(b1, p, location, sequence, key, {});
    assert {} + {key} == {key};
  }

  lemma PutDown(b: Board, key: Key, current: InfoLocation)
    requires InvLoose(b, {key}) && Free(b, current.controller, current.location, current.sequence)
    ensures var r := AddCard(b.(cards := SetPosition(b.cards, key, current.position)), key,
        current.controller, current.location, current.sequence);
      Inv(r) && r.cards.Keys == b.cards.Keys && StaysExact(b.cards, r.cards)
  {
    SetPositionKeeps(b, key, current.position, {key});
    hide InvLoose, Numbered, EquipsExact, SetPosition, AddCard;
    var b1 := b.(cards := SetPosition(b.cards, key, current.position));
    AddCardKeeps(b1, key, current.controller, current.location, current.sequence, {key});
    assert {key} - {key} == {};
  }

  lemma MoveAcrossKeeps(b: Board, code: U32, previous: InfoLocation, current: InfoLocation)
    requires Inv(b) && !previous.location.overlay
    requires var mover := GetCard(b, previous.controller, previous.location, previous.sequence, 0);
      mover.Some? ==> Room(b, mover, current.controller, current.location, current.sequence)
    ensures Inv(MoveAcross(b, code, previous, current))
    ensures MoveAcross(b, code, previous, current).cards.Keys == b.cards.Keys
    ensures StaysExact(b.cards, MoveAcross(b, code, previous, current).cards)
  {
    hide InvLoose, Numbered, EquipsExact, SetCode, Unlink, RemoveCard, AddCard, GetCard, Room, SameLinks;
    var p, location, sequence := previous.controller, previous.location, previous.sequence;
    var found := GetCard(b, p, location, sequence, 0);
    if found.Some? {
      var key := found.value;
      var c := Renamed(b.cards, key, code, current.location == Location(In(Extra), false));
      RenameLinks(b.cards, key, code);
      TakeMover(b, c, p, location, sequence, key, current.location != location);
      var c1 := if current.location != location then Unlink(c, key) else c;
      var b2 := RemoveCard(b.(cards := c1), p, location, sequence);
      RoomIsFree(b, b2, p, location, sequence, key, current.controller, current.location, current.sequence);
      PutDown(b2, key, current);
    }
  }

  /** The host a card moves under has fewer than 256 materials. */
  ghost predicate RoomUnder(b: Board, current: InfoLocation) {
    var host := GetCard(b, current.controller, ClearPlace(current), current.sequence, 0);
    host.Some? && host.value in b.cards ==> |b.cards[host.value].overlayed| < 0x100
  }

  lemma RenameLinks(cards: Arena, key: Key, code: U32)
    ensures SameLinks(cards, cards) && SameLinks(cards, SetCode(cards, key, code))
  {
    FrameCode(cards, key, code);
  }

  lemma MoveUnderKeeps(b: Board, code: U32, previous: InfoLocation, current: InfoLocation)
    requires Inv(b) && !previous.location.overlay
    requires var mover := GetCard(b, previous.controller, previous.location, previous.sequence, 0);
      var host := GetCard(b, current.controller, ClearPlace(current), current.sequence, 0);
      mover.Some? && host.Some? ==> mover != host && Bare(b, mover.value)
    ensures Inv(MoveUnder(b, code, previous, current))
    ensures MoveUnder(b, code, previous, current).cards.Keys == b.cards.Keys
    ensures StaysEquipped(b.cards, MoveUnder(b, code, previous, current).cards)
    ensures RoomUnder(b, current) ==> StaysNumbered(b.cards, MoveUnder(b, code, previous, current).cards)
  {
    hide InvLoose, Numbered, EquipsExact, SetCode, Unlink, RemoveCard, GetCard, SameLinks, SameRelations, Bare, AttachMaterial, SetLocation;
    var p, location, sequence := previous.controller, previous.location, previous.sequence;
    var found := GetCard(b, p, location, sequence, 0);
    if found.Some? {
      var key := found.value;
      var c := if code != 0 then SetCode(b.cards, key, code) else b.cards;
      RenameLinks(b.cards, key, code);
      var b1 := b.(cards := Unlink(c, key));
      var found' := GetCard(b, current.controller, ClearPlace(current), current.sequence, 0);
      GetZoneCard(b, b1.cards, current.controller, ClearPlace(current), current.sequence);
      TakeMover(b, c, p, location, sequence, key, true);
      if found'.Some? {
        BareMover(b, c, p, location, sequence, key, current, found'.value);
        PutUnder(RemoveCard(b1, p, location, sequence), found'.value, key);
      }
    }
  }

  /** Once taken out, a bare card is ready to go under its new host. */
  lemma BareMover(b: Board, c: Arena, p: Player, location: Location, sequence: U8, key: Key, current: InfoLocation, host: Key)
    requires Inv(b) && !location.overlay && GetCard(b, p, location, sequence, 0) == Some(key)
    requires GetCard(b, current.controller, ClearPlace(current), current.sequence, 0) == Some(host)
    requires SameLinks(b.cards, c) && Bare(b, key) && host != key
    ensures var r := RemoveCard(b.(cards := Unlink(c, key)), p, location, sequence).cards;
      && host in r && r[host].overlayTarget.None? && host in b.cards && |r[host].overlayed| == |b.cards[host].overlayed|
      && key in r && r[key].overlayed == [] && r[key].equipTarget.None?
      && forall a :: a in r ==> r[a].equipTarget != Some(key)
  {
    ZoneCard(b, current.controller, ClearPlace(current), current.sequence, host, {});
    StillBare(b, c, key);
    SameLinksKeep(b, c, {});
    UnlinkKeeps(b.(cards := c), key, {});
    TakeMover(b, c, p, location, sequence, key, true);
    hide InvLoose, Numbered, EquipsExact, Unlink, RemoveCard, GetCard, Bare;
  }

  lemma PutUnder(b: Board, host: Key, key: Key)
    requires InvLoose(b, {key}) && host in b.cards && host != key && b.cards[host].overlayTarget.None?
    requires key in b.cards && b.cards[key].overlayed == [] && b.cards[key].equipTarget.None?
    requires forall a :: a in b.cards ==> b.cards[a].equipTarget != Some(key)
    ensures var r := SetLocation(AttachMaterial(b.cards, host, key), key, OVERLAY);
      && Inv(b.(cards := r)) && StaysEquipped(b.cards, r) && r.Keys == b.cards.Keys
      && (|b.cards[host].overlayed| < 0x100 ==> StaysNumbered(b.cards, r))
  {
    AttachKeeps(b, host, key, {key});
    AttachEffect(b.cards, host, key);
    hide InvLoose, Numbered, EquipsExact;
    assert {key} - {key} == {};
  }

  /** Renaming a bare card, clearing its targets and releasing its equip leaves it bare and unequipped. */
  lemma StillBare(b: Board, c: Arena, key: Key)
    requires Inv(b) && Bare(b, key) && SameLinks(b.cards, c)
    ensures var r := Unlink(c, key);
      && r.Keys == b.cards.Keys && r[key].overlayed == [] && r[key].equipTarget.None?
      && forall a :: a in r ==> r[a].equipTarget != Some(key)
  {
    assert Targets(c) by { TargetsFrame(b.cards, c); }
    hide InvLoose, Numbered, EquipsExact;
    FrameClearTargets(c, key);
    FrameReleaseEquip(ClearTargets(c, key), key);
    hide ClearTargets, ReleaseEquip;
  }

  lemma MovedMaterialFacts(b: Board, previous: InfoLocation, key: Key, host: Key)
    requires Inv(b) && MovedMaterial(b, previous) == Some(key)
    requires GetCard(b, previous.controller, ClearPlace(previous), previous.sequence, 0) == Some(host)
    ensures host in b.cards && IsMaterial(b.cards, key, host)
    ensures previous.overlaySequence < |b.cards[host].overlayed| && b.cards[host].overlayed[previous.overlaySequence] == key
  {
  }

  lemma Lift(b: Board, host: Key, i: nat)
    requires Inv(b) && host in b.cards && i < |b.cards[host].overlayed|
    ensures var key := b.cards[host].overlayed[i];
      var r := SetOverlayTarget(DetachMaterial(b.cards, host, i), key, None);
      InvLoose(b.(cards := r), {key}) && r.Keys == b.cards.Keys && StaysExact(b.cards, r)
  {
    DetachKeeps(b, host, i, {});
    assert SetOverlayTarget(DetachMaterial(b.cards, host, i), b.cards[host].overlayed[i], None).Keys == b.cards.Keys;
    hide InvLoose, Numbered, EquipsExact, SetOverlayTarget, DetachMaterial;
    assert {} + {b.cards[host].overlayed[i]} == {b.cards[host].overlayed[i]};
  }

  lemma MoveFromUnderKeeps(b: Board, previous: InfoLocation, current: InfoLocation)
    requires Inv(b)
    requires MovedMaterial(b, previous).Some? ==> Room(b, None, current.controller, current.location, current.sequence)
    ensures Inv(MoveFromUnder(b, previous, current))
    ensures MoveFromUnder(b, previous, current).cards.Keys == b.cards.Keys
    ensures StaysExact(b.cards, MoveFromUnder(b, previous, current).cards)
  {
    hide InvLoose, Numbered, EquipsExact, SetPosition, AddCard, GetCard, IsMaterial, DetachMaterial, SetOverlayTarget;
    var found := MovedMaterial(b, previous);
    if found.Some? {
      var key := found.value;
      var host := GetCard(b, previous.controller, ClearPlace(previous), previous.sequence, 0).value;
      var i: nat := previous.overlaySequence;
      MovedMaterialFacts(b, previous, key, host);
      Lift(b, host, i);
      PutDown(b.(cards := SetOverlayTarget(DetachMaterial(b.cards, host, i), key, None)), key, current);
    }
  }

  lemma MoveBetweenKeeps(b: Board, previous: InfoLocation, current: InfoLocation)
    requires Inv(b)
    ensures Inv(MoveBetween(b, previous, current))
    ensures MoveBetween(b, previous, current).cards.Keys == b.cards.Keys
    ensures StaysEquipped(b.cards, MoveBetween(b, previous, current).cards)
    ensures RoomUnder(b, current) ==> StaysNumbered(b.cards, MoveBetween(b, previous, current).cards)
  {
    hide InvLoose, Numbered, EquipsExact, GetCard, DetachMaterial, AttachMaterial, IsMaterial;
    var found := MovedMaterial(b, previous);
    var found' := GetCard(b, current.controller, ClearPlace(current), current.sequence, 0);
    if found.Some? && found'.Some? {
      var key, to := found.value, found'.value;
      var host := GetCard(b, previous.controller, ClearPlace(previous), previous.sequence, 0).value;
      var i: nat := previous.overlaySequence;
      MovedMaterialFacts(b, previous, key, host);
      ZoneCard(b, current.controller, ClearPlace(current), current.sequence, to, {});
      Rehost(b, host, i, key, to);
    }
  }

  /** The material at index `i` under `host` goes under `to`. */
  lemma Rehost(b: Board, host: Key, i: nat, key: Key, to: Key)
    requires Inv(b) && host in b.cards && i < |b.cards[host].overlayed| && b.cards[host].overlayed[i] == key
    requires to in b.cards && b.cards[to].overlayTarget.None?
    ensures var c := DetachMaterial(b.cards, host, i);
      && to in c && c.Keys == b.cards.Keys
      && Inv(b.(cards := AttachMaterial(c, to, key))) && AttachMaterial(c, to, key).Keys == b.cards.Keys
      && StaysEquipped(b.cards, AttachMaterial(c, to, key))
      && |c[to].overlayed| <= |b.cards[to].overlayed|
      && (|c[to].overlayed| < 0x100 ==> StaysNumbered(b.cards, AttachMaterial(c, to, key)))
  {
    var c := DetachMaterial(b.cards, host, i);
    assert c.Keys == b.cards.Keys && SetOverlayTarget(c, key, None).Keys == c.Keys;
    assert SetOverlayTarget(c, key, None)[key].location == c[key].location;
    hide InvLoose, Numbered, EquipsExact, DetachMaterial, SetLocation, AttachMaterial, SetOverlayTarget;
    Lift(b, host, i);
    DetachedIsBare(b, host, i);
    assert SetOverlayTarget(c, key, None)[to].overlayed == c[to].overlayed by { OverlayTargetOnly(c, key, to); }
    PutUnder(b.(cards := SetOverlayTarget(c, key, None)), to, key);
    Reattach(c, to, key);
  }

  lemma OverlayTargetOnly(c: Arena, key: Key, x: Key)
    requires x in c
    ensures SetOverlayTarget(c, key, None)[x].overlayed == c[x].overlayed
  {
  }

  lemma DetachedIsBare(b: Board, host: Key, i: nat)
    requires Inv(b) && host in b.cards && i < |b.cards[host].overlayed|
    ensures var key := b.cards[host].overlayed[i];
      var r := SetOverlayTarget(DetachMaterial(b.cards, host, i), key, None);
      && key in r && r[key].location == OVERLAY && r[key].overlayed == [] && r[key].equipTarget.None?
      && (forall a :: a in r ==> r[a].equipTarget != Some(key))
      && (forall a :: a in b.cards && b.cards[a].overlayTarget.None? ==> a != key && a in r && r[a].overlayTarget.None?)
      && (forall a :: a in b.cards && b.cards[a].overlayTarget.None? ==> |r[a].overlayed| <= |b.cards[a].overlayed|)
  {
    DetachEffect(b.cards, host, i);
    hide SetOverlayTarget, DetachMaterial, CellsPointBack, AllHoused, Targets;
  }

  /** Attaching overwrites the overlay target, so it need not be cleared first. */
  lemma Reattach(c: Arena, to: Key, key: Key)
    requires to in c && key in c && to != key && c[key].location == OVERLAY
    ensures SetLocation(AttachMaterial(SetOverlayTarget(c, key, None), to, key), key, OVERLAY) == AttachMaterial(c, to, key)
  {
  }

  /** No material leaves the duel from under its host, and no host gets a 257th material. */
  ghost predicate NumberSafeMove(b: Board, previous: InfoLocation, current: InfoLocation) {
    && !(current.location == LIMBO && previous.location.overlay)
    && (current.location.overlay ==> RoomUnder(b, current))
  }

  lemma MoveKeeps(b: Board, code: U32, previous: InfoLocation, current: InfoLocation)
    requires Inv(b) && LegalMove(b, previous, current)
    ensures Inv(MoveStep(b, code, previous, current))
    ensures StaysEquipped(b.cards, MoveStep(b, code, previous, current).cards)
    ensures NumberSafeMove(b, previous, current) ==> StaysNumbered(b.cards, MoveStep(b, code, previous, current).cards)
  {
    hide InvLoose, Numbered, EquipsExact, MoveIn, MoveOut, MoveAcross, MoveUnder, MoveFromUnder, MoveBetween, Room, Bare, RoomUnder;
    if previous.location == LIMBO {
      MoveInKeeps(b, code, current);
    } else if current.location == LIMBO {
      MoveOutKeeps(b, code, previous);
    } else if !previous.location.overlay && !current.location.overlay {
      MoveAcrossKeeps(b, code, previous, current);
    } else if !previous.location.overlay {
      MoveUnderKeeps(b, code, previous, current);
    } else if !current.location.overlay {
      MoveFromUnderKeeps(b, previous, current);
    } else {
      MoveBetweenKeeps(b, previous, current);
    }
  }
}
