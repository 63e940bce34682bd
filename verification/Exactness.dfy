/** Where the field falls short of what its fields are named for, and exactly when. */
module Exactness {
  // A destroyed material is not closed up, a query may move an equip card away from a card that
  // still lists it, a host may outgrow an eight-bit sequence, and a swap inside one list may take
  // out a card it never meant to touch. Each condition is one the sender could check beforehand.

  import opened Options
  import opened Board
  import opened Placement
  import opened Zoning
  import opened Evolution
  import opened Moves
  import opened Updates
  import opened Deals

  // ---------- materials that leave the duel ----------

  /** Destroying a material keeps the numbering exactly if it was the last one under its host. */
  lemma DestroyMaterialNumbers(cards: Arena, key: Key, host: Key, i: nat)
    requires Overlays(cards) && Converse(cards) && Numbered(cards) && host in cards
    requires i < |cards[host].overlayed| && cards[host].overlayed[i] == key
    ensures Numbered(Destroy(cards, key)) <==> i == |cards[host].overlayed| - 1
  {
    hide Destroy, Converse, Without, Overlays;
    var list := cards[host].overlayed;
    MaterialAt(cards, host, i);
    DestroyEffect(cards, key);
    WithoutOne(list, i);
    var r := Destroy(cards, key);
    var left := Without(list, key);
    assert host in r && r[host].overlayed == left;
    if i < |list| - 1 {
      MaterialAt(cards, host, i + 1);
      assert left[i] == list[i + 1];
      assert r[left[i]].sequence == i + 1;
    } else {
      assert left == list[..i];
      forall h, j | h in r && 0 <= j < |r[h].overlayed| ensures r[h].overlayed[j] in r && r[r[h].overlayed[j]].sequence == j {
        assert r[h].overlayed[j] == cards[h].overlayed[j];
        MaterialAt(cards, h, j);
        if h == host { assert list[j] != list[i]; }
      }
    }
  }

  lemma MoveOutNumbers(b: Board, code: U32, previous: InfoLocation)
    requires Inv(b) && Numbered(b.cards) && previous.location.overlay && GetInfo(b, previous).Some?
    ensures var key := GetInfo(b, previous).value;
      && key in b.cards && b.cards[key].overlayTarget.Some? && b.cards[key].overlayTarget.value in b.cards
      && (Numbered(MoveOut(b, code, previous).cards) <==>
          b.cards[key].sequence == |b.cards[b.cards[key].overlayTarget.value].overlayed| - 1)
  {
    var key := GetInfo(b, previous).value;
    var host := CellIn(b.zones, Zone(previous.controller, previous.location.base.kind), previous.sequence).value;
    var i := AtLeast0(AsI8(previous.overlaySequence));
    assert b.cards[host].overlayed[i] == key && IsMaterial(b.cards, key, host);
    var c := if code != 0 then SetCode(b.cards, key, code) else b.cards;
    hide InvLoose, Numbered, EquipsExact, Destroy, ClearTargets, RemoveCard, SetCode, GetCard;
    assert StaysNumbered(b.cards, c) && InvLoose(b.(cards := c), {}) && SameOverlays(b.cards, c) by { NamedFrame(b, key, code); }
    ClearTargetsKeep(b.(cards := c), key, {});
    var b1 := b.(cards := ClearTargets(c, key));
    assert RemoveCard(b1, previous.controller, previous.location, previous.sequence) == b1 by {
      NoRemoval(b1, previous.controller, previous.location, previous.sequence);
    }
    assert b1.cards[host].overlayed == b.cards[host].overlayed;
    assert b.cards[key].sequence == i by { SequenceIs(b.cards, host, i); }
    assert Overlays(b1.cards) && Converse(b1.cards) by { Parts(b1); }
    assert Numbered(b1.cards);
    DestroyMaterialNumbers(b1.cards, key, host, i);
  }

  lemma NamedFrame(b: Board, key: Key, code: U32)
    requires Inv(b)
    ensures var c := if code != 0 then SetCode(b.cards, key, code) else b.cards;
      StaysNumbered(b.cards, c) && InvLoose(b.(cards := c), {}) && SameOverlays(b.cards, c)
  {
    SetCodeKeeps(b, key, code, {});
    FrameCode(b.cards, key, code);
    hide InvLoose, Numbered;
  }

  lemma SequenceIs(cards: Arena, host: Key, i: nat)
    requires Numbered(cards) && host in cards && i < |cards[host].overlayed|
    ensures cards[host].overlayed[i] in cards && cards[cards[host].overlayed[i]].sequence == i
  {
  }

  lemma Parts(b: Board)
    requires Inv(b)
    ensures Overlays(b.cards) && Converse(b.cards)
  {
  }

  // ---------- hosts that outgrow an eight-bit sequence ----------

  /** More than 256 materials cannot all carry their index. */
  lemma Crowded(cards: Arena, host: Key)
    requires host in cards && |cards[host].overlayed| > 0x100
    ensures !Numbered(cards)
  {
    var k := cards[host].overlayed[0x100];
    if k in cards { assert cards[k].sequence < 0x100; }
  }

  lemma MoveUnderNumbers(b: Board, code: U32, previous: InfoLocation, current: InfoLocation)
    requires Inv(b) && LegalMove(b, previous, current) && Numbered(b.cards)
    requires !previous.location.overlay && previous.location != LIMBO && current.location.overlay
    ensures Numbered(MoveUnder(b, code, previous, current).cards) <==>
      (GetCard(b, previous.controller, previous.location, previous.sequence, 0).Some? ==> RoomUnder(b, current))
  {
    var p, location, sequence := previous.controller, previous.location, previous.sequence;
    var found := GetCard(b, p, location, sequence, 0);
    var to := GetCard(b, current.controller, ClearPlace(current), current.sequence, 0);
    MoveUnderKeeps(b, code, previous, current);
    if found.Some? && to.Some? {
      var key, host := found.value, to.value;
      var c := if code != 0 then SetCode(b.cards, key, code) else b.cards;
      RenameLinks(b.cards, key, code);
      hide InvLoose, Numbered, EquipsExact, SetCode, Unlink, RemoveCard, GetCard, SameLinks, Bare, AttachMaterial, SetLocation;
      BareMover(b, c, p, location, sequence, key, current, host);
      GetZoneCard(b, Unlink(c, key), current.controller, ClearPlace(current), current.sequence);
      var b2 := RemoveCard(b.(cards := Unlink(c, key)), p, location, sequence);
      AttachEffect(b2.cards, host, key);
      var r := MoveUnder(b, code, previous, current).cards;
      assert r == SetLocation(AttachMaterial(b2.cards, host, key), key, OVERLAY);
      if !RoomUnder(b, current) { Crowded(r, host); }
    } else if found.None? {
      assert MoveUnder(b, code, previous, current) == b;
    }
  }

  /** Moving from host to host keeps the numbering unless the new host is another one and full. */
  lemma MoveBetweenNumbers(b: Board, previous: InfoLocation, current: InfoLocation)
    requires Inv(b) && Numbered(b.cards)
    ensures Numbered(MoveBetween(b, previous, current).cards) <==>
      (MovedMaterial(b, previous).Some? && !SameHost(b, previous, current) ==> RoomUnder(b, current))
  {
    var found := MovedMaterial(b, previous);
    var to := GetCard(b, current.controller, ClearPlace(current), current.sequence, 0);
    hide InvLoose, Numbered, EquipsExact, GetCard, DetachMaterial, AttachMaterial, IsMaterial;
    if found.Some? && to.Some? {
      var key, host := found.value, GetCard(b, previous.controller, ClearPlace(previous), previous.sequence, 0).value;
      var i: nat := previous.overlaySequence;
      MovedMaterialFacts(b, previous, key, host);
      ZoneCard(b, current.controller, ClearPlace(current), current.sequence, to.value, {});
      Rehost(b, host, i, key, to.value);
      RehostedLength(b, host, i, to.value);
      AtMost256(b.cards, to.value);
      var r := MoveBetween(b, previous, current).cards;
      if to.value != host && !RoomUnder(b, current) { Crowded(r, to.value); }
    }
  }

  ghost predicate SameHost(b: Board, previous: InfoLocation, current: InfoLocation) {
    GetCard(b, previous.controller, ClearPlace(previous), previous.sequence, 0)
      == GetCard(b, current.controller, ClearPlace(current), current.sequence, 0)
  }

  lemma RehostedLength(b: Board, host: Key, i: nat, to: Key)
    requires Inv(b) && host in b.cards && i < |b.cards[host].overlayed|
    requires to in b.cards && b.cards[to].overlayTarget.None?
    ensures var key := b.cards[host].overlayed[i];
      var c := DetachMaterial(b.cards, host, i);
      && to in c && to != key && key in c
      && |c[to].overlayed| == (if to == host then |b.cards[to].overlayed| - 1 else |b.cards[to].overlayed|)
      && AttachMaterial(c, to, key)[to].overlayed == c[to].overlayed + [key]
  {
    DetachEffect(b.cards, host, i);
    var key := b.cards[host].overlayed[i];
    var c := DetachMaterial(b.cards, host, i);
    assert c.Keys == SetOverlayTarget(c, key, None).Keys;
    assert c[to] == SetOverlayTarget(c, key, None)[to];
    hide DetachMaterial, InvLoose;
  }

  // ---------- every move, exactly ----------

  /** The moves that keep materials numbered. */
  ghost predicate NumberedMove(b: Board, previous: InfoLocation, current: InfoLocation) {
    if previous.location == LIMBO || (!previous.location.overlay && !current.location.overlay) then true
    else if current.location == LIMBO then
      var key := GetInfo(b, previous);
      key.Some? ==>
        key.value in b.cards && b.cards[key.value].overlayTarget.Some? && b.cards[key.value].overlayTarget.value in b.cards &&
        b.cards[key.value].sequence == |b.cards[b.cards[key.value].overlayTarget.value].overlayed| - 1
    else if !previous.location.overlay then
      GetCard(b, previous.controller, previous.location, previous.sequence, 0).Some? ==> RoomUnder(b, current)
    else if !current.location.overlay then true
    else MovedMaterial(b, previous).Some? && !SameHost(b, previous, current) ==> RoomUnder(b, current)
  }

  /**
  A legal move keeps every material numbered by its index if and only if it takes the last material when it takes
  one out of the duel, and adds a material only to a host with fewer than 256.
  */
  lemma MoveNumbersExactly(b: Board, code: U32, previous: InfoLocation, current: InfoLocation)
    requires Inv(b) && LegalMove(b, previous, current) && Numbered(b.cards)
    ensures Numbered(MoveStep(b, code, previous, current).cards) <==> NumberedMove(b, previous, current)
  {
    hide InvLoose, Numbered, EquipsExact, MoveIn, MoveOut, MoveAcross, MoveUnder, MoveFromUnder, MoveBetween;
    hide RoomUnder, GetCard, MovedMaterial, SameHost, Room, Bare;
    if previous.location == LIMBO {
      MoveInKeeps(b, code, current);
    } else if current.location == LIMBO {
      if previous.location.overlay && GetInfo(b, previous).Some? {
        MoveOutNumbers(b, code, previous);
      } else {
        MoveOutKeeps(b, code, previous);
      }
    } else if previous.location.overlay && current.location.overlay {
      MoveBetweenNumbers(b, previous, current);
    } else if current.location.overlay {
      MoveUnderNumbers(b, code, previous, current);
    } else {
      MoveKeeps(b, code, previous, current);
    }
  }

  lemma {:induction false} SplitEffect(b: Board, host: Key, kept: seq<Key>, dropped: seq<Key>)
    requires Inv(b) && SplitMaterials(b.cards, host, kept, dropped)
    ensures var r := DropMaterials(Kept(b.cards, host, kept), dropped); host in r && r[host].overlayed == kept
  {
    KeptEffect(b.cards, host, kept, dropped);
    hide DropMaterials, Kept;
  }

  /** A record of material codes keeps the numbering if and only if it lists at most 256 of them. */
  lemma OverlayQueryNumbersExactly(b: Board, host: Key, codes: seq<U32>)
    requires Inv(b) && OnBoard(b, host) && Numbered(b.cards)
    ensures Numbered(UpdateOverlayCards(b, host, codes).cards) <==> |codes| <= 0x100
  {
    hide InvLoose, Numbered, EquipsExact, NameMaterials, DropMaterials;
    UpdateOverlayCardsKeep(b, host, codes);
    var b1 := NameMaterials(b, host, b.cards[host].controller, codes, 0);
    NameMaterialsKeep(b, host, b.cards[host].controller, codes, 0);
    var all := b1.cards[host].overlayed;
    assert all == all[..|codes|] + all[|codes|..];
    SplitEffect(b1, host, all[..|codes|], all[|codes|..]);
    if |codes| > 0x100 { Crowded(UpdateOverlayCards(b, host, codes).cards, host); }
  }

  // ---------- equip records ----------

  /** An equip record keeps `equipped` exact if and only if the card was not equipped to a different card. */
  lemma EquipQueryExactly(b: Board, key: Key, at: CardPosition)
    requires Inv(b) && OnBoard(b, key) && !at.location.overlay && EquipsExact(b.cards)
    ensures EquipsExact(SetEquipCard(b, key, at).cards) <==> NoRetarget(b, key, GetPosition(b, at))
  {
    ApplyQueryKeeps(b, key, EquipCard(at));
    var target := GetPosition(b, at);
    if target.Some? && !NoRetarget(b, key, target) {
      KnownKey(b, at.controller, at.location, at.sequence, at.sub, target.value);
      var t := b.cards[key].equipTarget.value;
      StillListed(b.cards, key, target.value, t);
    }
  }

  lemma StillListed(cards: Arena, key: Key, target: Key, t: Key)
    requires Equips(cards) && key in cards && target in cards && cards[key].equipTarget == Some(t) && t != target
    ensures !EquipsExact(AddEquipped(SetEquipTarget(cards, key, Some(target)), target, key))
  {
    var r := AddEquipped(SetEquipTarget(cards, key, Some(target)), target, key);
    assert t in r && key in r[t].equipped && r[key].equipTarget == Some(target);
  }

  // ---------- swaps inside one list ----------

  ghost predicate SameList(b: Board, at1: InfoLocation, at2: InfoLocation) {
    && !at1.location.overlay && at1.location.base.In? && !IsSlots(at1.location.base.kind)
    && at2.controller == at1.controller && at2.location == at1.location
    && GetInfo(b, at1).Some? && GetInfo(b, at2).Some?
  }

  /**
  Swapping two cards of one list keeps the invariant if and only if the card named first lies behind the other:
  otherwise the first removal shifts the second card away from its index.
  */
  lemma SwapInListExactly(b: Board, at1: InfoLocation, at2: InfoLocation)
    requires Inv(b) && SameList(b, at1, at2)
    ensures Inv(SwapStep(b, at1, at2)) <==> at1.sequence > at2.sequence
  {
    hide InvLoose, Numbered, EquipsExact, RemoveCard, AddCard;
    if at1.sequence > at2.sequence {
      SwapBackwards(b, at1, at2);
    } else {
      SwapForwards(b, at1, at2);
    }
  }

  lemma SwapBackwards(b: Board, at1: InfoLocation, at2: InfoLocation)
    requires Inv(b) && SameList(b, at1, at2) && at1.sequence > at2.sequence
    ensures Inv(SwapStep(b, at1, at2))
  {
    hide InvLoose, Numbered, EquipsExact, RemoveCard, AddCard;
    var p, location := at1.controller, at1.location;
    var z := Zone(p, location.base.kind);
    var first, second := GetInfo(b, at1).value, GetInfo(b, at2).value;
    ListDistinct(b, z, {});
    var b1 := RemoveCard(b, p, location, at1.sequence);
    RemoveCardKeeps(b, p, location, at1.sequence, first, {});
    RemoveCardZones(b, p, location, at1.sequence, first);
    assert List(b1, z)[at2.sequence] == second;
    var b2 := RemoveCard(b1, p, location, at2.sequence);
    assert {} + {first} == {first} && {first} + {second} == {first, second};
    RemoveCardKeeps(b1, p, location, at2.sequence, second, {first});
    RemoveCardZones(b1, p, location, at2.sequence, second);
    assert first != second;
    AddCardKeeps(b2, first, p, location, at2.sequence, {first, second});
    assert {first, second} - {first} == {second} && {second} - {second} == {};
    AddCardOtherZones(b2, first, p, location, at2.sequence);
    var b3 := AddCard(b2, first, p, location, at2.sequence);
    AddCardKeeps(b3, second, p, location, at1.sequence, {second});
  }

  /** The second card is still in the list when it is added again. */
  lemma SwapForwards(b: Board, at1: InfoLocation, at2: InfoLocation)
    requires Inv(b) && SameList(b, at1, at2) && at1.sequence <= at2.sequence
    ensures !Inv(SwapStep(b, at1, at2))
  {
    hide InvLoose, Numbered, EquipsExact, RemoveCard, AddCard;
    var p, location := at1.controller, at1.location;
    var z := Zone(p, location.base.kind);
    var first, second := GetInfo(b, at1).value, GetInfo(b, at2).value;
    var b1 := RemoveCard(b, p, location, at1.sequence);
    RemoveCardZones(b, p, location, at1.sequence, first);
    var b2 := RemoveCard(b1, p, location, at2.sequence);
    var b3 := AddCard(b2, first, p, location, at2.sequence);
    var b4 := AddCard(b3, second, p, location, at1.sequence);
    AddCardZones(b2, first, p, location, at2.sequence);
    AddCardZones(b3, second, p, location, at1.sequence);
    AddedKeepsOthers(b2, first, z, at2.sequence);
    if at1.sequence < at2.sequence {
      assert List(b1, z)[at2.sequence - 1] == second;
      if at2.sequence < |List(b1, z)| {
        RemoveCardZones(b1, p, location, at2.sequence, List(b1, z)[at2.sequence]);
        assert List(b2, z)[at2.sequence - 1] == second;
      } else {
        assert b2 == b1 by { NothingThere(b1, p, location, at2.sequence); }
      }
      assert second in List(b2, z);
    }
    assert second in List(b3, z);
    AddedTwice(b3, second, z, at1.sequence);
    if Inv(b4) { ListDistinct(b4, z, {}); }
  }

  lemma NothingThere(b: Board, p: Player, location: Location, sequence: U8)
    requires location.base.In? && !IsSlots(location.base.kind) && |List(b, Zone(p, location.base.kind))| <= sequence
    ensures RemoveCard(b, p, location, sequence) == b
  {
  }

  lemma AddedKeepsOthers(b: Board, key: Key, z: Zone, sequence: U8)
    ensures key in AddedList(b, key, z, sequence)
    ensures forall k :: k in List(b, z) ==> k in AddedList(b, key, z, sequence)
  {
    var list, i := List(b, z), AddIndex(b, key, z, sequence);
    AddedAt(b, key, z, sequence);
    var r := InsertAt(list, i, key);
    assert r[i] == key;
    forall k | k in list ensures k in r {
      var j :| 0 <= j < |list| && list[j] == k;
      assert r[if j < i then j else j + 1] == k;
    }
  }

  function AddIndex(b: Board, key: Key, z: Zone, sequence: U8): (i: nat)
    ensures i <= |List(b, z)|
  {
    match z.kind
    case Deck => Min(sequence, |List(b, z)|)
    case Extra => ExtraIndex(b, z.player, FaceupPendulumKey(b.cards, key))
    case _ => |List(b, z)|
  }

  lemma AddedAt(b: Board, key: Key, z: Zone, sequence: U8)
    ensures AddedList(b, key, z, sequence) == InsertAt(List(b, z), AddIndex(b, key, z, sequence), key)
  {
    assert List(b, z)[..|List(b, z)|] + [key] + List(b, z)[|List(b, z)|..] == List(b, z) + [key];
  }

  lemma AddedTwice(b: Board, key: Key, z: Zone, sequence: U8)
    requires key in List(b, z)
    ensures !Distinct(AddedList(b, key, z, sequence))
  {
    var list, i := List(b, z), AddIndex(b, key, z, sequence);
    AddedAt(b, key, z, sequence);
    var r := InsertAt(list, i, key);
    var j :| 0 <= j < |list| && list[j] == key;
    assert r[i] == key && r[if j < i then j else j + 1] == key;
    if j < i { assert r[j] == r[i]; } else { assert r[i] == r[j + 1]; }
  }
}
