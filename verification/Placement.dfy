/**
The invariant of the duel field, and the steps from which every message is built:
taking cards out of a zone, putting cards into one, moving materials, creating
and destroying cards.

Between two such steps some live cards lie in no zone and under no host. They are
the loose cards, the set `loose` of the invariant; between messages it is empty.
*/
module Placement {
  import opened Options
  import opened Board

  // ---------- the invariant ----------

  /** The back-pointers of `c` name index `i` of zone `z`. */
  ghost predicate At(c: Card, z: Zone, i: nat) {
    c.overlayTarget.None? && c.controller == Some(z.player) && c.location == Location(In(z.kind), false) && c.sequence == i
  }

  /** Every key stored in a zone is live, not loose, and points back to where it is stored. */
  ghost predicate CellsPointBack(cards: Arena, zones: Zones, loose: set<Key>) {
    forall z: Zone, i: nat :: CellIn(zones, z, i).Some? ==>
      var k := CellIn(zones, z, i).value; k in cards && k !in loose && At(cards[k], z, i)
  }

  /** The zones hold `key` where its back-pointers say. */
  ghost predicate Housed(cards: Arena, zones: Zones, key: Key)
    requires key in cards
  {
    var c := cards[key];
    c.controller.Some? && c.location.base.In? && !c.location.overlay &&
    CellIn(zones, Zone(c.controller.value, c.location.base.kind), c.sequence) == Some(key)
  }

  ghost predicate AllHoused(cards: Arena, zones: Zones, loose: set<Key>) {
    forall k :: k in cards && k !in loose && cards[k].overlayTarget.None? ==> Housed(cards, zones, k)
  }

  ghost predicate LooseLive(cards: Arena, loose: set<Key>) {
    forall k :: k in loose ==> k in cards && cards[k].overlayTarget.None?
  }

  ghost predicate Cells(cards: Arena, zones: Zones, loose: set<Key>) {
    CellsPointBack(cards, zones, loose) && AllHoused(cards, zones, loose) && LooseLive(cards, loose)
  }

  ghost predicate Distinct(s: seq<Key>) {
    forall i, j :: 0 <= i < j < |s| ==> s[i] != s[j]
  }

  ghost predicate IsMaterial(cards: Arena, key: Key, host: Key) {
    && key in cards
    && cards[key].overlayTarget == Some(host)
    && cards[key].location == OVERLAY
    && cards[key].overlayed == []
    && cards[key].equipTarget.None?
  }

  /** `overlayed` and `overlay_target` are converse; materials carry no materials and no equip target. */
  ghost predicate Overlays(cards: Arena) {
    && (forall h, i :: h in cards && 0 <= i < |cards[h].overlayed| ==> IsMaterial(cards, cards[h].overlayed[i], h))
    && (forall h :: h in cards ==> Distinct(cards[h].overlayed))
    && (forall o :: o in cards && cards[o].overlayTarget.Some? ==>
          var h := cards[o].overlayTarget.value; h in cards && o in cards[h].overlayed)
  }

  /** An equip target is live, no material, and lists the card. */
  ghost predicate Equips(cards: Arena) {
    forall a :: a in cards && cards[a].equipTarget.Some? ==>
      var t := cards[a].equipTarget.value; t in cards && a in cards[t].equipped && cards[t].overlayTarget.None?
  }

  /** `card_target` and `owner_target` are converse. */
  ghost predicate Converse(cards: Arena) {
    forall a, c :: a in cards && c in cards ==> (c in cards[a].cardTarget <==> a in cards[c].ownerTarget)
  }

  ghost predicate TargetsLive(cards: Arena) {
    forall a :: a in cards ==> cards[a].cardTarget <= cards.Keys && cards[a].ownerTarget <= cards.Keys
  }

  ghost predicate Targets(cards: Arena) { Converse(cards) && TargetsLive(cards) }

  ghost predicate Fresh(b: Board) { forall k :: k in b.cards ==> k < b.next }

  ghost predicate Shaped(zones: Zones) {
    forall p: Player :: |SlotsIn(zones, Zone(p, MZone))| == 7 && |SlotsIn(zones, Zone(p, SZone))| == 8
  }

  ghost predicate InvLoose(b: Board, loose: set<Key>) {
    Cells(b.cards, b.zones, loose) && Overlays(b.cards) && Equips(b.cards) && Targets(b.cards) && Fresh(b) && Shaped(b.zones)
  }

  ghost predicate Inv(b: Board) { InvLoose(b, {}) }

  // Two more properties hold only as long as certain messages stay away (see Exactness.dfy).

  /** Every material is numbered by its index under its host. */
  ghost predicate Numbered(cards: Arena) {
    forall h, i :: h in cards && 0 <= i < |cards[h].overlayed| ==>
      cards[h].overlayed[i] in cards && cards[cards[h].overlayed[i]].sequence == i
  }

  /** Every card listed as equipped is live and equipped to the card that lists it. */
  ghost predicate EquipsExact(cards: Arena) {
    forall t, a :: t in cards && a in cards[t].equipped ==> a in cards && cards[a].equipTarget == Some(t)
  }

  ghost predicate StaysNumbered(c: Arena, d: Arena) { Numbered(c) ==> Numbered(d) }

  ghost predicate StaysEquipped(c: Arena, d: Arena) { EquipsExact(c) ==> EquipsExact(d) }

  ghost predicate StaysExact(c: Arena, d: Arena) { StaysNumbered(c, d) && StaysEquipped(c, d) }

  // ---------- what an arena change leaves alone ----------

  ghost predicate SamePlaces(c: Arena, d: Arena) {
    && c.Keys == d.Keys
    && forall k :: k in c ==> c[k].controller == d[k].controller && c[k].location == d[k].location && c[k].sequence == d[k].sequence
  }

  ghost predicate SameOverlays(c: Arena, d: Arena) {
    c.Keys == d.Keys && forall k :: k in c ==> c[k].overlayTarget == d[k].overlayTarget && c[k].overlayed == d[k].overlayed
  }

  ghost predicate SameEquips(c: Arena, d: Arena) {
    c.Keys == d.Keys && forall k :: k in c ==> c[k].equipTarget == d[k].equipTarget && c[k].equipped == d[k].equipped
  }

  ghost predicate SameTargets(c: Arena, d: Arena) {
    c.Keys == d.Keys && forall k :: k in c ==> c[k].cardTarget == d[k].cardTarget && c[k].ownerTarget == d[k].ownerTarget
  }

  /** Only codes, types and positions differ. */
  ghost predicate SameLinks(c: Arena, d: Arena) {
    SamePlaces(c, d) && SameOverlays(c, d) && SameEquips(c, d) && SameTargets(c, d)
  }

  /** Places differ at most on the cards of `moved`. */
  ghost predicate SamePlacesBut(c: Arena, d: Arena, moved: set<Key>) {
    c.Keys == d.Keys &&
    forall k :: k in c && k !in moved ==>
      c[k].controller == d[k].controller && c[k].location == d[k].location && c[k].sequence == d[k].sequence
  }

  /** No material gains an equip target. */
  ghost predicate NoNewMaterialEquip(c: Arena, d: Arena) {
    c.Keys == d.Keys &&
    forall k :: k in c && c[k].overlayTarget.Some? && c[k].equipTarget.None? ==> d[k].equipTarget.None?
  }

  lemma FrameCode(cards: Arena, key: Key, code: U32)
    ensures SameLinks(cards, SetCode(cards, key, code))
  {
  }

  lemma FrameType(cards: Arena, key: Key, cardType: bv32)
    ensures SameLinks(cards, SetType(cards, key, cardType))
  {
  }

  lemma FramePosition(cards: Arena, key: Key, position: bv8)
    ensures SameLinks(cards, SetPosition(cards, key, position))
  {
  }

  lemma FrameSequence(cards: Arena, key: Key, sequence: U8)
    ensures var r := SetSequence(cards, key, sequence);
      SamePlacesBut(cards, r, {key}) && SameOverlays(cards, r) && SameEquips(cards, r) && SameTargets(cards, r)
  {
  }

  lemma FrameLocation(cards: Arena, key: Key, location: Location)
    ensures var r := SetLocation(cards, key, location);
      SamePlacesBut(cards, r, {key}) && SameOverlays(cards, r) && SameEquips(cards, r) && SameTargets(cards, r)
  {
  }

  lemma FramePlace(cards: Arena, key: Key, p: Player, location: Location, sequence: U8)
    ensures var r := SetPlace(cards, key, p, location, sequence);
      SamePlacesBut(cards, r, {key}) && SameOverlays(cards, r) && SameEquips(cards, r) && SameTargets(cards, r)
  {
  }

  lemma FrameEquipTarget(cards: Arena, key: Key, target: Option<Key>)
    ensures var r := SetEquipTarget(cards, key, target);
      SamePlaces(cards, r) && SameOverlays(cards, r) && SameTargets(cards, r)
  {
  }

  lemma FrameAddEquipped(cards: Arena, target: Key, key: Key)
    ensures var r := AddEquipped(cards, target, key);
      SamePlaces(cards, r) && SameOverlays(cards, r) && SameTargets(cards, r)
  {
  }

  lemma FrameDropEquipped(cards: Arena, target: Option<Key>, key: Key)
    ensures var r := DropEquipped(cards, target, key);
      SamePlaces(cards, r) && SameOverlays(cards, r) && SameTargets(cards, r)
  {
  }

  lemma CellsFrame(c: Arena, zones: Zones, d: Arena, loose: set<Key>)
    requires Cells(c, zones, loose) && SamePlacesBut(c, d, loose) && SameOverlays(c, d)
    ensures Cells(d, zones, loose)
  {
  }

  lemma OverlaysFrame(c: Arena, d: Arena, loose: set<Key>)
    requires Overlays(c) && LooseLive(c, loose) && SamePlacesBut(c, d, loose) && SameOverlays(c, d) && NoNewMaterialEquip(c, d)
    ensures Overlays(d)
  {
  }

  lemma EquipsFrame(c: Arena, d: Arena)
    requires Equips(c) && SameEquips(c, d) && SameOverlays(c, d)
    ensures Equips(d)
  {
  }

  lemma TargetsFrame(c: Arena, d: Arena)
    requires Targets(c) && SameTargets(c, d)
    ensures Targets(d)
  {
  }

  lemma NumberedFrame(c: Arena, d: Arena, loose: set<Key>)
    requires Overlays(c) && LooseLive(c, loose) && SamePlacesBut(c, d, loose) && SameOverlays(c, d)
    ensures StaysNumbered(c, d)
  {
    forall h, i | h in c && 0 <= i < |c[h].overlayed| ensures IsMaterial(c, c[h].overlayed[i], h) { }
  }

  lemma EquipsExactFrame(c: Arena, d: Arena)
    requires SameEquips(c, d)
    ensures StaysEquipped(c, d)
  {
  }

  /** A change of loose places, of equips and of targets keeps the invariant if the latter two are still converse. */
  lemma Rebuild(b: Board, d: Arena, loose: set<Key>)
    requires InvLoose(b, loose) && SamePlacesBut(b.cards, d, loose) && SameOverlays(b.cards, d) && NoNewMaterialEquip(b.cards, d)
    requires Equips(d) && Targets(d)
    ensures InvLoose(b.(cards := d), loose) && StaysNumbered(b.cards, d)
  {
    hide Overlays, Equips, Targets, CellsPointBack, AllHoused, Numbered;
    CellsFrame(b.cards, b.zones, d, loose);
    OverlaysFrame(b.cards, d, loose);
    NumberedFrame(b.cards, d, loose);
  }

  lemma SameLinksKeep(b: Board, cards: Arena, loose: set<Key>)
    requires InvLoose(b, loose) && SameLinks(b.cards, cards)
    ensures InvLoose(b.(cards := cards), loose) && StaysExact(b.cards, cards)
  {
    EquipsExactFrame(b.cards, cards);
    hide Overlays, Equips, Targets, CellsPointBack, AllHoused, Numbered, EquipsExact;
    EquipsFrame(b.cards, cards);
    TargetsFrame(b.cards, cards);
    Rebuild(b, cards, loose);
  }

  /** Loose cards may be given any place. */
  lemma PlacesOfLooseKeep(b: Board, cards: Arena, loose: set<Key>)
    requires InvLoose(b, loose)
    requires SamePlacesBut(b.cards, cards, loose) && SameOverlays(b.cards, cards) && SameEquips(b.cards, cards) && SameTargets(b.cards, cards)
    ensures InvLoose(b.(cards := cards), loose) && StaysExact(b.cards, cards)
  {
    EquipsExactFrame(b.cards, cards);
    hide Overlays, Equips, Targets, CellsPointBack, AllHoused, Numbered, EquipsExact;
    EquipsFrame(b.cards, cards);
    TargetsFrame(b.cards, cards);
    Rebuild(b, cards, loose);
  }

  lemma {:induction false} ResetSequenceFrame(cards: Arena, list: seq<Key>, from: nat)
    requires from <= |list|
    ensures var r := ResetSequence(cards, list, from);
      && r.Keys == cards.Keys
      && forall k :: k in cards ==>
        && r[k] == cards[k].(sequence := r[k].sequence)
        && (k !in list[from..] ==> r[k].sequence == cards[k].sequence)
    decreases |list| - from
  {
    if from < |list| {
      ResetSequenceFrame(SetSequence(cards, list[from], AsU8(from)), list, from + 1);
      assert list[from..] == [list[from]] + list[from + 1..];
    }
  }

  lemma {:induction false} FrameReset(cards: Arena, list: seq<Key>)
    ensures var r := ResetSequence(cards, list, 0);
      SamePlacesBut(cards, r, KeysOf(list)) && SameOverlays(cards, r) && SameEquips(cards, r) && SameTargets(cards, r)
  {
    ResetSequenceFrame(cards, list, 0);
    hide ResetSequence;
    assert list[0..] == list;
  }

  lemma {:induction false} ResetSequenceNumbers(cards: Arena, list: seq<Key>, from: nat)
    requires from <= |list| && Distinct(list)
    ensures forall i :: from <= i < |list| && list[i] in cards ==> ResetSequence(cards, list, from)[list[i]].sequence == AsU8(i)
    decreases |list| - from
  {
    if from < |list| {
      var c := SetSequence(cards, list[from], AsU8(from));
      ResetSequenceNumbers(c, list, from + 1);
      ResetSequenceFrame(c, list, from + 1);
    }
  }

  // ---------- zones ----------

  function KeysOf(s: seq<Key>): set<Key> { set k | k in s }

  lemma PutListCells(zones: Zones, z: Zone, list: seq<Key>)
    requires !IsSlots(z.kind)
    ensures forall y: Zone, i: nat :: y != z ==> CellIn(PutList(zones, z, list), y, i) == CellIn(zones, y, i)
    ensures forall i: nat :: CellIn(PutList(zones, z, list), z, i) == if i < |list| then Some(list[i]) else None
    ensures ListIn(PutList(zones, z, list), z) == list
    ensures Shaped(zones) ==> Shaped(PutList(zones, z, list))
  {
    var r := PutList(zones, z, list);
    forall y: Zone, i: nat | y != z ensures CellIn(r, y, i) == CellIn(zones, y, i) {
      assert ListIn(r, y) == ListIn(zones, y) && SlotsIn(r, y) == SlotsIn(zones, y);
    }
    forall p: Player | Shaped(zones) ensures |SlotsIn(r, Zone(p, MZone))| == 7 && |SlotsIn(r, Zone(p, SZone))| == 8 {
      assert SlotsIn(r, Zone(p, MZone)) == SlotsIn(zones, Zone(p, MZone));
      assert SlotsIn(r, Zone(p, SZone)) == SlotsIn(zones, Zone(p, SZone));
    }
  }

  lemma PutSlotCells(zones: Zones, z: Zone, i: nat, cell: Option<Key>)
    requires IsSlots(z.kind) && i < |SlotsIn(zones, z)|
    ensures forall y: Zone, j: nat :: CellIn(PutSlot(zones, z, i, cell), y, j) == if y == z && j == i then cell else CellIn(zones, y, j)
    ensures Shaped(zones) ==> Shaped(PutSlot(zones, z, i, cell))
  {
    var r := PutSlot(zones, z, i, cell);
    forall y: Zone, j: nat ensures CellIn(r, y, j) == if y == z && j == i then cell else CellIn(zones, y, j) {
      assert ListIn(r, y) == ListIn(zones, y);
      assert y != z ==> SlotsIn(r, y) == SlotsIn(zones, y);
    }
    forall p: Player | Shaped(zones) ensures |SlotsIn(r, Zone(p, MZone))| == 7 && |SlotsIn(r, Zone(p, SZone))| == 8 {
      assert Zone(p, MZone) != z ==> SlotsIn(r, Zone(p, MZone)) == SlotsIn(zones, Zone(p, MZone));
      assert Zone(p, SZone) != z ==> SlotsIn(r, Zone(p, SZone)) == SlotsIn(zones, Zone(p, SZone));
    }
  }

  /** A whole list lifted off the board: its cards become loose. They were distinct and not loose before. */
  lemma TakeList(b: Board, z: Zone, loose: set<Key>)
    requires InvLoose(b, loose) && !IsSlots(z.kind)
    ensures InvLoose(SetList(b, z, []), loose + KeysOf(List(b, z)))
    ensures Distinct(List(b, z)) && KeysOf(List(b, z)) !! loose
    ensures forall i :: 0 <= i < |List(b, z)| ==> List(b, z)[i] in b.cards && At(b.cards[List(b, z)[i]], z, i)
  {
    var list := List(b, z);
    var r := SetList(b, z, []);
    PutListCells(b.zones, z, []);
    forall i | 0 <= i < |list| ensures list[i] in b.cards && list[i] !in loose && At(b.cards[list[i]], z, i) {
      assert CellIn(b.zones, z, i) == Some(list[i]);
    }
    forall y: Zone, i: nat | CellIn(r.zones, y, i).Some?
      ensures var k := CellIn(r.zones, y, i).value; k in r.cards && k !in loose + KeysOf(list) && At(r.cards[k], y, i)
    {
      assert CellIn(r.zones, y, i) == CellIn(b.zones, y, i);
    }
    forall k | k in r.cards && k !in loose + KeysOf(list) && r.cards[k].overlayTarget.None? ensures Housed(r.cards, r.zones, k) {
      assert Housed(b.cards, b.zones, k);
    }
  }

  /** A list of loose cards numbered for an empty zone is laid into it. */
  lemma LayList(b: Board, z: Zone, list: seq<Key>, loose: set<Key>)
    requires InvLoose(b, loose) && !IsSlots(z.kind) && List(b, z) == []
    requires Distinct(list) && KeysOf(list) <= loose
    requires forall i :: 0 <= i < |list| ==> list[i] in b.cards && At(b.cards[list[i]], z, i)
    ensures InvLoose(SetList(b, z, list), loose - KeysOf(list))
  {
    var r := SetList(b, z, list);
    PutListCells(b.zones, z, list);
    forall y: Zone, i: nat | CellIn(r.zones, y, i).Some?
      ensures var k := CellIn(r.zones, y, i).value; k in r.cards && k !in loose - KeysOf(list) && At(r.cards[k], y, i)
    {
      if y == z { assert list[i] in KeysOf(list); } else { assert CellIn(r.zones, y, i) == CellIn(b.zones, y, i); }
    }
    forall k | k in r.cards && k !in loose - KeysOf(list) && r.cards[k].overlayTarget.None? ensures Housed(r.cards, r.zones, k) {
      if k in list {
        var i :| 0 <= i < |list| && list[i] == k;
        assert CellIn(r.zones, z, i) == Some(k);
      } else {
        assert Housed(b.cards, b.zones, k);
        var c := b.cards[k];
        var y := Zone(c.controller.value, c.location.base.kind);
        assert CellIn(b.zones, z, c.sequence).None?;
        assert y != z;
      }
    }
  }

  lemma TakeSlot(b: Board, z: Zone, i: nat, key: Key, loose: set<Key>)
    requires InvLoose(b, loose) && IsSlots(z.kind) && Cell(b, z, i) == Some(key)
    ensures InvLoose(SetSlot(b, z, i, None), loose + {key})
    ensures key !in loose && key in b.cards && At(b.cards[key], z, i)
  {
    var r := SetSlot(b, z, i, None);
    PutSlotCells(b.zones, z, i, None);
    forall y: Zone, j: nat | CellIn(r.zones, y, j).Some?
      ensures var k := CellIn(r.zones, y, j).value; k in r.cards && k !in loose + {key} && At(r.cards[k], y, j)
    {
      assert CellIn(r.zones, y, j) == CellIn(b.zones, y, j);
    }
    forall k | k in r.cards && k !in loose + {key} && r.cards[k].overlayTarget.None? ensures Housed(r.cards, r.zones, k) {
      assert Housed(b.cards, b.zones, k);
    }
  }

  lemma FillSlot(b: Board, z: Zone, i: nat, key: Key, loose: set<Key>)
    requires InvLoose(b, loose) && IsSlots(z.kind) && i < |SlotsIn(b.zones, z)| && Cell(b, z, i).None?
    requires key in loose && At(b.cards[key], z, i)
    ensures InvLoose(SetSlot(b, z, i, Some(key)), loose - {key})
  {
    var r := SetSlot(b, z, i, Some(key));
    PutSlotCells(b.zones, z, i, Some(key));
    forall y: Zone, j: nat | CellIn(r.zones, y, j).Some?
      ensures var k := CellIn(r.zones, y, j).value; k in r.cards && k !in loose - {key} && At(r.cards[k], y, j)
    {
      if !(y == z && j == i) { assert CellIn(r.zones, y, j) == CellIn(b.zones, y, j); }
    }
    forall k | k in r.cards && k !in loose - {key} && r.cards[k].overlayTarget.None? ensures Housed(r.cards, r.zones, k) {
      if k != key { assert Housed(b.cards, b.zones, k); } else { assert CellIn(r.zones, z, i) == Some(key); }
    }
  }

  // ---------- target relation ----------

  /** `card` without any mention of the cards in `gone` in its target sets. */
  function Unaimed(card: Card, gone: set<Key>): Card {
    card.(cardTarget := card.cardTarget - gone, ownerTarget := card.ownerTarget - gone)
  }

  lemma ClearTargetsEffect(cards: Arena, key: Key)
    requires Converse(cards) && key in cards
    ensures var r := ClearTargets(cards, key);
      && r.Keys == cards.Keys
      && r[key] == cards[key].(cardTarget := {}, ownerTarget := {})
      && forall x :: x in cards && x != key ==> r[x] == Unaimed(cards[x], {key})
  {
    var r := ClearTargets(cards, key);
    forall x | x in cards && x != key ensures r[x] == Unaimed(cards[x], {key}) {
      assert x !in cards[key].cardTarget ==> cards[x].ownerTarget - {key} == cards[x].ownerTarget;
      assert x !in cards[key].ownerTarget ==> cards[x].cardTarget - {key} == cards[x].cardTarget;
    }
  }

  lemma FrameClearTargets(cards: Arena, key: Key)
    requires Targets(cards)
    ensures var r := ClearTargets(cards, key);
      SamePlaces(cards, r) && SameOverlays(cards, r) && SameEquips(cards, r)
  {
    if key in cards {
      ClearTargetsEffect(cards, key);
      hide ClearTargets, Converse, TargetsLive;
    }
  }

  lemma ClearTargetsKeepsTargets(cards: Arena, key: Key)
    requires Targets(cards)
    ensures Targets(ClearTargets(cards, key))
  {
    if key in cards {
      ClearTargetsEffect(cards, key);
      hide ClearTargets;
    }
  }

  lemma ClearTargetsKeep(b: Board, key: Key, loose: set<Key>)
    requires InvLoose(b, loose)
    ensures InvLoose(b.(cards := ClearTargets(b.cards, key)), loose)
    ensures SamePlaces(b.cards, ClearTargets(b.cards, key)) && SameOverlays(b.cards, ClearTargets(b.cards, key))
    ensures SameEquips(b.cards, ClearTargets(b.cards, key)) && StaysExact(b.cards, ClearTargets(b.cards, key))
  {
    hide ClearTargets, Overlays, Equips, Targets, Cells, Numbered, EquipsExact;
    FrameClearTargets(b.cards, key);
    EquipsExactFrame(b.cards, ClearTargets(b.cards, key));
    ClearTargetsKeepsTargets(b.cards, key);
    EquipsFrame(b.cards, ClearTargets(b.cards, key));
    Rebuild(b, ClearTargets(b.cards, key), loose);
  }

  lemma {:induction false} DropMaterialsEffect(cards: Arena, materials: seq<Key>)
    requires Converse(cards) && Distinct(materials) && KeysOf(materials) <= cards.Keys
    ensures var r := DropMaterials(cards, materials);
      && r.Keys == cards.Keys - KeysOf(materials)
      && forall x :: x in r ==> r[x] == Unaimed(cards[x], KeysOf(materials))
    decreases materials
  {
    if materials == [] {
      forall x | x in cards ensures cards[x] == Unaimed(cards[x], {}) {
        assert cards[x].cardTarget - {} == cards[x].cardTarget && cards[x].ownerTarget - {} == cards[x].ownerTarget;
      }
    } else {
      var o, rest := materials[0], materials[1..];
      assert o in KeysOf(materials);
      var c := ClearTargets(cards, o) - {o};
      ClearTargetsEffect(cards, o);
      assert KeysOf(materials) == {o} + KeysOf(rest);
      assert o !in rest;
      DropMaterialsEffect(c, rest);
      var r := DropMaterials(cards, materials);
      forall x | x in r ensures r[x] == Unaimed(cards[x], KeysOf(materials)) {
        assert c[x] == Unaimed(cards[x], {o});
        assert cards[x].cardTarget - {o} - KeysOf(rest) == cards[x].cardTarget - KeysOf(materials);
        assert cards[x].ownerTarget - {o} - KeysOf(rest) == cards[x].ownerTarget - KeysOf(materials);
      }
    }
  }

  lemma {:induction false} WithoutMembers(s: seq<Key>, key: Key)
    ensures forall k :: k in Without(s, key) <==> k in s && k != key
    ensures Distinct(s) ==> Distinct(Without(s, key))
  {
    if s != [] {
      WithoutMembers(s[1..], key);
      assert forall k :: k in s <==> k == s[0] || k in s[1..];
      if Distinct(s) { assert s[0] !in s[1..]; }
    }
  }

  lemma {:induction false} WithoutOne(s: seq<Key>, i: nat)
    requires Distinct(s) && i < |s|
    ensures Without(s, s[i]) == s[..i] + s[i + 1..]
    decreases s
  {
    var rest := s[1..];
    if i == 0 {
      assert s[0] !in rest;
      WithoutNone(rest, s[0]);
    } else {
      WithoutOne(rest, i - 1);
      assert rest[i - 1] == s[i] && s[0] != s[i];
      assert [s[0]] + (rest[..i - 1] + rest[i..]) == s[..i] + s[i + 1..];
    }
  }

  lemma {:induction false} WithoutNone(s: seq<Key>, key: Key)
    requires key !in s
    ensures Without(s, key) == s
    decreases s
  {
    if s != [] { WithoutNone(s[1..], key); }
  }

  // ---------- creating and destroying ----------

  lemma CreateCardKeeps(b: Board, loose: set<Key>)
    requires InvLoose(b, loose)
    ensures InvLoose(CreateCard(b), loose + {b.next}) && b.next !in b.cards && b.next !in loose
    ensures StaysExact(b.cards, CreateCard(b).cards)
  {
    var r := CreateCard(b).cards;
    assert StaysExact(b.cards, r) by { hide InvLoose; }
    hide Numbered, EquipsExact;
    assert b.next !in b.cards;
    assert Overlays(r) by { hide Equips, Targets, Cells; CreateKeepsOverlays(b); }
    assert Equips(r) && Targets(r) by { hide Overlays, Cells; }
    assert Cells(r, b.zones, loose + {b.next}) by { hide Overlays, Equips, Targets; }
    hide Overlays, Equips, Targets, Cells;
  }

  lemma CreateKeepsOverlays(b: Board)
    requires Overlays(b.cards) && Fresh(b)
    ensures Overlays(CreateCard(b).cards)
  {
    var r := CreateCard(b).cards;
    forall h, i | h in r && 0 <= i < |r[h].overlayed| ensures IsMaterial(r, r[h].overlayed[i], h) {
      assert IsMaterial(b.cards, b.cards[h].overlayed[i], h);
    }
  }

  /** What is left of `cards[x]` once `key` and its materials are gone. */
  function Survivor(cards: Arena, key: Key, x: Key): Card
    requires key in cards && x in cards
  {
    var card := cards[key];
    Unaimed(cards[x], {key} + KeysOf(card.overlayed)).(
      equipTarget := if x in card.equipped then None else cards[x].equipTarget,
      equipped := if card.equipTarget == Some(x) then cards[x].equipped - {key} else cards[x].equipped,
      overlayed := if card.overlayTarget == Some(x) then Without(cards[x].overlayed, key) else cards[x].overlayed)
  }

  /** The arena after the equip steps of `Destroy`. */
  function Unequipped(cards: Arena, key: Key): Arena
    requires key in cards
  {
    DropEquipped(ReleaseAll(cards - {key}, cards[key].equipped), cards[key].equipTarget, key)
  }

  lemma UnequippedEffect(cards: Arena, key: Key)
    requires key in cards
    ensures var r := Unequipped(cards, key);
      && r.Keys == cards.Keys - {key}
      && forall x :: x in r ==> r[x] == cards[x].(
           equipTarget := if x in cards[key].equipped then None else cards[x].equipTarget,
           equipped := if cards[key].equipTarget == Some(x) then cards[x].equipped - {key} else cards[x].equipped)
  {
  }

  lemma {:induction false} DropOverlayedEffect(cards: Arena, host: Option<Key>, key: Key)
    ensures var r := DropOverlayed(cards, host, key);
      && r.Keys == cards.Keys
      && forall x :: x in r ==>
           r[x] == cards[x].(overlayed := if host == Some(x) then Without(cards[x].overlayed, key) else cards[x].overlayed)
  {
  }

  lemma ForgetTargetsEffect(cards: Arena, before: Arena, key: Key, gone: set<Key>)
    requires Converse(before) && key in before
    requires forall x :: x in cards ==> x in before
    requires forall x :: x in cards ==>
      && cards[x].cardTarget == before[x].cardTarget - gone
      && cards[x].ownerTarget == before[x].ownerTarget - gone
    ensures var r := ForgetTargets(cards, before[key], key);
      && r.Keys == cards.Keys
      && forall x :: x in r ==> r[x] == cards[x].(
           cardTarget := before[x].cardTarget - ({key} + gone), ownerTarget := before[x].ownerTarget - ({key} + gone))
  {
    var r := ForgetTargets(cards, before[key], key);
    forall x | x in cards
      ensures r[x].ownerTarget == before[x].ownerTarget - ({key} + gone)
      ensures r[x].cardTarget == before[x].cardTarget - ({key} + gone)
    {
      SplitRemoval(before[x].ownerTarget, gone, key);
      SplitRemoval(before[x].cardTarget, gone, key);
    }
  }

  lemma SplitRemoval(s: set<Key>, gone: set<Key>, key: Key)
    ensures s - gone - {key} == s - ({key} + gone)
    ensures key !in s ==> s - gone == s - ({key} + gone)
  {
  }

  /** Destroying a card removes exactly it and its materials, and every mention of them but stale equip entries. */
  lemma DestroyEffect(cards: Arena, key: Key)
    requires Converse(cards) && Overlays(cards) && key in cards
    ensures var r := Destroy(cards, key);
      && r.Keys == cards.Keys - {key} - KeysOf(cards[key].overlayed)
      && forall x :: x in r ==> r[x] == Survivor(cards, key, x)
  {
    var card := cards[key];
    var ms := card.overlayed;
    assert Distinct(ms);
    forall k | k in KeysOf(ms) ensures k in cards && k != key {
      assert IsMaterial(cards, k, key);
    }
    var c2 := Unequipped(cards, key);
    var c3 := DropMaterials(c2, ms);
    var c4 := DropOverlayed(c3, card.overlayTarget, key);
    assert Destroy(cards, key) == ForgetTargets(c4, card, key);
    UnequippedEffect(cards, key);
    hide Destroy, Unequipped, ForgetTargets, DropMaterials, DropOverlayed, Overlays;
    assert Converse(c2);
    DropMaterialsEffect(c2, ms);
    DropOverlayedEffect(c3, card.overlayTarget, key);
    ForgetTargetsEffect(c4, cards, key, KeysOf(ms));
  }

  /** A loose card, or a material wherever it is, can be destroyed. */
  lemma DestroyKeeps(b: Board, key: Key, loose: set<Key>)
    requires InvLoose(b, loose) && key in b.cards
    requires key in loose || b.cards[key].overlayTarget.Some?
    ensures InvLoose(b.(cards := Destroy(b.cards, key)), loose - {key})
    ensures StaysEquipped(b.cards, Destroy(b.cards, key))
    ensures b.cards[key].overlayTarget.None? ==> StaysNumbered(b.cards, Destroy(b.cards, key))
  {
    var cards := b.cards;
    var r := Destroy(cards, key);
    hide Destroy, Numbered, EquipsExact;
    DestroyEffect(cards, key);
    assert StaysEquipped(cards, r) && (cards[key].overlayTarget.None? ==> StaysNumbered(cards, r)) by {
      hide Overlays, Equips, Targets, Cells;
      if EquipsExact(cards) { DestroyStaysEquipped(cards, key); }
      if Numbered(cards) && cards[key].overlayTarget.None? { DestroyStaysNumbered(cards, key); }
    }
    assert Overlays(r) && Equips(r) && Targets(r) && Cells(r, b.zones, loose - {key}) by {
      hide Overlays, Equips, Targets, Cells;
      DestroyKeepsOverlays(cards, key);
      DestroyKeepsEquips(cards, key);
      DestroyKeepsTargets(cards, key);
      DestroyKeepsCells(b, key, loose);
    }
    hide Overlays, Equips, Targets, Cells;
  }

  lemma DestroyStaysEquipped(cards: Arena, key: Key)
    requires Converse(cards) && Overlays(cards) && key in cards && EquipsExact(cards)
    ensures EquipsExact(Destroy(cards, key))
  {
    var r := Destroy(cards, key);
    DestroyEffect(cards, key);
    MaterialsOf(cards, key);
    hide Destroy, Converse, Overlays, KeysOf;
    forall x, k | x in r && k in r[x].equipped ensures k in r && r[k].equipTarget == Some(x) {
      assert k in cards[x].equipped && cards[k].equipTarget == Some(x);
      assert k in KeysOf(cards[key].overlayed) ==> IsMaterial(cards, k, key);
    }
  }

  lemma MaterialsOf(cards: Arena, host: Key)
    requires Overlays(cards) && host in cards
    ensures forall k :: k in KeysOf(cards[host].overlayed) ==> IsMaterial(cards, k, host)
  {
  }

  lemma DestroyStaysNumbered(cards: Arena, key: Key)
    requires Converse(cards) && Overlays(cards) && key in cards && Numbered(cards) && cards[key].overlayTarget.None?
    ensures Numbered(Destroy(cards, key))
  {
    var r := Destroy(cards, key);
    DestroyEffect(cards, key);
    hide Destroy, Converse;
    forall h, i | h in r && 0 <= i < |r[h].overlayed| ensures r[h].overlayed[i] in r && r[r[h].overlayed[i]].sequence == i {
      var o := cards[h].overlayed[i];
      assert IsMaterial(cards, o, h);
      assert o in KeysOf(cards[key].overlayed) ==> IsMaterial(cards, o, key);
    }
  }

  lemma DestroyKeepsCells(b: Board, key: Key, loose: set<Key>)
    requires Cells(b.cards, b.zones, loose) && Overlays(b.cards) && Converse(b.cards) && key in b.cards
    requires key in loose || b.cards[key].overlayTarget.Some?
    ensures Cells(Destroy(b.cards, key), b.zones, loose - {key})
  {
    DestroyFrame(b.cards, key);
    hide Destroy, Overlays, Converse;
  }

  lemma DestroyFrame(cards: Arena, key: Key)
    requires Overlays(cards) && Converse(cards) && key in cards
    ensures var r := Destroy(cards, key);
      && r.Keys <= cards.Keys - {key}
      && (forall x :: x in cards && cards[x].overlayTarget.None? && x != key ==> x in r)
      && forall x :: x in r ==>
        && r[x].overlayTarget == cards[x].overlayTarget
        && r[x].controller == cards[x].controller
        && r[x].location == cards[x].location
        && r[x].sequence == cards[x].sequence
  {
    DestroyEffect(cards, key);
    hide Destroy, Converse;
    forall x | x in cards && cards[x].overlayTarget.None? && x != key ensures x in Destroy(cards, key) {
      assert x in KeysOf(cards[key].overlayed) ==> IsMaterial(cards, x, key);
    }
    hide Overlays;
  }

  lemma DestroyKeepsOverlays(cards: Arena, key: Key)
    requires Converse(cards) && Overlays(cards) && key in cards
    ensures Overlays(Destroy(cards, key))
  {
    var r := Destroy(cards, key);
    DestroyEffect(cards, key);
    hide Destroy, Converse;
    forall h | h in r ensures Distinct(r[h].overlayed) { WithoutMembers(cards[h].overlayed, key); }
    forall h, i | h in r && 0 <= i < |r[h].overlayed| ensures IsMaterial(r, r[h].overlayed[i], h) {
      DestroySparesMaterial(cards, key, h, i);
    }
    forall o | o in r && r[o].overlayTarget.Some?
      ensures var h := r[o].overlayTarget.value; h in r && o in r[h].overlayed
    {
      var h := cards[o].overlayTarget.value;
      WithoutMembers(cards[h].overlayed, key);
      assert h in KeysOf(cards[key].overlayed) ==> IsMaterial(cards, h, key);
    }
  }

  lemma DestroySparesMaterial(cards: Arena, key: Key, h: Key, i: nat)
    requires Converse(cards) && Overlays(cards) && key in cards
    requires h in Destroy(cards, key) && i < |Destroy(cards, key)[h].overlayed|
    ensures IsMaterial(Destroy(cards, key), Destroy(cards, key)[h].overlayed[i], h)
  {
    DestroyEffect(cards, key);
    var r := Destroy(cards, key);
    hide Destroy, Converse;
    WithoutMembers(cards[h].overlayed, key);
    var o := r[h].overlayed[i];
    assert o in r[h].overlayed;
    assert o in cards[h].overlayed;
    assert IsMaterial(cards, o, h);
    assert o in KeysOf(cards[key].overlayed) ==> IsMaterial(cards, o, key);
  }

  lemma DestroyKeepsEquips(cards: Arena, key: Key)
    requires Converse(cards) && Overlays(cards) && Equips(cards) && key in cards
    ensures Equips(Destroy(cards, key))
  {
    var r := Destroy(cards, key);
    DestroyEffect(cards, key);
    hide Destroy;
    forall a | a in r && r[a].equipTarget.Some?
      ensures var t := r[a].equipTarget.value; t in r && a in r[t].equipped && r[t].overlayTarget.None?
    {
      var t := cards[a].equipTarget.value;
      assert t in KeysOf(cards[key].overlayed) ==> IsMaterial(cards, t, key);
    }
  }

  lemma DestroyKeepsTargets(cards: Arena, key: Key)
    requires Targets(cards) && Overlays(cards) && key in cards
    ensures Targets(Destroy(cards, key))
  {
    DestroyEffect(cards, key);
    hide Destroy, Overlays;
  }

  /** A new material goes under a card that is none. */
  lemma CreateMaterialKeeps(b: Board, host: Key, p: Option<Player>, loose: set<Key>)
    requires InvLoose(b, loose) && host in b.cards && b.cards[host].overlayTarget.None?
    ensures InvLoose(CreateMaterial(b, host, p), loose)
    ensures StaysEquipped(b.cards, CreateMaterial(b, host, p).cards)
    ensures |b.cards[host].overlayed| < 0x100 ==> StaysNumbered(b.cards, CreateMaterial(b, host, p).cards)
  {
    CreateMaterialEffect(b, host, p);
    CreateMaterialOverlays(b, host, p);
    CreateMaterialLinks(b, host, p);
    CreateMaterialCells(b, host, p, loose);
    CreateMaterialExact(b, host, p);
    hide CreateMaterial, Overlays, Equips, Targets, Cells, Numbered, EquipsExact;
  }

  lemma CreateMaterialLinks(b: Board, host: Key, p: Option<Player>)
    requires Fresh(b) && Equips(b.cards) && Targets(b.cards) && host in b.cards
    ensures Equips(CreateMaterial(b, host, p).cards) && Targets(CreateMaterial(b, host, p).cards)
  {
    CreateMaterialEffect(b, host, p);
    hide CreateMaterial;
  }

  lemma CreateMaterialCells(b: Board, host: Key, p: Option<Player>, loose: set<Key>)
    requires Fresh(b) && Cells(b.cards, b.zones, loose) && host in b.cards
    ensures Cells(CreateMaterial(b, host, p).cards, b.zones, loose)
  {
    CreateMaterialEffect(b, host, p);
    hide CreateMaterial;
  }

  lemma CreateMaterialExact(b: Board, host: Key, p: Option<Player>)
    requires Fresh(b) && host in b.cards
    ensures StaysEquipped(b.cards, CreateMaterial(b, host, p).cards)
    ensures |b.cards[host].overlayed| < 0x100 ==> StaysNumbered(b.cards, CreateMaterial(b, host, p).cards)
  {
    CreateMaterialEffect(b, host, p);
    hide CreateMaterial;
  }

  lemma CreateMaterialEffect(b: Board, host: Key, p: Option<Player>)
    requires Fresh(b) && host in b.cards
    ensures var r := CreateMaterial(b, host, p);
      && r == b.(cards := r.cards, next := b.next + 1)
      && r.cards.Keys == b.cards.Keys + {b.next} && b.next !in b.cards
      && r.cards[host] == b.cards[host].(overlayed := b.cards[host].overlayed + [b.next])
      && (forall x :: x in b.cards && x != host ==> r.cards[x] == b.cards[x])
      && r.cards[b.next] == BLANK.(overlayTarget := Some(host), location := OVERLAY,
           sequence := AsU8(|b.cards[host].overlayed|), controller := p)
  {
  }

  lemma CreateMaterialOverlays(b: Board, host: Key, p: Option<Player>)
    requires Overlays(b.cards) && Fresh(b) && host in b.cards && b.cards[host].overlayTarget.None?
    ensures Overlays(CreateMaterial(b, host, p).cards)
  {
    var r := CreateMaterial(b, host, p).cards;
    CreateMaterialEffect(b, host, p);
    hide CreateMaterial;
    forall h, i | h in r && 0 <= i < |r[h].overlayed| ensures IsMaterial(r, r[h].overlayed[i], h) {
      if h in b.cards && i < |b.cards[h].overlayed| { assert IsMaterial(b.cards, b.cards[h].overlayed[i], h); }
    }
    forall h | h in r ensures Distinct(r[h].overlayed) {
      forall k | k in b.cards[host].overlayed ensures k != b.next { assert IsMaterial(b.cards, k, host); }
    }
  }

  function Kept(cards: Arena, host: Key, kept: seq<Key>): Arena
    requires host in cards
  {
    cards[host := cards[host].(overlayed := kept)]
  }

  ghost predicate SplitMaterials(cards: Arena, host: Key, kept: seq<Key>, dropped: seq<Key>) {
    host in cards && cards[host].overlayed == kept + dropped
  }

  /** The last materials of a host are destroyed together, as a query that names fewer of them does. */
  lemma {:induction false} DropMaterialsKeeps(b: Board, host: Key, kept: seq<Key>, dropped: seq<Key>, loose: set<Key>)
    requires InvLoose(b, loose) && SplitMaterials(b.cards, host, kept, dropped)
    ensures InvLoose(b.(cards := DropMaterials(Kept(b.cards, host, kept), dropped)), loose)
    ensures StaysExact(b.cards, DropMaterials(Kept(b.cards, host, kept), dropped))
  {
    hide Numbered, EquipsExact, Overlays, Equips, Converse, TargetsLive, CellsPointBack, AllHoused, DropMaterials, Kept;
    KeptEffect(b.cards, host, kept, dropped);
    KeptOverlays(b.cards, host, kept, dropped);
    KeptLinks(b.cards, host, kept, dropped);
    KeptCells(b, host, kept, dropped, loose);
    KeptExact(b.cards, host, kept, dropped);
  }

  lemma {:induction false} KeptExact(cards: Arena, host: Key, kept: seq<Key>, dropped: seq<Key>)
    requires Overlays(cards) && Converse(cards) && SplitMaterials(cards, host, kept, dropped)
    ensures StaysExact(cards, DropMaterials(Kept(cards, host, kept), dropped))
  {
    hide DropMaterials, Kept, Converse, Overlays, Numbered, EquipsExact, SplitMaterials;
    if Numbered(cards) { KeptNumbered(cards, host, kept, dropped); }
    if EquipsExact(cards) { KeptEquips(cards, host, kept, dropped); }
  }

  lemma {:induction false} KeptNumbered(cards: Arena, host: Key, kept: seq<Key>, dropped: seq<Key>)
    requires Overlays(cards) && Converse(cards) && SplitMaterials(cards, host, kept, dropped) && Numbered(cards)
    ensures Numbered(DropMaterials(Kept(cards, host, kept), dropped))
  {
    var r := DropMaterials(Kept(cards, host, kept), dropped);
    KeptEffect(cards, host, kept, dropped);
    SplitFacts(cards, host, kept, dropped);
    hide DropMaterials, Kept, Converse;
    forall h, i | h in r && 0 <= i < |r[h].overlayed| ensures r[h].overlayed[i] in r && r[r[h].overlayed[i]].sequence == i {
      assert cards[h].overlayed[i] == r[h].overlayed[i];
      assert IsMaterial(cards, cards[h].overlayed[i], h);
      if h == host { assert kept[i] in kept; }
    }
  }

  lemma {:induction false} KeptEquips(cards: Arena, host: Key, kept: seq<Key>, dropped: seq<Key>)
    requires Overlays(cards) && Converse(cards) && SplitMaterials(cards, host, kept, dropped) && EquipsExact(cards)
    ensures EquipsExact(DropMaterials(Kept(cards, host, kept), dropped))
  {
    KeptEffect(cards, host, kept, dropped);
    SplitFacts(cards, host, kept, dropped);
    hide DropMaterials, Kept, Converse, Distinct;
  }

  lemma SplitFacts(cards: Arena, host: Key, kept: seq<Key>, dropped: seq<Key>)
    requires Overlays(cards) && SplitMaterials(cards, host, kept, dropped)
    ensures Distinct(kept) && Distinct(dropped)
    ensures forall k :: k in cards[host].overlayed <==> k in kept || k in dropped
    ensures forall k :: k in kept ==> IsMaterial(cards, k, host) && k !in dropped
    ensures forall k :: k in dropped ==> IsMaterial(cards, k, host) && k != host
  {
    var all := cards[host].overlayed;
    assert forall j :: 0 <= j < |all| ==> IsMaterial(cards, all[j], host) && all[j] != host;
    assert Distinct(all);
    hide Overlays;
    forall j | 0 <= j < |kept| ensures kept[j] == all[j] { }
    forall j | 0 <= j < |dropped| ensures dropped[j] == all[|kept| + j] { }
  }

  lemma {:induction false} KeptEffect(cards: Arena, host: Key, kept: seq<Key>, dropped: seq<Key>)
    requires Overlays(cards) && Converse(cards) && SplitMaterials(cards, host, kept, dropped)
    ensures var r := DropMaterials(Kept(cards, host, kept), dropped);
      && r.Keys == cards.Keys - KeysOf(dropped) && host in r
      && r[host] == Unaimed(cards[host].(overlayed := kept), KeysOf(dropped))
      && (forall x :: x in r && x != host ==> r[x] == Unaimed(cards[x], KeysOf(dropped)))
  {
    SplitFacts(cards, host, kept, dropped);
    hide Overlays;
    assert forall k :: k in KeysOf(dropped) ==> IsMaterial(cards, k, host);
    DropMaterialsEffect(Kept(cards, host, kept), dropped);
  }

  lemma {:induction false} KeptLinks(cards: Arena, host: Key, kept: seq<Key>, dropped: seq<Key>)
    requires Overlays(cards) && Equips(cards) && Targets(cards) && SplitMaterials(cards, host, kept, dropped)
    ensures var r := DropMaterials(Kept(cards, host, kept), dropped); Equips(r) && Targets(r)
  {
    KeptEffect(cards, host, kept, dropped);
    SplitFacts(cards, host, kept, dropped);
    hide DropMaterials, Kept, Overlays, SplitMaterials;
  }

  lemma {:induction false} KeptCells(b: Board, host: Key, kept: seq<Key>, dropped: seq<Key>, loose: set<Key>)
    requires Cells(b.cards, b.zones, loose) && Overlays(b.cards) && Converse(b.cards)
    requires SplitMaterials(b.cards, host, kept, dropped)
    ensures Cells(DropMaterials(Kept(b.cards, host, kept), dropped), b.zones, loose)
  {
    KeptEffect(b.cards, host, kept, dropped);
    SplitFacts(b.cards, host, kept, dropped);
    hide DropMaterials, Kept, Overlays, Converse, SplitMaterials;
  }

  lemma {:induction false} KeptOverlays(cards: Arena, host: Key, kept: seq<Key>, dropped: seq<Key>)
    requires Overlays(cards) && Converse(cards) && SplitMaterials(cards, host, kept, dropped)
    ensures Overlays(DropMaterials(Kept(cards, host, kept), dropped))
  {
    var r := DropMaterials(Kept(cards, host, kept), dropped);
    KeptEffect(cards, host, kept, dropped);
    SplitFacts(cards, host, kept, dropped);
    hide DropMaterials, Kept, Converse, SplitMaterials;
    forall h, i | h in r && 0 <= i < |r[h].overlayed| ensures IsMaterial(r, r[h].overlayed[i], h) {
      if h == host { assert kept[i] in kept; } else { assert IsMaterial(cards, cards[h].overlayed[i], h); }
    }
    forall o | o in r && r[o].overlayTarget.Some?
      ensures var h := r[o].overlayTarget.value; h in r && o in r[h].overlayed
    {
      var h := cards[o].overlayTarget.value;
      assert o in cards[h].overlayed;
    }
  }

  // ---------- equips and targets ----------

  lemma ReleaseEquipKeeps(b: Board, key: Key, loose: set<Key>)
    requires InvLoose(b, loose)
    ensures InvLoose(b.(cards := ReleaseEquip(b.cards, key)), loose)
    ensures key in b.cards ==> ReleaseEquip(b.cards, key)[key].equipTarget.None?
    ensures SamePlaces(b.cards, ReleaseEquip(b.cards, key)) && SameOverlays(b.cards, ReleaseEquip(b.cards, key))
    ensures StaysExact(b.cards, ReleaseEquip(b.cards, key))
  {
    var r := ReleaseEquip(b.cards, key);
    assert StaysEquipped(b.cards, r) by { hide InvLoose; }
    hide Overlays, Equips, Targets, Cells, Numbered, EquipsExact;
    FrameReleaseEquip(b.cards, key);
    TargetsFrame(b.cards, r);
    ReleaseEquipKeepsEquips(b.cards, key);
    hide ReleaseEquip;
    Rebuild(b, r, loose);
  }

  lemma FrameReleaseEquip(cards: Arena, key: Key)
    ensures var r := ReleaseEquip(cards, key);
      SamePlaces(cards, r) && SameOverlays(cards, r) && SameTargets(cards, r) &&
      (forall k :: k in cards && cards[k].equipTarget.None? ==> r[k].equipTarget.None?) &&
      (key in cards ==> r[key].equipTarget.None?) &&
      (forall k :: k in cards && k != key ==> r[k].equipTarget == cards[k].equipTarget)
  {
    if key in cards {
      var c := DropEquipped(cards, cards[key].equipTarget, key);
      FrameDropEquipped(cards, cards[key].equipTarget, key);
      FrameEquipTarget(c, key, None);
      hide SamePlaces, SameOverlays, SameTargets;
      SameChain(cards, c, ReleaseEquip(cards, key));
    }
  }

  lemma SameChain(c: Arena, d: Arena, e: Arena)
    ensures SamePlaces(c, d) && SamePlaces(d, e) ==> SamePlaces(c, e)
    ensures SameOverlays(c, d) && SameOverlays(d, e) ==> SameOverlays(c, e)
    ensures SameTargets(c, d) && SameTargets(d, e) ==> SameTargets(c, e)
    ensures SameEquips(c, d) && SameEquips(d, e) ==> SameEquips(c, e)
  {
  }

  lemma ReleaseEquipKeepsEquips(cards: Arena, key: Key)
    requires Equips(cards)
    ensures Equips(ReleaseEquip(cards, key))
  {
  }

  lemma EquipKeeps(b: Board, key: Key, target: Key, loose: set<Key>)
    requires InvLoose(b, loose) && key in b.cards && target in b.cards
    requires b.cards[key].overlayTarget.None? && b.cards[target].overlayTarget.None?
    ensures var r := AddEquipped(SetEquipTarget(b.cards, key, Some(target)), target, key);
      && InvLoose(b.(cards := r), loose) && StaysNumbered(b.cards, r)
      && (b.cards[key].equipTarget.None? || b.cards[key].equipTarget == Some(target) ==> StaysEquipped(b.cards, r))
  {
    var c := SetEquipTarget(b.cards, key, Some(target));
    var r := AddEquipped(c, target, key);
    FrameEquipTarget(b.cards, key, Some(target));
    FrameAddEquipped(c, target, key);
    SameChain(b.cards, c, r);
    if b.cards[key].equipTarget.None? || b.cards[key].equipTarget == Some(target) { EquipStaysEquipped(b.cards, key, target); }
    EquipKeepsEquips(b.cards, key, target);
    hide Overlays, Equips, Cells, Targets, EquipsExact, Numbered;
    TargetsFrame(b.cards, r);
    hide AddEquipped, SetEquipTarget;
    Rebuild(b, r, loose);
  }

  lemma EquipStaysEquipped(cards: Arena, key: Key, target: Key)
    requires key in cards && target in cards && (cards[key].equipTarget.None? || cards[key].equipTarget == Some(target))
    ensures StaysEquipped(cards, AddEquipped(SetEquipTarget(cards, key, Some(target)), target, key))
  {
  }

  lemma EquipKeepsEquips(cards: Arena, key: Key, target: Key)
    requires Equips(cards) && key in cards && target in cards
    requires cards[key].overlayTarget.None? && cards[target].overlayTarget.None?
    ensures var r := AddEquipped(SetEquipTarget(cards, key, Some(target)), target, key);
      Equips(r) && NoNewMaterialEquip(cards, r)
  {
  }

  lemma AddTargetKeeps(b: Board, key: Key, target: Key, loose: set<Key>)
    requires InvLoose(b, loose) && key in b.cards && target in b.cards
    ensures InvLoose(b.(cards := AddTarget(b.cards, key, target)), loose)
    ensures StaysExact(b.cards, AddTarget(b.cards, key, target))
  {
    var r := AddTarget(b.cards, key, target);
    hide Numbered, EquipsExact;
    assert SamePlaces(b.cards, r) && SameOverlays(b.cards, r) && SameEquips(b.cards, r) by { hide InvLoose; }
    assert Targets(r) by { hide Overlays, Cells, Equips; }
    hide Overlays, Equips, Cells, Targets, AddTarget;
    EquipsFrame(b.cards, r);
    EquipsExactFrame(b.cards, r);
    Rebuild(b, r, loose);
  }

  lemma DropTargetKeeps(b: Board, key: Key, target: Key, loose: set<Key>)
    requires InvLoose(b, loose) && key in b.cards && target in b.cards
    ensures InvLoose(b.(cards := DropTarget(b.cards, key, target)), loose)
    ensures StaysExact(b.cards, DropTarget(b.cards, key, target))
  {
    var r := DropTarget(b.cards, key, target);
    hide Numbered, EquipsExact;
    assert SamePlaces(b.cards, r) && SameOverlays(b.cards, r) && SameEquips(b.cards, r) by { hide InvLoose; }
    assert Targets(r) by { hide Overlays, Cells, Equips; }
    hide Overlays, Equips, Cells, Targets, DropTarget;
    EquipsFrame(b.cards, r);
    EquipsExactFrame(b.cards, r);
    Rebuild(b, r, loose);
  }

  // ---------- materials ----------

  /** A loose card with nothing attached to it goes under a card that is no material. */
  lemma AttachKeeps(b: Board, host: Key, key: Key, loose: set<Key>)
    requires InvLoose(b, loose) && key in loose && host in b.cards && host != key
    requires b.cards[host].overlayTarget.None?
    requires b.cards[key].overlayed == [] && b.cards[key].equipTarget.None?
    requires forall a :: a in b.cards ==> b.cards[a].equipTarget != Some(key)
    ensures var r := SetLocation(AttachMaterial(b.cards, host, key), key, OVERLAY);
      && InvLoose(b.(cards := r), loose - {key}) && StaysEquipped(b.cards, r)
      && (|b.cards[host].overlayed| < 0x100 ==> StaysNumbered(b.cards, r))
  {
    AttachExact(b.cards, host, key);
    hide Numbered, EquipsExact, Overlays, Equips, Targets, CellsPointBack, AllHoused, SetLocation, AttachMaterial;
    AttachEffect(b.cards, host, key);
    AttachOverlays(b.cards, host, key);
    AttachLinks(b.cards, host, key);
    AttachCells(b, host, key, loose);
  }

  lemma AttachExact(cards: Arena, host: Key, key: Key)
    requires Overlays(cards) && host in cards && key in cards && host != key && cards[key].overlayTarget.None?
    requires cards[key].overlayed == []
    ensures var r := SetLocation(AttachMaterial(cards, host, key), key, OVERLAY);
      StaysEquipped(cards, r) && (|cards[host].overlayed| < 0x100 ==> StaysNumbered(cards, r))
  {
    AttachEffect(cards, host, key);
    hide SetLocation, AttachMaterial;
    if Numbered(cards) && |cards[host].overlayed| < 0x100 {
      var r := SetLocation(AttachMaterial(cards, host, key), key, OVERLAY);
      forall h, i | h in r && 0 <= i < |r[h].overlayed| ensures r[h].overlayed[i] in r && r[r[h].overlayed[i]].sequence == i {
        if i < |cards[h].overlayed| { assert IsMaterial(cards, cards[h].overlayed[i], h); }
      }
    }
  }

  lemma AttachLinks(cards: Arena, host: Key, key: Key)
    requires Equips(cards) && Targets(cards) && host in cards && key in cards && host != key
    requires forall a :: a in cards ==> cards[a].equipTarget != Some(key)
    ensures var r := SetLocation(AttachMaterial(cards, host, key), key, OVERLAY); Equips(r) && Targets(r)
  {
    AttachEffect(cards, host, key);
    hide SetLocation, AttachMaterial;
  }

  lemma AttachCells(b: Board, host: Key, key: Key, loose: set<Key>)
    requires Cells(b.cards, b.zones, loose) && host in b.cards && key in loose && host != key
    ensures Cells(SetLocation(AttachMaterial(b.cards, host, key), key, OVERLAY), b.zones, loose - {key})
  {
    AttachEffect(b.cards, host, key);
    hide SetLocation, AttachMaterial;
  }

  lemma AttachEffect(cards: Arena, host: Key, key: Key)
    requires host in cards && key in cards && host != key
    ensures var r := SetLocation(AttachMaterial(cards, host, key), key, OVERLAY);
      && r.Keys == cards.Keys
      && r[host] == cards[host].(overlayed := cards[host].overlayed + [key])
      && r[key] == cards[key].(overlayTarget := Some(host), location := OVERLAY, sequence := AsU8(|cards[host].overlayed|))
      && (forall x :: x in cards && x != host && x != key ==> r[x] == cards[x])
  {
  }

  lemma AttachOverlays(cards: Arena, host: Key, key: Key)
    requires Overlays(cards) && host in cards && key in cards && host != key
    requires cards[host].overlayTarget.None? && cards[key].overlayTarget.None?
    requires cards[key].overlayed == [] && cards[key].equipTarget.None?
    ensures Overlays(SetLocation(AttachMaterial(cards, host, key), key, OVERLAY))
  {
    var r := SetLocation(AttachMaterial(cards, host, key), key, OVERLAY);
    AttachEffect(cards, host, key);
    hide SetLocation, AttachMaterial;
    forall h, i | h in r && 0 <= i < |r[h].overlayed| ensures IsMaterial(r, r[h].overlayed[i], h) {
      if i < |cards[h].overlayed| { assert IsMaterial(cards, cards[h].overlayed[i], h); }
    }
    forall h | h in r ensures Distinct(r[h].overlayed) {
      forall k | k in cards[host].overlayed ensures k != key { assert IsMaterial(cards, k, host); }
    }
  }

  /** A material taken from under its host is loose. */
  lemma DetachKeeps(b: Board, host: Key, i: nat, loose: set<Key>)
    requires InvLoose(b, loose) && host in b.cards && i < |b.cards[host].overlayed|
    ensures var key := b.cards[host].overlayed[i];
      IsMaterial(b.cards, key, host) && key !in loose &&
      InvLoose(b.(cards := SetOverlayTarget(DetachMaterial(b.cards, host, i), key, None)), loose + {key}) &&
      StaysExact(b.cards, SetOverlayTarget(DetachMaterial(b.cards, host, i), key, None))
  {
    DetachStaysEquipped(b.cards, host, i);
    if Numbered(b.cards) { DetachStaysNumbered(b.cards, host, i); }
    hide Numbered, EquipsExact, Overlays, Equips, Targets, CellsPointBack, AllHoused, SetOverlayTarget, DetachMaterial;
    DetachEffect(b.cards, host, i);
    DetachOverlays(b.cards, host, i);
    DetachLinks(b.cards, host, i);
    DetachCells(b, host, i, loose);
  }

  lemma MaterialAt(cards: Arena, host: Key, i: nat)
    requires Overlays(cards) && host in cards && i < |cards[host].overlayed|
    ensures IsMaterial(cards, cards[host].overlayed[i], host) && cards[host].overlayed[i] != host && Distinct(cards[host].overlayed)
  {
    assert IsMaterial(cards, cards[host].overlayed[i], host);
  }

  lemma DetachStaysEquipped(cards: Arena, host: Key, i: nat)
    requires Overlays(cards) && host in cards && i < |cards[host].overlayed|
    ensures StaysEquipped(cards, SetOverlayTarget(DetachMaterial(cards, host, i), cards[host].overlayed[i], None))
  {
    DetachEffect(cards, host, i);
    hide SetOverlayTarget, DetachMaterial, Overlays;
  }

  lemma DetachStaysNumbered(cards: Arena, host: Key, i: nat)
    requires Overlays(cards) && host in cards && i < |cards[host].overlayed| && Numbered(cards)
    ensures Numbered(SetOverlayTarget(DetachMaterial(cards, host, i), cards[host].overlayed[i], None))
  {
    hide SetOverlayTarget, DetachMaterial, Overlays, RemoveAt;
    var key := cards[host].overlayed[i];
    var r := SetOverlayTarget(DetachMaterial(cards, host, i), key, None);
    DetachEffect(cards, host, i);
    AtMost256(cards, host);
    assert |RemoveAt(cards[host].overlayed, i)| < 0x100 by { RemovedLength(cards[host].overlayed, i); }
    MaterialAt(cards, host, i);
    forall h, j | h in r && 0 <= j < |r[h].overlayed| ensures r[h].overlayed[j] in r && r[r[h].overlayed[j]].sequence == j {
      if h != host { MaterialAt(cards, h, j); }
    }
  }

  lemma RemovedLength(s: seq<Key>, i: nat)
    requires i < |s|
    ensures |RemoveAt(s, i)| == |s| - 1
  {
  }

  lemma AtMost256(cards: Arena, host: Key)
    requires Numbered(cards) && host in cards
    ensures |cards[host].overlayed| <= 0x100
  {
    assert |cards[host].overlayed| > 0x100 ==> cards[cards[host].overlayed[0x100]].sequence == 0x100;
  }

  lemma DetachLinks(cards: Arena, host: Key, i: nat)
    requires Overlays(cards) && Equips(cards) && Targets(cards) && host in cards && i < |cards[host].overlayed|
    ensures var r := SetOverlayTarget(DetachMaterial(cards, host, i), cards[host].overlayed[i], None); Equips(r) && Targets(r)
  {
    DetachEffect(cards, host, i);
    hide SetOverlayTarget, DetachMaterial, Overlays;
  }

  lemma DetachCells(b: Board, host: Key, i: nat, loose: set<Key>)
    requires Cells(b.cards, b.zones, loose) && Overlays(b.cards) && host in b.cards && i < |b.cards[host].overlayed|
    ensures var key := b.cards[host].overlayed[i];
      Cells(SetOverlayTarget(DetachMaterial(b.cards, host, i), key, None), b.zones, loose + {key})
  {
    DetachEffect(b.cards, host, i);
    hide SetOverlayTarget, DetachMaterial, Overlays;
  }

  /** The other materials under a host: distinct from the one at `i`, from the host and from each other. */
  lemma OtherMaterials(cards: Arena, host: Key, i: nat)
    requires Overlays(cards) && host in cards && i < |cards[host].overlayed|
    ensures IsMaterial(cards, cards[host].overlayed[i], host) && cards[host].overlayed[i] != host
    ensures var rest := RemoveAt(cards[host].overlayed, i);
      Distinct(rest) && forall k :: k in rest ==> IsMaterial(cards, k, host) && k != host && k != cards[host].overlayed[i]
  {
    var all := cards[host].overlayed;
    var rest := RemoveAt(all, i);
    assert IsMaterial(cards, all[i], host);
    forall j | 0 <= j < |rest| ensures IsMaterial(cards, rest[j], host) && rest[j] != host && rest[j] != all[i] {
      var j' := if j < i then j else j + 1;
      assert rest[j] == all[j'];
      assert IsMaterial(cards, all[j'], host);
    }
  }

  lemma DetachEffect(cards: Arena, host: Key, i: nat)
    requires Overlays(cards) && host in cards && i < |cards[host].overlayed|
    ensures var key := cards[host].overlayed[i];
      var rest := RemoveAt(cards[host].overlayed, i);
      var r := SetOverlayTarget(DetachMaterial(cards, host, i), key, None);
      && r.Keys == cards.Keys && IsMaterial(cards, key, host) && key != host
      && r[host] == cards[host].(overlayed := rest)
      && r[key] == cards[key].(overlayTarget := None)
      && (forall x :: x in cards && x != host && x != key ==> r[x] == cards[x].(sequence := r[x].sequence))
      && (forall x :: x in cards && cards[x].overlayTarget != Some(host) ==> r[x].sequence == cards[x].sequence)
      && (forall j :: 0 <= j < |rest| ==> rest[j] in r && r[rest[j]].sequence == AsU8(j))
  {
    hide Overlays, ResetSequence, SetOverlayTarget;
    var rest := RemoveAt(cards[host].overlayed, i);
    OtherMaterials(cards, host, i);
    var c := cards[host := cards[host].(overlayed := [])];
    Renumbered(c, rest);
    DetachedCards(cards, ResetSequence(c, rest, 0), host, cards[host].overlayed[i], rest);
    forall j | 0 <= j < |rest| ensures rest[j] in cards && rest[j] != host && rest[j] != cards[host].overlayed[i] {
      var k := rest[j];
      assert k in rest;
      assert IsMaterial(cards, k, host);
    }
  }

  /** Putting the list back and clearing the overlay target changes the host and the material only. */
  lemma DetachedCards(cards: Arena, d: Arena, host: Key, key: Key, rest: seq<Key>)
    requires host in cards && key in cards && key != host && key !in rest && host !in rest && d.Keys == cards.Keys
    requires d[host] == cards[host].(overlayed := []) && d[key] == cards[key]
    requires forall x :: x in cards && x != host ==> d[x] == cards[x].(sequence := d[x].sequence)
    requires forall x :: x in cards && x != host && x !in rest ==> d[x] == cards[x]
    requires forall k :: k in rest ==> IsMaterial(cards, k, host)
    ensures var r := SetOverlayTarget(d[host := d[host].(overlayed := rest)], key, None);
      && r.Keys == cards.Keys
      && r[host] == cards[host].(overlayed := rest)
      && r[key] == cards[key].(overlayTarget := None)
      && (forall x :: x in cards && x != host && x != key ==> r[x] == d[x])
      && (forall x :: x in cards && x != host && x != key ==> r[x] == cards[x].(sequence := r[x].sequence))
      && (forall x :: x in cards && cards[x].overlayTarget != Some(host) ==> r[x].sequence == cards[x].sequence)
  {
  }

  lemma {:induction false} Renumbered(c: Arena, rest: seq<Key>)
    requires Distinct(rest)
    ensures var r := ResetSequence(c, rest, 0);
      && r.Keys == c.Keys
      && (forall x :: x in c ==> r[x] == c[x].(sequence := r[x].sequence))
      && (forall x :: x in c && x !in rest ==> r[x] == c[x])
      && (forall j :: 0 <= j < |rest| && rest[j] in c ==> r[rest[j]].sequence == AsU8(j))
  {
    hide ResetSequence;
    ResetSequenceFrame(c, rest, 0);
    ResetSequenceNumbers(c, rest, 0);
    assert rest[0..] == rest;
  }

  lemma DetachOverlays(cards: Arena, host: Key, i: nat)
    requires Overlays(cards) && host in cards && i < |cards[host].overlayed|
    ensures Overlays(SetOverlayTarget(DetachMaterial(cards, host, i), cards[host].overlayed[i], None))
  {
    var all := cards[host].overlayed;
    var r := SetOverlayTarget(DetachMaterial(cards, host, i), all[i], None);
    DetachEffect(cards, host, i);
    OtherMaterials(cards, host, i);
    RemoveAtMembers(all, i);
    hide SetOverlayTarget, DetachMaterial, RemoveAt;
    forall h, j | h in r && 0 <= j < |r[h].overlayed| ensures IsMaterial(r, r[h].overlayed[j], h) {
      if h == host { assert r[h].overlayed[j] in r[h].overlayed; } else { assert IsMaterial(cards, cards[h].overlayed[j], h); }
    }
    forall o | o in r && r[o].overlayTarget.Some?
      ensures var h := r[o].overlayTarget.value; h in r && o in r[h].overlayed
    {
      assert o in cards[cards[o].overlayTarget.value].overlayed;
    }
  }

  lemma RemoveAtMembers(s: seq<Key>, i: nat)
    requires i < |s|
    ensures forall k :: k in s ==> k == s[i] || k in RemoveAt(s, i)
  {
    forall k | k in s && k != s[i] ensures k in RemoveAt(s, i) {
      var j :| 0 <= j < |s| && s[j] == k;
      assert k == if j < i then RemoveAt(s, i)[j] else RemoveAt(s, i)[j - 1];
    }
  }
}
