/**
The duel field of `ygopro-data/src/field.rs` as a value, and what every message
that touches a modelled part of it does to that value.

The class `Field` (Field.dfy) holds the same parts as mutable fields and runs the
source's loops; its methods are proved to compute the functions of this module.
*/
module Board {
  import opened Options

  /** A handle into the card arena. The arena hands out `next` and counts up, so keys are never reused. */
  type Key = int

  datatype Player = First | Second

  /** The seven zones a card can lie in; `MZone` and `SZone` are fixed slots, the others are lists. */
  datatype Kind = Deck | Hand | MZone | SZone | Grave | Removed | Extra

  /** The zone bits of a location: none, exactly one known zone, or any other combination. */
  datatype Base = Nowhere | In(kind: Kind) | Mixed

  datatype Location = Location(base: Base, overlay: bool)

  const LIMBO := Location(Nowhere, false)
  const OVERLAY := Location(Nowhere, true)

  datatype Zone = Zone(player: Player, kind: Kind)

  // Bit flags are bit vectors; only the masks the field looks at are named.
  const FACEUP: bv8 := 0x05
  const FACEDOWN: bv8 := 0x0a
  const FACEDOWN_DEFENSE: bv8 := 0x08
  const ANY_POSITION: bv8 := 0
  const PENDULUM: bv32 := 0x100_0000
  const EXTRA_DECK: bv32 := 0x480_2040  // Fusion, Synchro, Xyz or Link
  const NO_TYPE: bv32 := 0

  datatype Card = Card(
    code: U32,
    cardType: bv32,
    position: bv8,
    controller: Option<Player>,
    location: Location,
    sequence: U8,
    overlayTarget: Option<Key>,
    overlayed: seq<Key>,
    equipTarget: Option<Key>,
    equipped: set<Key>,
    cardTarget: set<Key>,
    ownerTarget: set<Key>)

  const BLANK := Card(0, NO_TYPE, ANY_POSITION, None, LIMBO, 0, None, [], None, {}, {}, {})

  type Arena = map<Key, Card>

  /** The zone vectors and the slot arrays of both players. */
  datatype Zones = Zones(lists: map<Zone, seq<Key>>, slots: map<Zone, seq<Option<Key>>>)

  datatype Board = Board(
    cards: Arena,
    next: Key,
    zones: Zones,
    pendulum: map<Player, int>,
    deckReversed: bool)

  function FreshSlots(): (slots: map<Zone, seq<Option<Key>>>) {
    map[Zone(First, MZone) := seq(7, _ => None), Zone(Second, MZone) := seq(7, _ => None),
        Zone(First, SZone) := seq(8, _ => None), Zone(Second, SZone) := seq(8, _ => None)]
  }

  function Empty(): Board {
    Board(map[], 0, Zones(map[], FreshSlots()), map[], false)
  }

  // ---------- messages ----------

  datatype InfoLocation = InfoLocation(
    controller: Player, location: Location, sequence: U8, position: bv8, overlaySequence: U8)

  /** An address inside a card query; `sequence` is already cast to `u8`, `sub` is an `i8`. */
  datatype CardPosition = CardPosition(controller: Player, location: Location, sequence: U8, sub: int)

  /** The query fields that reach a modelled part of a card; every other field is `Inert`. */
  datatype Query =
    | Clear
    | Code(code: U32)
    | Position(position: bv8)
    | Type(cardType: bv32)
    | EquipCard(at: CardPosition)
    | TargetCard(targets: seq<CardPosition>)
    | OverlayCard(codes: seq<U32>)
    | Inert

  /** `None` is the empty record. */
  type UpdateInfo = Option<seq<Query>>

  datatype MonsterSlot = MonsterSlot(occupied: bool, position: bv8, xyzCount: U8)
  datatype SpellSlot = SpellSlot(occupied: bool, position: bv8)
  type MonsterRow = s: seq<MonsterSlot> | |s| == 7 witness seq(7, _ => MonsterSlot(false, ANY_POSITION, 0))
  type SpellRow = s: seq<SpellSlot> | |s| == 8 witness seq(8, _ => SpellSlot(false, ANY_POSITION))
  datatype PlayerField = PlayerField(
    mzone: MonsterRow, szone: SpellRow,
    mainCount: U8, handCount: U8, graveCount: U8, removeCount: U8, extraCount: U8, pendulumCount: U8)

  datatype Message =
    | Start(deck1: U16, extra1: U16, deck2: U16, extra2: U16)
    | UpdateData(owner: Player, zone: Location, infos: seq<UpdateInfo>)
    | UpdateCard(position: CardPosition, info: UpdateInfo)
    | SwapGraveDeck(player: Player)
    | ShuffleSetCard(where: Location, olds: seq<InfoLocation>, news: seq<InfoLocation>)
    | ReverseDeck
    | ConfirmExtraTop(player: Player, codes: seq<U32>)
    | Move(code: U32, previous: InfoLocation, current: InfoLocation)
    | PositionChange(code: U32, at: CardPosition, previousPosition: bv8, currentPosition: bv8)
    | Swap(position1: InfoLocation, position2: InfoLocation)
    | FlipSummoning(code: U32, at0: InfoLocation)
    | Draw(player: Player, codes: seq<U32>)
    | Equip(position1: InfoLocation, position2: InfoLocation)
    | Unequip(at0: InfoLocation)
    | CardTarget(position1: InfoLocation, position2: InfoLocation)
    | CancelTarget(position1: InfoLocation, position2: InfoLocation)
    | TagSwap(player: Player, mainCount: U8, pendulumCount: U8, topCode: U32, handCodes: seq<U32>, extraCodes: seq<U32>)
    | ReloadField(player1: PlayerField, player2: PlayerField)

  // ---------- reading ----------

  predicate IsSlots(kind: Kind) { kind.MZone? || kind.SZone? }

  function ListIn(zones: Zones, z: Zone): seq<Key> {
    if z in zones.lists then zones.lists[z] else []
  }

  function SlotsIn(zones: Zones, z: Zone): seq<Option<Key>> {
    if z in zones.slots then zones.slots[z] else []
  }

  /** The key at index `i` of a zone, whichever sort of zone it is. */
  function CellIn(zones: Zones, z: Zone, i: nat): Option<Key> {
    if IsSlots(z.kind)
    then if i < |SlotsIn(zones, z)| then SlotsIn(zones, z)[i] else None
    else if i < |ListIn(zones, z)| then Some(ListIn(zones, z)[i]) else None
  }

  function List(b: Board, z: Zone): seq<Key> { ListIn(b.zones, z) }

  function Cell(b: Board, z: Zone, i: nat): Option<Key> { CellIn(b.zones, z, i) }

  function PendulumCount(b: Board, p: Player): int {
    if p in b.pendulum then b.pendulum[p] else 0
  }

  function AsU8(i: nat): U8 { i % 0x100 }

  function AsI8(x: U8): int { if x < 0x80 then x else x - 0x100 }

  function AtLeast0(i: int): nat { if i < 0 then 0 else i }

  function Material(cards: Arena, host: Option<Key>, i: nat): Option<Key> {
    if host.Some? && host.value in cards && i < |cards[host.value].overlayed|
    then Some(cards[host.value].overlayed[i]) else None
  }

  function GetCard(b: Board, p: Player, location: Location, sequence: U8, sub: int): Option<Key> {
    var key := if location.base.In? then Cell(b, Zone(p, location.base.kind), sequence) else None;
    if location.overlay then Material(b.cards, key, AtLeast0(sub)) else key
  }

  function GetInfo(b: Board, at: InfoLocation): Option<Key> {
    GetCard(b, at.controller, at.location, at.sequence, AsI8(at.overlaySequence))
  }

  function GetPosition(b: Board, at: CardPosition): Option<Key> {
    GetCard(b, at.controller, at.location, at.sequence, at.sub)
  }

  predicate IsFaceupPendulum(c: Card) {
    c.position & FACEUP != 0 && c.cardType & PENDULUM != 0
  }

  predicate FaceupPendulumKey(cards: Arena, key: Key) {
    key in cards && IsFaceupPendulum(cards[key])
  }

  predicate IsExtraDeckType(cards: Arena, key: Key) {
    key in cards && cards[key].cardType & EXTRA_DECK != 0
  }

  // ---------- the arena ----------

  function SetCode(cards: Arena, key: Key, code: U32): Arena {
    if key in cards then cards[key := cards[key].(code := code)] else cards
  }

  function SetPosition(cards: Arena, key: Key, position: bv8): Arena {
    if key in cards then cards[key := cards[key].(position := position)] else cards
  }

  function SetType(cards: Arena, key: Key, cardType: bv32): Arena {
    if key in cards then cards[key := cards[key].(cardType := cardType)] else cards
  }

  /** `Card::clear`, of which only the type is modelled. */
  function ClearCard(cards: Arena, key: Key): Arena { SetType(cards, key, NO_TYPE) }

  function SetSequence(cards: Arena, key: Key, sequence: U8): Arena {
    if key in cards then cards[key := cards[key].(sequence := sequence)] else cards
  }

  function SetLocation(cards: Arena, key: Key, location: Location): Arena {
    if key in cards then cards[key := cards[key].(location := location)] else cards
  }

  function SetPlace(cards: Arena, key: Key, p: Player, location: Location, sequence: U8): Arena {
    if key in cards
    then cards[key := cards[key].(controller := Some(p), location := location, sequence := sequence)]
    else cards
  }

  function SetEquipTarget(cards: Arena, key: Key, target: Option<Key>): Arena {
    if key in cards then cards[key := cards[key].(equipTarget := target)] else cards
  }

  function AddEquipped(cards: Arena, target: Key, key: Key): Arena {
    if target in cards then cards[target := cards[target].(equipped := cards[target].equipped + {key})] else cards
  }

  function DropEquipped(cards: Arena, target: Option<Key>, key: Key): Arena {
    if target.Some? && target.value in cards
    then cards[target.value := cards[target.value].(equipped := cards[target.value].equipped - {key})]
    else cards
  }

  function AddTarget(cards: Arena, key: Key, target: Key): Arena {
    var c := if key in cards then cards[key := cards[key].(cardTarget := cards[key].cardTarget + {target})] else cards;
    if target in c then c[target := c[target].(ownerTarget := c[target].ownerTarget + {key})] else c
  }

  function DropTarget(cards: Arena, key: Key, target: Key): Arena {
    var c := if key in cards then cards[key := cards[key].(cardTarget := cards[key].cardTarget - {target})] else cards;
    if target in c then c[target := c[target].(ownerTarget := c[target].ownerTarget - {key})] else c
  }

  /** Numbers the cards of `list` from index `from` on by their index. */
  function ResetSequence(cards: Arena, list: seq<Key>, from: nat): (r: Arena)
    requires from <= |list|
    ensures r.Keys == cards.Keys
    decreases |list| - from
  {
    if from == |list| then cards
    else ResetSequence(SetSequence(cards, list[from], AsU8(from)), list, from + 1)
  }

  /** Removes `key` from the relations of the cards that `card` targets and that target `card`. */
  function ForgetTargets(cards: Arena, card: Card, key: Key): Arena {
    map x | x in cards :: cards[x].(
      ownerTarget := if x in card.cardTarget then cards[x].ownerTarget - {key} else cards[x].ownerTarget,
      cardTarget := if x in card.ownerTarget then cards[x].cardTarget - {key} else cards[x].cardTarget)
  }

  function ClearTargets(cards: Arena, key: Key): Arena {
    if key !in cards then cards
    else
      var c := ForgetTargets(cards, cards[key], key);
      c[key := c[key].(cardTarget := {}, ownerTarget := {})]
  }

  function ReleaseEquip(cards: Arena, key: Key): Arena {
    if key !in cards || cards[key].equipTarget.None? then cards
    else SetEquipTarget(DropEquipped(cards, cards[key].equipTarget, key), key, None)
  }

  /** Targets cleared and equip released, as for every card that changes its zone. */
  function Unlink(cards: Arena, key: Key): Arena { ReleaseEquip(ClearTargets(cards, key), key) }

  function Without(s: seq<Key>, key: Key): seq<Key> {
    if s == [] then [] else (if s[0] == key then [] else [s[0]]) + Without(s[1..], key)
  }

  function DropMaterials(cards: Arena, materials: seq<Key>): Arena {
    if materials == [] then cards
    else DropMaterials(ClearTargets(cards, materials[0]) - {materials[0]}, materials[1..])
  }

  function DropOverlayed(cards: Arena, host: Option<Key>, key: Key): Arena {
    if host.Some? && host.value in cards
    then cards[host.value := cards[host.value].(overlayed := Without(cards[host.value].overlayed, key))]
    else cards
  }

  function ReleaseAll(cards: Arena, equipped: set<Key>): Arena {
    map x | x in cards :: if x in equipped then cards[x].(equipTarget := None) else cards[x]
  }

  function Destroy(cards: Arena, key: Key): Arena {
    if key !in cards then cards
    else
      var card := cards[key];
      var c1 := ReleaseAll(cards - {key}, card.equipped);
      var c2 := DropEquipped(c1, card.equipTarget, key);
      var c3 := DropMaterials(c2, card.overlayed);
      var c4 := DropOverlayed(c3, card.overlayTarget, key);
      ForgetTargets(c4, card, key)
  }

  /** Takes the material at index `i` from under `host` and renumbers the rest. */
  function DetachMaterial(cards: Arena, host: Key, i: nat): Arena
    requires host in cards && i < |cards[host].overlayed|
  {
    var rest := cards[host].overlayed[..i] + cards[host].overlayed[i + 1..];
    var c := ResetSequence(cards[host := cards[host].(overlayed := [])], rest, 0);
    c[host := c[host].(overlayed := rest)]
  }

  function PushMaterial(cards: Arena, host: Key, key: Key): Arena
    requires host in cards
  {
    cards[host := cards[host].(overlayed := cards[host].overlayed + [key])]
  }

  // ---------- zones ----------

  function PutList(zones: Zones, z: Zone, list: seq<Key>): Zones { zones.(lists := zones.lists[z := list]) }

  function PutSlot(zones: Zones, z: Zone, i: nat, cell: Option<Key>): Zones {
    if i < |SlotsIn(zones, z)| then zones.(slots := zones.slots[z := SlotsIn(zones, z)[i := cell]]) else zones
  }

  function SetList(b: Board, z: Zone, list: seq<Key>): Board { b.(zones := PutList(b.zones, z, list)) }

  function SetSlot(b: Board, z: Zone, i: nat, cell: Option<Key>): Board { b.(zones := PutSlot(b.zones, z, i, cell)) }

  function SetPendulum(b: Board, p: Player, count: int): Board { b.(pendulum := b.pendulum[p := count]) }

  function CreateCard(b: Board): Board { b.(cards := b.cards[b.next := BLANK], next := b.next + 1) }

  function Min(a: nat, b: nat): nat { if a < b then a else b }

  function InsertAt(list: seq<Key>, i: nat, key: Key): seq<Key>
    requires i <= |list|
  {
    list[..i] + [key] + list[i..]
  }

  function RemoveAt(list: seq<Key>, i: nat): seq<Key>
    requires i < |list|
  {
    list[..i] + list[i + 1..]
  }

  /** Where a card enters the extra deck: on top, or below the face-up pendulum cards. */
  function ExtraIndex(b: Board, p: Player, faceup: bool): (i: nat)
    ensures i <= |List(b, Zone(p, Extra))|
  {
    var length := |List(b, Zone(p, Extra))|;
    if PendulumCount(b, p) == 0 || faceup then length
    else
      var count := AtLeast0(PendulumCount(b, p));
      if length < count then 0 else length - count
  }

  function AddToList(b: Board, z: Zone, i: nat, key: Key): Board
    requires i <= |List(b, z)|
  {
    var list := InsertAt(List(b, z), i, key);
    SetList(b, z, list).(cards := ResetSequence(b.cards, list, 0))
  }

  /** The grave and the banished pile only number the card they receive. */
  function PushToPile(b: Board, z: Zone, key: Key): Board {
    var list := List(b, z) + [key];
    SetList(b, z, list).(cards := SetSequence(b.cards, key, AsU8(|list| - 1)))
  }

  function AddCard(b0: Board, key: Key, p: Player, location: Location, sequence: U8): Board {
    var b := b0.(cards := SetPlace(b0.cards, key, p, location, sequence));
    if location.overlay || !location.base.In? then b
    else
      var z := Zone(p, location.base.kind);
      match location.base.kind
      case Deck =>
        var b1 := AddToList(b, z, Min(sequence, |List(b, z)|), key);
        b1.(cards := ClearTargets(ClearCard(b1.cards, key), key))
      case Hand => AddToList(b, z, |List(b, z)|, key)
      case MZone | SZone => SetSlot(b, z, sequence, Some(key))
      case Grave | Removed => PushToPile(b, z, key)
      case Extra =>
        var faceup := FaceupPendulumKey(b.cards, key);
        var b1 := AddToList(b, z, ExtraIndex(b, p, faceup), key);
        if faceup then SetPendulum(b1, p, PendulumCount(b1, p) + 1) else b1
  }

  function RemoveFromList(b: Board, z: Zone, i: nat): Board
    requires i < |List(b, z)|
  {
    var list := RemoveAt(List(b, z), i);
    SetList(b, z, list).(cards := ResetSequence(b.cards, list, 0))
  }

  /** Takes the card at an address out of its zone; the address must not be an overlay to find one. */
  function RemoveCard(b: Board, p: Player, location: Location, sequence: U8): Board {
    if location.overlay || !location.base.In? then b
    else
      var z := Zone(p, location.base.kind);
      var found := Cell(b, z, sequence);
      if found.None? then b
      else
        var key := found.value;
        var b1 := if IsSlots(z.kind) then SetSlot(b, z, sequence, None) else RemoveFromList(b, z, sequence);
        var b2 := if z.kind.Extra? && FaceupPendulumKey(b1.cards, key)
                  then SetPendulum(b1, p, PendulumCount(b1, p) - 1) else b1;
        b2.(cards := SetLocation(b2.cards, key, LIMBO))
  }

  // ---------- card queries ----------

  function SetEquipCard(b: Board, key: Key, at: CardPosition): Board {
    var target := GetPosition(b, at);
    if target.None? then b
    else b.(cards := AddEquipped(SetEquipTarget(b.cards, key, target), target.value, key))
  }

  function AddTargets(b: Board, key: Key, positions: seq<CardPosition>): Board
    decreases positions
  {
    if positions == [] then b
    else
      var target := GetPosition(b, positions[0]);
      AddTargets(if target.None? then b else b.(cards := AddTarget(b.cards, key, target.value)), key, positions[1..])
  }

  /** Puts a fresh material under `host`. */
  function CreateMaterial(b: Board, host: Key, p: Option<Player>): Board
    requires host in b.cards
  {
    var sequence := AsU8(|b.cards[host].overlayed|);
    var material := BLANK.(overlayTarget := Some(host), location := OVERLAY, sequence := sequence, controller := p);
    var pushed := b.cards[host].(overlayed := b.cards[host].overlayed + [b.next]);
    b.(cards := b.cards[b.next := material][host := pushed], next := b.next + 1)
  }

  /** Gives the materials of `host` from index `i` on the codes reported, creating those that are missing. */
  function NameMaterials(b: Board, host: Key, p: Option<Player>, codes: seq<U32>, i: nat): (r: Board)
    requires host in b.cards && i <= |codes| && i <= |b.cards[host].overlayed|
    ensures host in r.cards && |codes| <= |r.cards[host].overlayed|
    decreases |codes| - i
  {
    if i == |codes| then b
    else
      var b1 := if i < |b.cards[host].overlayed| then b else CreateMaterial(b, host, p);
      var b2 := b1.(cards := SetCode(b1.cards, b1.cards[host].overlayed[i], codes[i]));
      NameMaterials(b2, host, p, codes, i + 1)
  }

  function UpdateOverlayCards(b: Board, host: Key, codes: seq<U32>): Board {
    if host !in b.cards then b
    else
      var b1 := NameMaterials(b, host, b.cards[host].controller, codes, 0);
      var all := b1.cards[host].overlayed;
      var c := b1.cards[host := b1.cards[host].(overlayed := all[..|codes|])];
      b1.(cards := DropMaterials(c, all[|codes|..]))
  }

  function ApplyQuery(b: Board, key: Key, query: Query): Board {
    match query
    case Clear => b.(cards := ClearCard(b.cards, key))
    case Code(code) =>
      var c := if code == 0 then ClearCard(b.cards, key) else b.cards;
      b.(cards := SetCode(c, key, code))
    case Position(position) => b.(cards := SetPosition(b.cards, key, position))
    case Type(cardType) => b.(cards := SetType(b.cards, key, cardType))
    case EquipCard(at) => SetEquipCard(b, key, at)
    case TargetCard(targets) => AddTargets(b, key, targets)
    case OverlayCard(codes) => UpdateOverlayCards(b, key, codes)
    case Inert => b
  }

  function ApplyQueries(b: Board, key: Key, queries: seq<Query>): Board
    decreases queries
  {
    if queries == [] then b else ApplyQueries(ApplyQuery(b, key, queries[0]), key, queries[1..])
  }

  function UpdateCardInfo(b: Board, key: Key, info: UpdateInfo): Board {
    if info.None? then b else ApplyQueries(b, key, info.value)
  }

  function UpdateZone(b: Board, p: Player, location: Location, infos: seq<UpdateInfo>, i: nat): Board
    requires i <= |infos|
    decreases |infos| - i
  {
    if i == |infos| then b
    else
      var key := GetCard(b, p, location, AsU8(i), 0);
      UpdateZone(if key.None? then b else UpdateCardInfo(b, key.value, infos[i]), p, location, infos, i + 1)
  }

  // ---------- messages on one zone ----------

  function SetLocations(cards: Arena, list: seq<Key>, location: Location): Arena {
    if list == [] then cards else SetLocations(SetLocation(cards, list[0], location), list[1..], location)
  }

  /** Deals the old grave out: extra deck types go to the extra deck, the rest becomes the deck. */
  function DealGrave(b: Board, p: Player, source: seq<Key>, kept: seq<Key>): Board
    decreases source
  {
    if source == [] then SetList(b, Zone(p, Deck), kept)
    else
      var key := source[0];
      if IsExtraDeckType(b.cards, key) then
        var b1 := b.(cards := SetPosition(b.cards, key, FACEDOWN));
        DealGrave(AddCard(b1, key, p, Location(In(Extra), false), 0), p, source[1..], kept)
      else
        var c := SetSequence(SetLocation(b.cards, key, Location(In(Deck), false)), key, AsU8(|kept|));
        DealGrave(b.(cards := c), p, source[1..], kept + [key])
  }

  function SwapGraveDeckStep(b: Board, p: Player): Board {
    var grave := List(b, Zone(p, Grave));
    var deck := List(b, Zone(p, Deck));
    var b1 := SetList(SetList(b, Zone(p, Grave), deck), Zone(p, Deck), []);
    DealGrave(b1.(cards := SetLocations(b1.cards, deck, Location(In(Grave), false))), p, grave, [])
  }

  function ReverseDeckOf(b: Board, p: Player): Board {
    var list := Reverse(List(b, Zone(p, Deck)));
    SetList(b, Zone(p, Deck), list).(cards := ResetSequence(b.cards, list, 0))
  }

  /** Codes reported for the cards at `top`, `top - 1`, ... of a list; a zero code names nothing. */
  function NameFromTop(cards: Arena, list: seq<Key>, top: int, codes: seq<U32>, skipZero: bool): Arena
    requires top < |list|
    decreases |codes|
  {
    if codes == [] || (top < 0 && !(skipZero && codes[0] == 0)) then cards
    else if skipZero && codes[0] == 0 then NameFromTop(cards, list, top - 1, codes[1..], skipZero)
    else NameFromTop(SetCode(cards, list[top], codes[0]), list, top - 1, codes[1..], skipZero)
  }

  function ConfirmExtraTopStep(b: Board, p: Player, codes: seq<U32>): Board {
    var list := List(b, Zone(p, Extra));
    if PendulumCount(b, p) < 0 then b
    else b.(cards := NameFromTop(b.cards, list, |list| - 1 - PendulumCount(b, p), codes, true))
  }

  function DrawCards(b: Board, p: Player, count: nat): Board
    decreases count
  {
    var deck := List(b, Zone(p, Deck));
    if count == 0 || deck == [] then b
    else
      var b1 := SetList(b, Zone(p, Deck), deck[..|deck| - 1]);
      DrawCards(AddCard(b1, deck[|deck| - 1], p, Location(In(Hand), false), 0), p, count - 1)
  }

  function DrawStep(b: Board, p: Player, codes: seq<U32>): Board {
    var deck := List(b, Zone(p, Deck));
    var b1 := b.(cards := NameFromTop(b.cards, deck, |deck| - 1, codes, b.deckReversed));
    DrawCards(b1, p, |codes|)
  }

  // ---------- set-card shuffle ----------

  function ShuffleKind(where: Location): Kind {
    if where == Location(In(MZone), false) then MZone else SZone
  }

  function SlotAt(b: Board, kind: Kind, at: InfoLocation): Option<Key>
    requires IsSlots(kind)
  {
    Cell(b, Zone(at.controller, kind), at.sequence)
  }

  function Selected(b: Board, kind: Kind, olds: seq<InfoLocation>): (keys: seq<Option<Key>>)
    requires IsSlots(kind)
    ensures |keys| == |olds|
  {
    if olds == [] then [] else [SlotAt(b, kind, olds[0])] + Selected(b, kind, olds[1..])
  }

  function HideSelected(cards: Arena, keys: seq<Option<Key>>): Arena {
    if keys == [] then cards
    else HideSelected(if keys[0].Some? then SetCode(cards, keys[0].value, 0) else cards, keys[1..])
  }

  /** Puts `key` on the slot `at`, sending the card found there to the slot `key` came from. */
  function MoveSetCard(b: Board, kind: Kind, key: Key, at: InfoLocation): Board
    requires IsSlots(kind) && key in b.cards
  {
    var z := Zone(at.controller, kind);
    var sequence := b.cards[key].sequence;
    var previous := Cell(b, z, at.sequence);
    var b1 := SetSlot(b, z, at.sequence, None);
    var b2 := if previous.None? then b1
              else SetSlot(b1.(cards := SetSequence(b1.cards, previous.value, sequence)), z, sequence, previous);
    var b3 := SetSlot(b2, z, at.sequence, Some(key));
    b3.(cards := SetSequence(b3.cards, key, at.sequence))
  }

  function MoveSetCards(b: Board, kind: Kind, keys: seq<Option<Key>>, news: seq<InfoLocation>): Board
    requires IsSlots(kind)
    decreases |news|
  {
    if news == [] then b
    else
      var tail := if keys == [] then [] else keys[1..];
      if news[0].location == LIMBO || keys == [] || keys[0].None? || keys[0].value !in b.cards
      then MoveSetCards(b, kind, tail, news[1..])
      else MoveSetCards(MoveSetCard(b, kind, keys[0].value, news[0]), kind, tail, news[1..])
  }

  function ShuffleSetCardStep(b: Board, where: Location, olds: seq<InfoLocation>, news: seq<InfoLocation>): Board {
    var kind := ShuffleKind(where);
    var keys := Selected(b, kind, olds);
    MoveSetCards(b.(cards := HideSelected(b.cards, keys)), kind, keys, news)
  }

  // ---------- moves ----------

  function ClearPlace(current: InfoLocation): Location { Location(current.location.base, false) }

  /** A card appears. */
  function MoveIn(b: Board, code: U32, current: InfoLocation): Board {
    var b1 := CreateCard(b);
    var c := SetCode(SetPosition(b1.cards, b.next, current.position), b.next, code);
    AddCard(b1.(cards := c), b.next, current.controller, current.location, current.sequence)
  }

  /** A card leaves the duel. */
  function MoveOut(b: Board, code: U32, previous: InfoLocation): Board {
    var key := GetInfo(b, previous);
    if key.None? then b
    else
      var c := if code != 0 then SetCode(b.cards, key.value, code) else b.cards;
      var b1 := RemoveCard(b.(cards := ClearTargets(c, key.value)), previous.controller, previous.location, previous.sequence);
      b1.(cards := Destroy(b1.cards, key.value))
  }

  /** A zero code hides nothing, except for a card going to the extra deck. */
  function Renamed(cards: Arena, key: Key, code: U32, hide0: bool): Arena {
    var cardCode := if key in cards then cards[key].code else 0;
    if (code != 0 && cardCode != code) || (hide0 && cardCode != code) then SetCode(cards, key, code) else cards
  }

  /** A card goes from one zone to another, or moves inside its zone. */
  function MoveAcross(b: Board, code: U32, previous: InfoLocation, current: InfoLocation): Board {
    var key := GetCard(b, previous.controller, previous.location, previous.sequence, 0);
    if key.None? then b
    else
      var k := key.value;
      var c := Renamed(b.cards, k, code, current.location == Location(In(Extra), false));
      var c1 := if current.location != previous.location then Unlink(c, k) else c;
      var b1 := RemoveCard(b.(cards := c1), previous.controller, previous.location, previous.sequence);
      AddCard(b1.(cards := SetPosition(b1.cards, k, current.position)), k, current.controller, current.location, current.sequence)
  }

  function AttachMaterial(cards: Arena, host: Key, key: Key): Arena
    requires host in cards
  {
    var sequence := AsU8(|cards[host].overlayed|);
    var c := PushMaterial(cards, host, key);
    if key in c then c[key := c[key].(overlayTarget := Some(host), sequence := sequence)] else c
  }

  /** A card becomes a material. */
  function MoveUnder(b: Board, code: U32, previous: InfoLocation, current: InfoLocation): Board {
    var key := GetCard(b, previous.controller, previous.location, previous.sequence, 0);
    if key.None? then b
    else
      var k := key.value;
      var c := if code != 0 then SetCode(b.cards, k, code) else b.cards;
      var b1 := b.(cards := Unlink(c, k));
      var host := GetCard(b1, current.controller, ClearPlace(current), current.sequence, 0);
      if host.None? then b1
      else
        var b2 := RemoveCard(b1, previous.controller, previous.location, previous.sequence);
        if host.value !in b2.cards then b2
        else b2.(cards := SetLocation(AttachMaterial(b2.cards, host.value, k), k, OVERLAY))
  }

  /** The material a move starts from; here the overlay sequence is not read as signed. */
  function MovedMaterial(b: Board, previous: InfoLocation): Option<Key> {
    Material(b.cards, GetCard(b, previous.controller, ClearPlace(previous), previous.sequence, 0), previous.overlaySequence)
  }

  function Detached(b: Board, previous: InfoLocation): Arena
    requires MovedMaterial(b, previous).Some?
  {
    DetachMaterial(b.cards, GetCard(b, previous.controller, ClearPlace(previous), previous.sequence, 0).value, previous.overlaySequence)
  }

  function SetOverlayTarget(cards: Arena, key: Key, host: Option<Key>): Arena {
    if key in cards then cards[key := cards[key].(overlayTarget := host)] else cards
  }

  /** A material goes back to a zone. */
  function MoveFromUnder(b: Board, previous: InfoLocation, current: InfoLocation): Board {
    var key := MovedMaterial(b, previous);
    if key.None? then b
    else
      var c := SetPosition(SetOverlayTarget(Detached(b, previous), key.value, None), key.value, current.position);
      AddCard(b.(cards := c), key.value, current.controller, current.location, current.sequence)
  }

  /** A material goes under another host. */
  function MoveBetween(b: Board, previous: InfoLocation, current: InfoLocation): Board {
    var host := GetCard(b, current.controller, ClearPlace(current), current.sequence, 0);
    var key := MovedMaterial(b, previous);
    if host.None? || key.None? then b
    else
      var c := Detached(b, previous);
      if host.value !in c then b.(cards := c) else b.(cards := AttachMaterial(c, host.value, key.value))
  }

  function MoveStep(b: Board, code: U32, previous: InfoLocation, current: InfoLocation): Board {
    if previous.location == LIMBO then MoveIn(b, code, current)
    else if current.location == LIMBO then MoveOut(b, code, previous)
    else if !previous.location.overlay && !current.location.overlay then MoveAcross(b, code, previous, current)
    else if !previous.location.overlay then MoveUnder(b, code, previous, current)
    else if !current.location.overlay then MoveFromUnder(b, previous, current)
    else MoveBetween(b, previous, current)
  }

  // ---------- other messages ----------

  function PositionChangeStep(b: Board, code: U32, at: CardPosition, before: bv8, after: bv8): Board {
    var key := GetCard(b, at.controller, at.location, at.sequence, 0);
    if key.None? then b
    else
      var c := if before & FACEUP != 0 && after & FACEDOWN != 0 then ClearTargets(b.cards, key.value) else b.cards;
      var c1 := if code != 0 then SetCode(c, key.value, code) else c;
      b.(cards := SetPosition(c1, key.value, after))
  }

  function SwapStep(b: Board, at1: InfoLocation, at2: InfoLocation): Board {
    var first := GetInfo(b, at1);
    var second := GetInfo(b, at2);
    if first.None? || second.None? then b
    else
      var b1 := RemoveCard(b, at1.controller, at1.location, at1.sequence);
      var b2 := RemoveCard(b1, at2.controller, at2.location, at2.sequence);
      var b3 := AddCard(b2, first.value, at2.controller, at2.location, at2.sequence);
      AddCard(b3, second.value, at1.controller, at1.location, at1.sequence)
  }

  function FlipStep(b: Board, code: U32, at: InfoLocation): Board {
    var key := GetInfo(b, at);
    if key.None? then b
    else b.(cards := SetPosition(SetCode(b.cards, key.value, code), key.value, at.position))
  }

  function EquipStep(b: Board, at1: InfoLocation, at2: InfoLocation): Board {
    var key := GetInfo(b, at1);
    var target := GetInfo(b, at2);
    if key.None? || target.None? then b
    else b.(cards := AddEquipped(SetEquipTarget(ReleaseEquip(b.cards, key.value), key.value, target), target.value, key.value))
  }

  function UnequipStep(b: Board, at: InfoLocation): Board {
    var key := GetInfo(b, at);
    if key.None? then b else b.(cards := ReleaseEquip(b.cards, key.value))
  }

  function TargetStep(b: Board, at1: InfoLocation, at2: InfoLocation, add: bool): Board {
    var key := GetInfo(b, at1);
    var target := GetInfo(b, at2);
    if key.None? || target.None? then b
    else b.(cards := if add then AddTarget(b.cards, key.value, target.value) else DropTarget(b.cards, key.value, target.value))
  }

  // ---------- resizing and reloading ----------

  function Distance(a: nat, b: nat): nat { if a < b then b - a else a - b }

  function Grow(b: Board, z: Zone): Board {
    var list := List(b, z);
    var c := SetPlace(b.cards[b.next := BLANK], b.next, z.player, Location(In(z.kind), false), AsU8(|list|));
    SetList(b, z, list + [b.next]).(cards := c, next := b.next + 1)
  }

  function Shrink(b: Board, z: Zone): Board
    requires List(b, z) != []
  {
    var list := List(b, z);
    SetList(b, z, list[..|list| - 1]).(cards := Destroy(b.cards, list[|list| - 1]))
  }

  /** Grows or shrinks a list to `count` cards; each round is one step nearer. */
  function ResizeZone(b: Board, z: Zone, count: nat): Board
    decreases Distance(|List(b, z)|, count)
  {
    var length := |List(b, z)|;
    if length == count then b
    else if length > count then ResizeZone(Shrink(b, z), z, count)
    else ResizeZone(Grow(b, z), z, count)
  }

  function NameList(cards: Arena, list: seq<Key>, codes: seq<U32>): Arena {
    if list == [] || codes == [] then cards
    else NameList(SetCode(cards, list[0], codes[0]), list[1..], codes[1..])
  }

  function TagSwapStep(b: Board, p: Player, mainCount: U8, pendulumCount: U8, topCode: U32, hand: seq<U32>, extra: seq<U32>): Board {
    var b1 := ResizeZone(b, Zone(p, Deck), mainCount);
    var b2 := ResizeZone(b1, Zone(p, Hand), |hand|);
    var b3 := SetPendulum(ResizeZone(b2, Zone(p, Extra), |extra|), p, pendulumCount);
    var deck := List(b3, Zone(p, Deck));
    var c := if deck == [] then b3.cards else SetCode(b3.cards, deck[|deck| - 1], topCode);
    b3.(cards := NameList(NameList(c, List(b3, Zone(p, Hand)), hand), List(b3, Zone(p, Extra)), extra))
  }

  /** `initial` pushes face-down cards without going through `add_card`. */
  function FillInitial(b: Board, z: Zone, count: nat): Board
    decreases count
  {
    if count == 0 then b
    else
      var b1 := Grow(b, z);
      FillInitial(b1.(cards := SetPosition(b1.cards, b.next, FACEDOWN_DEFENSE)), z, count - 1)
  }

  function StartStep(deck1: U16, extra1: U16, deck2: U16, extra2: U16): Board {
    var b1 := FillInitial(FillInitial(Empty(), Zone(First, Deck), deck1), Zone(First, Extra), extra1);
    FillInitial(FillInitial(b1, Zone(Second, Deck), deck2), Zone(Second, Extra), extra2)
  }

  function CreateIn(b: Board, z: Zone, sequence: U8): Board {
    AddCard(CreateCard(b), b.next, z.player, Location(In(z.kind), false), sequence)
  }

  function AddMaterials(b: Board, host: Key, p: Player, count: nat): Board
    decreases count
  {
    if count == 0 || host !in b.cards then b
    else AddMaterials(CreateMaterial(b, host, Some(p)), host, p, count - 1)
  }

  function LoadMonsters(b: Board, p: Player, mzone: seq<MonsterSlot>, i: nat): Board
    requires i <= |mzone| <= 7
    decreases |mzone| - i
  {
    if i == |mzone| then b
    else if !mzone[i].occupied then LoadMonsters(b, p, mzone, i + 1)
    else
      var b1 := CreateIn(b, Zone(p, MZone), i);
      var b2 := b1.(cards := SetPosition(b1.cards, b.next, mzone[i].position));
      LoadMonsters(AddMaterials(b2, b.next, p, mzone[i].xyzCount), p, mzone, i + 1)
  }

  function LoadSpells(b: Board, p: Player, szone: seq<SpellSlot>, i: nat): Board
    requires i <= |szone| <= 8
    decreases |szone| - i
  {
    if i == |szone| then b
    else if !szone[i].occupied then LoadSpells(b, p, szone, i + 1)
    else
      var b1 := CreateIn(b, Zone(p, SZone), i);
      LoadSpells(b1.(cards := SetPosition(b1.cards, b.next, szone[i].position)), p, szone, i + 1)
  }

  function LoadList(b: Board, z: Zone, count: U8, i: nat): Board
    requires i <= count
    decreases count - i
  {
    if i == count then b else LoadList(CreateIn(b, z, i), z, count, i + 1)
  }

  datatype ListCount = ListCount(kind: Kind, count: U8)

  function LoadLists(b: Board, p: Player, counts: seq<ListCount>): Board
    decreases counts
  {
    if counts == [] then b
    else LoadLists(LoadList(b, Zone(p, counts[0].kind), counts[0].count, 0), p, counts[1..])
  }

  /** The lists of a player in the order they are loaded. */
  function ListCounts(f: PlayerField): seq<ListCount> {
    [ListCount(Deck, f.mainCount), ListCount(Hand, f.handCount), ListCount(Grave, f.graveCount),
     ListCount(Removed, f.removeCount), ListCount(Extra, f.extraCount)]
  }

  function LoadPlayer(b: Board, p: Player, f: PlayerField): Board {
    var b1 := LoadSpells(LoadMonsters(b, p, f.mzone, 0), p, f.szone, 0);
    SetPendulum(LoadLists(b1, p, ListCounts(f)), p, f.pendulumCount)
  }

  // ---------- evolution ----------

  /** `Field::evolve`. */
  function Step(b: Board, m: Message): Board {
    match m
    case Start(deck1, extra1, deck2, extra2) => StartStep(deck1, extra1, deck2, extra2)
    case UpdateData(p, location, infos) => UpdateZone(b, p, location, infos, 0)
    case UpdateCard(at, info) =>
      var key := GetCard(b, at.controller, at.location, at.sequence, 0);
      if key.None? then b else UpdateCardInfo(b, key.value, info)
    case SwapGraveDeck(p) => SwapGraveDeckStep(b, p)
    case ShuffleSetCard(where, olds, news) => ShuffleSetCardStep(b, where, olds, news)
    case ReverseDeck => ReverseDeckOf(ReverseDeckOf(b, First), Second).(deckReversed := !b.deckReversed)
    case ConfirmExtraTop(p, codes) => ConfirmExtraTopStep(b, p, codes)
    case Move(code, previous, current) => MoveStep(b, code, previous, current)
    case PositionChange(code, at, before, after) => PositionChangeStep(b, code, at, before, after)
    case Swap(at1, at2) => SwapStep(b, at1, at2)
    case FlipSummoning(code, at) => FlipStep(b, code, at)
    case Draw(p, codes) => DrawStep(b, p, codes)
    case Equip(at1, at2) => EquipStep(b, at1, at2)
    case Unequip(at) => UnequipStep(b, at)
    case CardTarget(at1, at2) => TargetStep(b, at1, at2, true)
    case CancelTarget(at1, at2) => TargetStep(b, at1, at2, false)
    case TagSwap(p, mainCount, pendulumCount, topCode, hand, extra) =>
      TagSwapStep(b, p, mainCount, pendulumCount, topCode, hand, extra)
    case ReloadField(player1, player2) => LoadPlayer(LoadPlayer(Empty(), First, player1), Second, player2)
  }

  function Run(b: Board, ms: seq<Message>): Board
    decreases ms
  {
    if ms == [] then b else Run(Step(b, ms[0]), ms[1..])
  }
}
