/**
Which game messages are legal on a field. That every legal message keeps the field's
invariant is proved in `Runs`.

The duel engine only sends messages that fit the board. `Legal` writes down how
much of that the field relies on; each clause is decided by the board before the
message is applied.
*/
module Evolution {
  import opened Options
  import opened Board

  // ---------- legality ----------

  /** No list grows beyond this, which keeps every sequence number, and the next one, within eight bits. */
  const MAX_LIST := 0xff

  /** A free place for `mover` once it has left the place it is in. */
  ghost predicate Room(b: Board, mover: Option<Key>, p: Player, location: Location, sequence: U8) {
    && location.base.In? && !location.overlay
    && var z := Zone(p, location.base.kind);
       if IsSlots(z.kind)
       then sequence < |SlotsIn(b.zones, z)| && (Cell(b, z, sequence).None? || Cell(b, z, sequence) == mover)
       else |List(b, z)| < MAX_LIST || (mover.Some? && mover.value in List(b, z))
  }

  /** Nothing hangs on `key`: it has no materials and no card is equipped to it. */
  ghost predicate Bare(b: Board, key: Key) {
    key in b.cards && b.cards[key].overlayed == [] && forall a :: a in b.cards ==> b.cards[a].equipTarget != Some(key)
  }

  ghost predicate LegalMove(b: Board, previous: InfoLocation, current: InfoLocation) {
    if previous.location == LIMBO then Room(b, None, current.controller, current.location, current.sequence)
    else if current.location == LIMBO then true
    else if !previous.location.overlay && !current.location.overlay then
      var mover := GetCard(b, previous.controller, previous.location, previous.sequence, 0);
      mover.Some? ==> Room(b, mover, current.controller, current.location, current.sequence)
    else if !previous.location.overlay then
      var mover := GetCard(b, previous.controller, previous.location, previous.sequence, 0);
      var host := GetCard(b, current.controller, ClearPlace(current), current.sequence, 0);
      mover.Some? && host.Some? ==> mover != host && Bare(b, mover.value)
    else if !current.location.overlay then
      MovedMaterial(b, previous).Some? ==> Room(b, None, current.controller, current.location, current.sequence)
    else true
  }

  ghost predicate LegalQuery(query: Query) {
    query.EquipCard? ==> !query.at.location.overlay
  }

  ghost predicate LegalInfo(info: UpdateInfo) {
    info.Some? ==> forall i :: 0 <= i < |info.value| ==> LegalQuery(info.value[i])
  }

  function ExtraTypes(cards: Arena, list: seq<Key>): nat {
    if list == [] then 0 else (if IsExtraDeckType(cards, list[0]) then 1 else 0) + ExtraTypes(cards, list[1..])
  }

  ghost predicate OccupiedSlot(b: Board, at: InfoLocation) {
    && !at.location.overlay && at.location.base.In? && IsSlots(at.location.base.kind)
    && GetInfo(b, at).Some?
  }

  /** Distinct occupied slots of one player, and new positions that are distinct members of them. */
  ghost predicate LegalShuffle(b: Board, kind: Kind, p: Player, olds: seq<InfoLocation>, news: seq<InfoLocation>)
    requires IsSlots(kind)
  {
    && |news| <= |olds|
    && (forall i :: 0 <= i < |olds| ==> olds[i].controller == p && SlotAt(b, kind, olds[i]).Some?)
    && (forall i, j :: 0 <= i < j < |olds| ==> olds[i].sequence != olds[j].sequence)
    && (forall i :: 0 <= i < |news| && news[i].location != LIMBO ==>
          news[i].controller == p && exists j :: 0 <= j < |olds| && olds[j].sequence == news[i].sequence)
    && (forall i, j :: 0 <= i < j < |news| && news[i].location != LIMBO && news[j].location != LIMBO ==>
          news[i].sequence != news[j].sequence)
  }

  ghost predicate Legal(b: Board, m: Message) {
    match m
    case Start(deck1, extra1, deck2, extra2) =>
      deck1 <= MAX_LIST && extra1 <= MAX_LIST && deck2 <= MAX_LIST && extra2 <= MAX_LIST
    case UpdateData(_, location, infos) => !location.overlay && forall i :: 0 <= i < |infos| ==> LegalInfo(infos[i])
    case UpdateCard(at, info) => !at.location.overlay && LegalInfo(info)
    case SwapGraveDeck(p) =>
      |List(b, Zone(p, Grave))| <= MAX_LIST && |List(b, Zone(p, Extra))| + ExtraTypes(b.cards, List(b, Zone(p, Grave))) <= MAX_LIST
    case ShuffleSetCard(where, olds, news) => exists p :: LegalShuffle(b, ShuffleKind(where), p, olds, news)
    case Move(_, previous, current) => LegalMove(b, previous, current)
    case Swap(at1, at2) => OccupiedSlot(b, at1) && OccupiedSlot(b, at2)
    case Draw(p, codes) => |List(b, Zone(p, Hand))| + Min(|codes|, |List(b, Zone(p, Deck))|) <= MAX_LIST
    case Equip(at1, at2) => !at1.location.overlay && !at2.location.overlay
    case TagSwap(_, _, _, _, hand, extra) => |hand| <= MAX_LIST && |extra| <= MAX_LIST
    case _ => true
  }

  ghost predicate LegalRun(b: Board, ms: seq<Message>)
    decreases ms
  {
    ms == [] || (Legal(b, ms[0]) && LegalRun(Step(b, ms[0]), ms[1..]))
  }
}
