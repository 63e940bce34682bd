/**
Card queries and the messages that change a card where it lies: its records, its position and
the relations it takes part in.
*/
module Updates {
  import opened Options
  import opened Board
  import opened Placement
  import opened Evolution
  import opened Moves

  /** A live card in a zone. */
  ghost predicate OnBoard(b: Board, key: Key) { key in b.cards && b.cards[key].overlayTarget.None? }

  // ---------- queries ----------

  lemma {:induction false} AddTargetsKeep(b: Board, key: Key, positions: seq<CardPosition>)
    requires Inv(b) && OnBoard(b, key)
    ensures Inv(AddTargets(b, key, positions)) && OnBoard(AddTargets(b, key, positions), key)
    ensures StaysExact(b.cards, AddTargets(b, key, positions).cards)
    decreases positions
  {
    hide InvLoose, Numbered, EquipsExact, GetCard;
    if positions != [] {
      var at := positions[0];
      var found := GetPosition(b, at);
      var b1 := if found.None? then b else b.(cards := AddTarget(b.cards, key, found.value));
      if found.Some? {
        KnownKey(b, at.controller, at.location, at.sequence, at.sub, found.value);
        AddTargetKeeps(b, key, found.value, {});
      }
      AddTargetsKeep(b1, key, positions[1..]);
    }
  }

  lemma {:induction false} NameMaterialsKeep(b: Board, host: Key, p: Option<Player>, codes: seq<U32>, i: nat)
    requires Inv(b) && OnBoard(b, host) && i <= |codes| && i <= |b.cards[host].overlayed|
    ensures Inv(NameMaterials(b, host, p, codes, i)) && OnBoard(NameMaterials(b, host, p, codes, i), host)
    ensures StaysEquipped(b.cards, NameMaterials(b, host, p, codes, i).cards)
    ensures |codes| <= 0x100 ==> StaysNumbered(b.cards, NameMaterials(b, host, p, codes, i).cards)
    decreases |codes| - i
  {
    hide InvLoose, Numbered, EquipsExact, CreateMaterial, SetCode;
    if i < |codes| {
      var b1 := if i < |b.cards[host].overlayed| then b else CreateMaterial(b, host, p);
      if i == |b.cards[host].overlayed| {
        CreateMaterialKeeps(b, host, p, {});
        MaterialCreated(b, host, p);
      }
      var c := SetCode(b1.cards, b1.cards[host].overlayed[i], codes[i]);
      SetCodeKeeps(b1, b1.cards[host].overlayed[i], codes[i], {});
      NameMaterialsKeep(b1.(cards := c), host, p, codes, i + 1);
    }
  }

  lemma MaterialCreated(b: Board, host: Key, p: Option<Player>)
    requires Inv(b) && OnBoard(b, host)
    ensures var r := CreateMaterial(b, host, p);
      OnBoard(r, host) && |r.cards[host].overlayed| == |b.cards[host].overlayed| + 1
  {
    CreateMaterialEffect(b, host, p);
  }

  lemma UpdateOverlayCardsKeep(b: Board, host: Key, codes: seq<U32>)
    requires Inv(b) && OnBoard(b, host)
    ensures Inv(UpdateOverlayCards(b, host, codes)) && OnBoard(UpdateOverlayCards(b, host, codes), host)
    ensures StaysEquipped(b.cards, UpdateOverlayCards(b, host, codes).cards)
    ensures |codes| <= 0x100 ==> StaysNumbered(b.cards, UpdateOverlayCards(b, host, codes).cards)
  {
    var b1 := NameMaterials(b, host, b.cards[host].controller, codes, 0);
    NameMaterialsKeep(b, host, b.cards[host].controller, codes, 0);
    var all := b1.cards[host].overlayed;
    assert all == all[..|codes|] + all[|codes|..];
    DropMaterialsKeeps(b1, host, all[..|codes|], all[|codes|..], {});
    KeptEffect(b1.cards, host, all[..|codes|], all[|codes|..]);
    hide InvLoose, Numbered, EquipsExact, NameMaterials, DropMaterials;
  }

  /** The card is not equipped to anything else. */
  ghost predicate NoRetarget(b: Board, key: Key, target: Option<Key>) {
    key in b.cards && target.Some? ==> b.cards[key].equipTarget.None? || b.cards[key].equipTarget == target
  }

  ghost predicate EquipSafeQuery(b: Board, key: Key, query: Query) {
    query.EquipCard? ==> NoRetarget(b, key, GetPosition(b, query.at))
  }

  ghost predicate NumberSafeQuery(query: Query) {
    query.OverlayCard? ==> |query.codes| <= 0x100
  }

  lemma ApplyQueryKeeps(b: Board, key: Key, query: Query)
    requires Inv(b) && OnBoard(b, key) && LegalQuery(query)
    ensures Inv(ApplyQuery(b, key, query)) && OnBoard(ApplyQuery(b, key, query), key)
    ensures EquipSafeQuery(b, key, query) ==> StaysEquipped(b.cards, ApplyQuery(b, key, query).cards)
    ensures NumberSafeQuery(query) ==> StaysNumbered(b.cards, ApplyQuery(b, key, query).cards)
  {
    hide UpdateOverlayCards, AddTargets, InvLoose, Numbered, EquipsExact, GetCard;
    match query
    case Clear =>
      FrameType(b.cards, key, NO_TYPE);
      SameLinksKeep(b, SetType(b.cards, key, NO_TYPE), {});
    case Code(code) =>
      var c := if code == 0 then ClearCard(b.cards, key) else b.cards;
      FrameType(b.cards, key, NO_TYPE);
      SameLinksKeep(b, c, {});
      SetCodeKeeps(b.(cards := c), key, code, {});
    case Position(position) => SetPositionKeeps(b, key, position, {});
    case Type(cardType) =>
      FrameType(b.cards, key, cardType);
      SameLinksKeep(b, SetType(b.cards, key, cardType), {});
    case EquipCard(at) =>
      var found := GetPosition(b, at);
      if found.Some? {
        KnownKey(b, at.controller, at.location, at.sequence, at.sub, found.value);
        EquipKeeps(b, key, found.value, {});
      }
    case TargetCard(targets) => AddTargetsKeep(b, key, targets);
    case OverlayCard(codes) => UpdateOverlayCardsKeep(b, key, codes);
    case Inert =>
  }

  ghost predicate EquipSafeQueries(b: Board, key: Key, queries: seq<Query>)
    decreases queries
  {
    queries == [] || (EquipSafeQuery(b, key, queries[0]) && EquipSafeQueries(ApplyQuery(b, key, queries[0]), key, queries[1..]))
  }

  ghost predicate NumberSafeInfo(info: UpdateInfo) {
    info.Some? ==> forall i :: 0 <= i < |info.value| ==> NumberSafeQuery(info.value[i])
  }

  lemma {:induction false} ApplyQueriesKeep(b: Board, key: Key, queries: seq<Query>)
    requires Inv(b) && OnBoard(b, key) && forall i :: 0 <= i < |queries| ==> LegalQuery(queries[i])
    ensures Inv(ApplyQueries(b, key, queries))
    ensures EquipSafeQueries(b, key, queries) ==> StaysEquipped(b.cards, ApplyQueries(b, key, queries).cards)
    ensures NumberSafeInfo(Some(queries)) ==> StaysNumbered(b.cards, ApplyQueries(b, key, queries).cards)
    decreases queries
  {
    hide InvLoose, Numbered, EquipsExact, ApplyQuery, EquipSafeQuery, NumberSafeQuery;
    if queries != [] {
      ApplyQueryKeeps(b, key, queries[0]);
      ApplyQueriesKeep(ApplyQuery(b, key, queries[0]), key, queries[1..]);
    }
  }

  ghost predicate EquipSafeInfo(b: Board, key: Key, info: UpdateInfo) {
    info.Some? ==> EquipSafeQueries(b, key, info.value)
  }

  lemma UpdateCardInfoKeeps(b: Board, p: Player, location: Location, sequence: U8, key: Key, info: UpdateInfo)
    requires Inv(b) && !location.overlay && GetCard(b, p, location, sequence, 0) == Some(key) && LegalInfo(info)
    ensures Inv(UpdateCardInfo(b, key, info))
    ensures EquipSafeInfo(b, key, info) ==> StaysEquipped(b.cards, UpdateCardInfo(b, key, info).cards)
    ensures NumberSafeInfo(info) ==> StaysNumbered(b.cards, UpdateCardInfo(b, key, info).cards)
  {
    KnownKey(b, p, location, sequence, 0, key);
    hide InvLoose, Numbered, EquipsExact, ApplyQueries, EquipSafeQueries;
    if info.Some? { ApplyQueriesKeep(b, key, info.value); }
  }

  /** No record of the update re-targets a card that is equipped to another one. */
  ghost predicate EquipSafeZone(b: Board, p: Player, location: Location, infos: seq<UpdateInfo>, i: nat)
    requires i <= |infos|
    decreases |infos| - i
  {
    i == |infos| ||
    var key := GetCard(b, p, location, AsU8(i), 0);
    && (key.Some? ==> EquipSafeInfo(b, key.value, infos[i]))
    && EquipSafeZone(if key.None? then b else UpdateCardInfo(b, key.value, infos[i]), p, location, infos, i + 1)
  }

  lemma {:induction false} UpdateZoneKeeps(b: Board, p: Player, location: Location, infos: seq<UpdateInfo>, i: nat)
    requires Inv(b) && !location.overlay && i <= |infos|
    requires forall j :: 0 <= j < |infos| ==> LegalInfo(infos[j])
    ensures Inv(UpdateZone(b, p, location, infos, i))
    ensures EquipSafeZone(b, p, location, infos, i) ==> StaysEquipped(b.cards, UpdateZone(b, p, location, infos, i).cards)
    ensures (forall j :: 0 <= j < |infos| ==> NumberSafeInfo(infos[j])) ==>
      StaysNumbered(b.cards, UpdateZone(b, p, location, infos, i).cards)
    decreases |infos| - i
  {
    hide InvLoose, Numbered, EquipsExact, UpdateCardInfo, GetCard, LegalInfo, EquipSafeInfo, NumberSafeInfo;
    if i < |infos| {
      var found := GetCard(b, p, location, AsU8(i), 0);
      var b1 := if found.None? then b else UpdateCardInfo(b, found.value, infos[i]);
      if found.Some? { UpdateCardInfoKeeps(b, p, location, AsU8(i), found.value, infos[i]); }
      UpdateZoneKeeps(b1, p, location, infos, i + 1);
    }
  }

  // ---------- messages about one or two cards ----------

  lemma PositionChangeKeeps(b: Board, code: U32, at: CardPosition, before: bv8, after: bv8)
    requires Inv(b)
    ensures Inv(PositionChangeStep(b, code, at, before, after))
    ensures PositionChangeStep(b, code, at, before, after).cards.Keys == b.cards.Keys
    ensures StaysExact(b.cards, PositionChangeStep(b, code, at, before, after).cards)
  {
    hide InvLoose, Numbered, EquipsExact, GetCard, ClearTargets, SetCode, SetPosition;
    var found := GetCard(b, at.controller, at.location, at.sequence, 0);
    if found.Some? {
      var key := found.value;
      var c := if before & FACEUP != 0 && after & FACEDOWN != 0 then ClearTargets(b.cards, key) else b.cards;
      ClearTargetsKeep(b, key, {});
      var c1 := if code != 0 then SetCode(c, key, code) else c;
      SetCodeKeeps(b.(cards := c), key, code, {});
      SetPositionKeeps(b.(cards := c1), key, after, {});
    }
  }

  lemma FlipKeeps(b: Board, code: U32, at: InfoLocation)
    requires Inv(b)
    ensures Inv(FlipStep(b, code, at)) && FlipStep(b, code, at).cards.Keys == b.cards.Keys
    ensures StaysExact(b.cards, FlipStep(b, code, at).cards)
  {
    hide InvLoose, Numbered, EquipsExact, GetInfo, SetCode, SetPosition;
    var found := GetInfo(b, at);
    if found.Some? {
      SetCodeKeeps(b, found.value, code, {});
      SetPositionKeeps(b.(cards := SetCode(b.cards, found.value, code)), found.value, at.position, {});
    }
  }

  lemma EquipStepKeeps(b: Board, at1: InfoLocation, at2: InfoLocation)
    requires Inv(b) && !at1.location.overlay && !at2.location.overlay
    ensures Inv(EquipStep(b, at1, at2)) && EquipStep(b, at1, at2).cards.Keys == b.cards.Keys
    ensures StaysExact(b.cards, EquipStep(b, at1, at2).cards)
  {
    hide InvLoose, Numbered, EquipsExact, GetCard, ReleaseEquip;
    var found := GetInfo(b, at1);
    var found' := GetInfo(b, at2);
    if found.Some? && found'.Some? {
      var key, target := found.value, found'.value;
      KnownKey(b, at1.controller, at1.location, at1.sequence, AsI8(at1.overlaySequence), key);
      KnownKey(b, at2.controller, at2.location, at2.sequence, AsI8(at2.overlaySequence), target);
      ReleaseEquipKeeps(b, key, {});
      EquipKeeps(b.(cards := ReleaseEquip(b.cards, key)), key, target, {});
    }
  }

  lemma UnequipKeeps(b: Board, at: InfoLocation)
    requires Inv(b)
    ensures Inv(UnequipStep(b, at)) && UnequipStep(b, at).cards.Keys == b.cards.Keys
    ensures StaysExact(b.cards, UnequipStep(b, at).cards)
  {
    hide InvLoose, Numbered, EquipsExact, ReleaseEquip, GetInfo;
    var found := GetInfo(b, at);
    if found.Some? {
      ReleaseEquipKeeps(b, found.value, {});
    }
  }

  lemma TargetStepKeeps(b: Board, at1: InfoLocation, at2: InfoLocation, add: bool)
    requires Inv(b)
    ensures Inv(TargetStep(b, at1, at2, add)) && TargetStep(b, at1, at2, add).cards.Keys == b.cards.Keys
    ensures StaysExact(b.cards, TargetStep(b, at1, at2, add).cards)
  {
    hide InvLoose, Numbered, EquipsExact, GetCard;
    var found := GetInfo(b, at1);
    var found' := GetInfo(b, at2);
    if found.Some? && found'.Some? {
      KnownKey(b, at1.controller, at1.location, at1.sequence, AsI8(at1.overlaySequence), found.value);
      KnownKey(b, at2.controller, at2.location, at2.sequence, AsI8(at2.overlaySequence), found'.value);
      AddTargetKeeps(b, found.value, found'.value, {});
      DropTargetKeeps(b, found.value, found'.value, {});
    }
  }

  lemma {:induction false} NameFromTopFrame(cards: Arena, list: seq<Key>, top: int, codes: seq<U32>, skipZero: bool)
    requires top < |list|
    ensures SameLinks(cards, NameFromTop(cards, list, top, codes, skipZero))
    decreases codes
  {
    if codes == [] || (top < 0 && !(skipZero && codes[0] == 0)) {
    } else if skipZero && codes[0] == 0 {
      NameFromTopFrame(cards, list, top - 1, codes[1..], skipZero);
    } else {
      var c := SetCode(cards, list[top], codes[0]);
      FrameCode(cards, list[top], codes[0]);
      NameFromTopFrame(c, list, top - 1, codes[1..], skipZero);
      LinksChain(cards, c, NameFromTop(c, list, top - 1, codes[1..], skipZero));
    }
  }

  lemma LinksChain(c: Arena, d: Arena, e: Arena)
    requires SameLinks(c, d) && SameLinks(d, e)
    ensures SameLinks(c, e)
  {
  }

  lemma ConfirmExtraTopKeeps(b: Board, p: Player, codes: seq<U32>)
    requires Inv(b)
    ensures Inv(ConfirmExtraTopStep(b, p, codes)) && ConfirmExtraTopStep(b, p, codes).cards.Keys == b.cards.Keys
    ensures StaysExact(b.cards, ConfirmExtraTopStep(b, p, codes).cards)
  {
    hide InvLoose, Numbered, EquipsExact, NameFromTop;
    if PendulumCount(b, p) >= 0 {
      var list := List(b, Zone(p, Extra));
      var c := NameFromTop(b.cards, list, |list| - 1 - PendulumCount(b, p), codes, true);
      NameFromTopFrame(b.cards, list, |list| - 1 - PendulumCount(b, p), codes, true);
      SameLinksKeep(b, c, {});
    }
  }
}
