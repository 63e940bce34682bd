/** What the update messages make of the code, type and position of a card. */
module Faces {
  // A message tells the new face of a card from its old one and from where the card lies, so whether a
  // card turns into or out of a face-up pendulum card is known before the message is applied.

  import opened Options
  import opened Board
  import opened Placement
  import opened Evolution
  import opened Moves
  import opened Updates

  datatype Face = Face(code: U32, position: bv8, cardType: bv32)

  function FaceOf(c: Card): Face { Face(c.code, c.position, c.cardType) }

  predicate FaceupPendulum(f: Face) { f.position & 0x05 != 0 && f.cardType & 0x100_0000 != 0 }

  // ---------- the face a message gives ----------

  /** Four fields of a record touch the face; a cleared card, or one of code zero, has no type. */
  function FaceAfterQuery(f: Face, query: Query): Face {
    match query
    case Clear => f.(cardType := NO_TYPE)
    case Code(code) => if code == 0 then f.(code := 0, cardType := NO_TYPE) else f.(code := code)
    case Position(position) => f.(position := position)
    case Type(cardType) => f.(cardType := cardType)
    case _ => f
  }

  function FaceAfterQueries(f: Face, queries: seq<Query>): Face
    decreases queries
  {
    if queries == [] then f else FaceAfterQueries(FaceAfterQuery(f, queries[0]), queries[1..])
  }

  function FaceAfterInfo(f: Face, info: UpdateInfo): Face {
    if info.None? then f else FaceAfterQueries(f, info.value)
  }

  /** The records from `i` on that are addressed to index `j`; an address is a record's number in eight bits. */
  function FaceAfterInfos(f: Face, infos: seq<UpdateInfo>, i: nat, j: nat): Face
    requires i <= |infos|
    decreases |infos| - i
  {
    if i == |infos| then f
    else FaceAfterInfos(if AsU8(i) == j then FaceAfterInfo(f, infos[i]) else f, infos, i + 1, j)
  }

  predicate Addresses(p: Player, location: Location, z: Zone) { p == z.player && location == Location(In(z.kind), false) }

  /** The face after the message of a card that lies at index `j` of zone `z` with face `f`. */
  function FaceUnder(m: Message, z: Zone, j: nat, f: Face): Face {
    match m
    case UpdateData(p, location, infos) => if Addresses(p, location, z) then FaceAfterInfos(f, infos, 0, j) else f
    case UpdateCard(at, info) => if Addresses(at.controller, at.location, z) && at.sequence == j then FaceAfterInfo(f, info) else f
    case PositionChange(code, at, _, after) =>
      if Addresses(at.controller, at.location, z) && at.sequence == j then f.(position := after, code := if code != 0 then code else f.code) else f
    case FlipSummoning(code, at) =>
      if Addresses(at.controller, at.location, z) && at.sequence == j then f.(position := at.position, code := code) else f
    case _ => f
  }

  ghost predicate UpdatesCards(m: Message) { m.UpdateData? || m.UpdateCard? || m.PositionChange? || m.FlipSummoning? }

  // ---------- one record ----------

  ghost predicate HasFace(b: Board, x: Key, f: Face) { OnBoard(b, x) && FaceOf(b.cards[x]) == f }

  lemma {:induction false} TargetsFace(b: Board, key: Key, positions: seq<CardPosition>, x: Key, f: Face)
    requires HasFace(b, x, f)
    ensures HasFace(AddTargets(b, key, positions), x, f)
    decreases positions
  {
    hide GetCard;
    if positions != [] {
      var found := GetPosition(b, positions[0]);
      TargetsFace(if found.None? then b else b.(cards := AddTarget(b.cards, key, found.value)), key, positions[1..], x, f);
    }
  }

  lemma {:induction false} NamedFace(b: Board, host: Key, p: Option<Player>, codes: seq<U32>, i: nat, x: Key, f: Face)
    requires Inv(b) && OnBoard(b, host) && i <= |codes| && i <= |b.cards[host].overlayed| && HasFace(b, x, f)
    ensures HasFace(NameMaterials(b, host, p, codes, i), x, f)
    decreases |codes| - i
  {
    hide InvLoose, CreateMaterial, SetCode;
    if i < |codes| {
      var b1 := if i < |b.cards[host].overlayed| then b else CreateMaterial(b, host, p);
      if i == |b.cards[host].overlayed| {
        CreateMaterialKeeps(b, host, p, {});
        MaterialCreated(b, host, p);
        CreatedFace(b, host, p, x, f);
      }
      SetCodeKeeps(b1, b1.cards[host].overlayed[i], codes[i], {});
      NoMaterial(b1, host, i, x);
      CodedFace(b1, b1.cards[host].overlayed[i], codes[i], x, f);
      NamedFace(b1.(cards := SetCode(b1.cards, b1.cards[host].overlayed[i], codes[i])), host, p, codes, i + 1, x, f);
    }
  }

  lemma CreatedFace(b: Board, host: Key, p: Option<Player>, x: Key, f: Face)
    requires Inv(b) && OnBoard(b, host) && HasFace(b, x, f)
    ensures HasFace(CreateMaterial(b, host, p), x, f)
  {
    assert b.next !in b.cards;
  }

  lemma NoMaterial(b: Board, host: Key, i: nat, x: Key)
    requires Inv(b) && host in b.cards && i < |b.cards[host].overlayed| && OnBoard(b, x)
    ensures b.cards[host].overlayed[i] != x
  {
    MaterialAt(b.cards, host, i);
  }

  lemma CodedFace(b: Board, key: Key, code: U32, x: Key, f: Face)
    requires HasFace(b, x, f) && key != x
    ensures HasFace(b.(cards := SetCode(b.cards, key, code)), x, f)
  {
  }

  lemma MaterialsFace(b: Board, host: Key, codes: seq<U32>, x: Key, f: Face)
    requires Inv(b) && OnBoard(b, host) && HasFace(b, x, f)
    ensures HasFace(UpdateOverlayCards(b, host, codes), x, f)
  {
    hide InvLoose, NameMaterials, DropMaterials, Kept;
    var p := b.cards[host].controller;
    var b1 := NameMaterials(b, host, p, codes, 0);
    NameMaterialsKeep(b, host, p, codes, 0);
    NamedFace(b, host, p, codes, 0, x, f);
    var all := b1.cards[host].overlayed;
    assert all == all[..|codes|] + all[|codes|..];
    DroppedFace(b1, host, all[..|codes|], all[|codes|..], x, f);
    assert Kept(b1.cards, host, all[..|codes|]) == b1.cards[host := b1.cards[host].(overlayed := all[..|codes|])] by { KeptIs(b1.cards, host, all[..|codes|]); }
  }

  lemma KeptIs(cards: Arena, host: Key, kept: seq<Key>)
    requires host in cards
    ensures Kept(cards, host, kept) == cards[host := cards[host].(overlayed := kept)]
  {
  }

  lemma {:induction false} DroppedFace(b: Board, host: Key, kept: seq<Key>, dropped: seq<Key>, x: Key, f: Face)
    requires Inv(b) && SplitMaterials(b.cards, host, kept, dropped) && HasFace(b, x, f)
    ensures HasFace(b.(cards := DropMaterials(Kept(b.cards, host, kept), dropped)), x, f)
  {
    KeptEffect(b.cards, host, kept, dropped);
    SplitFacts(b.cards, host, kept, dropped);
    hide DropMaterials, Kept;
  }

  lemma QueryFace(b: Board, key: Key, query: Query, x: Key, f: Face)
    requires Inv(b) && OnBoard(b, key) && HasFace(b, x, f) && LegalQuery(query)
    ensures HasFace(ApplyQuery(b, key, query), x, if x == key then FaceAfterQuery(f, query) else f)
  {
    hide InvLoose, UpdateOverlayCards, AddTargets, GetCard;
    match query
    case TargetCard(targets) => TargetsFace(b, key, targets, x, f);
    case OverlayCard(codes) => MaterialsFace(b, key, codes, x, f);
    case _ =>
  }

  lemma {:induction false} QueriesFace(b: Board, key: Key, queries: seq<Query>, x: Key, f: Face)
    requires Inv(b) && OnBoard(b, key) && HasFace(b, x, f) && forall i :: 0 <= i < |queries| ==> LegalQuery(queries[i])
    ensures HasFace(ApplyQueries(b, key, queries), x, if x == key then FaceAfterQueries(f, queries) else f)
    decreases queries
  {
    hide InvLoose, ApplyQuery, FaceAfterQuery, HasFace, LegalQuery;
    if queries != [] {
      var g := if x == key then FaceAfterQuery(f, queries[0]) else f;
      ApplyQueryKeeps(b, key, queries[0]);
      QueryFace(b, key, queries[0], x, f);
      QueriesFace(ApplyQuery(b, key, queries[0]), key, queries[1..], x, g);
    }
  }

  // ---------- zones stay ----------

  ghost predicate SameBoard(b: Board, r: Board) { r.zones == b.zones && r.pendulum == b.pendulum }

  lemma {:induction false} AddTargetsBoard(b: Board, key: Key, positions: seq<CardPosition>)
    ensures SameBoard(b, AddTargets(b, key, positions))
    decreases positions
  {
    if positions != [] {
      var target := GetPosition(b, positions[0]);
      AddTargetsBoard(if target.None? then b else b.(cards := AddTarget(b.cards, key, target.value)), key, positions[1..]);
    }
  }

  lemma {:induction false} NameMaterialsBoard(b: Board, host: Key, p: Option<Player>, codes: seq<U32>, i: nat)
    requires host in b.cards && i <= |codes| && i <= |b.cards[host].overlayed|
    ensures SameBoard(b, NameMaterials(b, host, p, codes, i))
    decreases |codes| - i
  {
    if i < |codes| {
      var b1 := if i < |b.cards[host].overlayed| then b else CreateMaterial(b, host, p);
      var b2 := b1.(cards := SetCode(b1.cards, b1.cards[host].overlayed[i], codes[i]));
      NameMaterialsBoard(b2, host, p, codes, i + 1);
    }
  }

  lemma {:induction false} ApplyQueriesBoard(b: Board, key: Key, queries: seq<Query>)
    ensures SameBoard(b, ApplyQueries(b, key, queries))
    decreases queries
  {
    if queries != [] {
      var q := queries[0];
      if q.TargetCard? { AddTargetsBoard(b, key, q.targets); }
      if q.OverlayCard? && key in b.cards { NameMaterialsBoard(b, key, b.cards[key].controller, q.codes, 0); }
      assert SameBoard(b, ApplyQuery(b, key, q));
      ApplyQueriesBoard(ApplyQuery(b, key, q), key, queries[1..]);
    }
  }

  // ---------- whole messages ----------

  lemma CellOnBoard(b: Board, z: Zone, j: nat, x: Key)
    requires Inv(b) && Cell(b, z, j) == Some(x)
    ensures OnBoard(b, x)
    ensures forall y: Zone, i: nat :: Cell(b, y, i) == Some(x) ==> y == z && i == j
  {
    assert At(b.cards[x], z, j);
  }

  /** An address without overlay names the card only if it is the card's own. */
  lemma AddressedFace(b: Board, p: Player, location: Location, sequence: U8, z: Zone, j: nat, x: Key)
    requires Inv(b) && Cell(b, z, j) == Some(x) && !location.overlay
    ensures GetCard(b, p, location, sequence, 0) == Some(x) <==> Addresses(p, location, z) && sequence == j
  {
    CellOnBoard(b, z, j, x);
    hide InvLoose, Cell;
  }

  lemma InfoFace(b: Board, p: Player, location: Location, sequence: U8, info: UpdateInfo, z: Zone, j: nat, x: Key, f: Face)
    requires Inv(b) && !location.overlay && LegalInfo(info) && Cell(b, z, j) == Some(x) && HasFace(b, x, f)
    ensures var found := GetCard(b, p, location, sequence, 0);
      var r := if found.None? then b else UpdateCardInfo(b, found.value, info);
      && Inv(r) && SameBoard(b, r)
      && HasFace(r, x, if Addresses(p, location, z) && sequence == j then FaceAfterInfo(f, info) else f)
  {
    hide InvLoose, ApplyQueries, HasFace, Cell, GetCard, Addresses;
    var found := GetCard(b, p, location, sequence, 0);
    AddressedFace(b, p, location, sequence, z, j, x);
    if found.Some? {
      KnownKey(b, p, location, sequence, 0, found.value);
      ZoneKeyOnBoard(b, p, location, sequence, found.value);
      UpdateCardInfoKeeps(b, p, location, sequence, found.value, info);
      if info.Some? {
        QueriesFace(b, found.value, info.value, x, f);
        ApplyQueriesBoard(b, found.value, info.value);
      }
    }
  }

  lemma ZoneKeyOnBoard(b: Board, p: Player, location: Location, sequence: U8, key: Key)
    requires Inv(b) && !location.overlay && GetCard(b, p, location, sequence, 0) == Some(key)
    ensures OnBoard(b, key)
  {
    CellOnBoard(b, Zone(p, location.base.kind), sequence, key);
  }

  lemma {:induction false} ZoneFace(b: Board, p: Player, location: Location, infos: seq<UpdateInfo>, i: nat, z: Zone, j: nat, x: Key, f: Face)
    requires Inv(b) && !location.overlay && i <= |infos| && forall k :: 0 <= k < |infos| ==> LegalInfo(infos[k])
    requires Cell(b, z, j) == Some(x) && HasFace(b, x, f)
    ensures var r := UpdateZone(b, p, location, infos, i);
      SameBoard(b, r) && HasFace(r, x, if Addresses(p, location, z) then FaceAfterInfos(f, infos, i, j) else f)
    decreases |infos| - i
  {
    hide InvLoose, HasFace, GetCard, Addresses, UpdateCardInfo, LegalInfo, FaceAfterInfo;
    if i < |infos| {
      InfoFace(b, p, location, AsU8(i), infos[i], z, j, x, f);
      var found := GetCard(b, p, location, AsU8(i), 0);
      var b1 := if found.None? then b else UpdateCardInfo(b, found.value, infos[i]);
      var g := if Addresses(p, location, z) && AsU8(i) == j then FaceAfterInfo(f, infos[i]) else f;
      ZoneFace(b1, p, location, infos, i + 1, z, j, x, g);
    }
  }

  /** The material an overlay address names is none of the cards that lie in a zone. */
  lemma NoZoneCard(b: Board, p: Player, location: Location, sequence: U8, sub: int, z: Zone, j: nat, x: Key)
    requires Inv(b) && location.overlay && Cell(b, z, j) == Some(x)
    ensures GetCard(b, p, location, sequence, sub) != Some(x)
  {
    CellOnBoard(b, z, j, x);
    var host := if location.base.In? then Cell(b, Zone(p, location.base.kind), sequence) else None;
    var i := AtLeast0(sub);
    if host.Some? && host.value in b.cards && i < |b.cards[host.value].overlayed| {
      MaterialAt(b.cards, host.value, i);
    }
    hide InvLoose;
  }

  lemma PositionFace(b: Board, code: U32, at: CardPosition, before: bv8, after: bv8, z: Zone, j: nat, x: Key, f: Face)
    requires Inv(b) && Cell(b, z, j) == Some(x) && HasFace(b, x, f)
    ensures var r := PositionChangeStep(b, code, at, before, after);
      && SameBoard(b, r)
      && HasFace(r, x, if Addresses(at.controller, at.location, z) && at.sequence == j
                       then f.(position := after, code := if code != 0 then code else f.code) else f)
  {
    hide InvLoose, GetCard, Cell, Addresses, ForgetTargets;
    if at.location.overlay {
      NoZoneCard(b, at.controller, at.location, at.sequence, 0, z, j, x);
      NotAddressed(at.controller, at.location, z);
    } else {
      AddressedFace(b, at.controller, at.location, at.sequence, z, j, x);
    }
    var key := GetCard(b, at.controller, at.location, at.sequence, 0);
    if key.Some? { ClearedFace(b.cards, key.value, x); }
    hide ClearTargets;
  }

  lemma ClearedFace(cards: Arena, key: Key, x: Key)
    requires x in cards
    ensures var r := ClearTargets(cards, key); x in r && FaceOf(r[x]) == FaceOf(cards[x]) && r[x].overlayTarget == cards[x].overlayTarget
  {
  }

  lemma FlipFace(b: Board, code: U32, at: InfoLocation, z: Zone, j: nat, x: Key, f: Face)
    requires Inv(b) && Cell(b, z, j) == Some(x) && HasFace(b, x, f)
    ensures var r := FlipStep(b, code, at);
      && SameBoard(b, r)
      && HasFace(r, x, if Addresses(at.controller, at.location, z) && at.sequence == j then f.(position := at.position, code := code) else f)
  {
    hide InvLoose, GetCard, Cell, Addresses;
    if at.location.overlay {
      NoZoneCard(b, at.controller, at.location, at.sequence, AsI8(at.overlaySequence), z, j, x);
      NotAddressed(at.controller, at.location, z);
    } else {
      AddressedFace(b, at.controller, at.location, at.sequence, z, j, x);
      SubIgnored(b, at);
    }
  }

  lemma NotAddressed(p: Player, location: Location, z: Zone)
    requires location.overlay
    ensures !Addresses(p, location, z)
  {
  }

  lemma SubIgnored(b: Board, at: InfoLocation)
    requires !at.location.overlay
    ensures GetInfo(b, at) == GetCard(b, at.controller, at.location, at.sequence, 0)
  {
  }

  /** Every card in a zone ends an update with the face the message tells, at the place where it was. */
  lemma UpdateGivesFaces(b: Board, m: Message, z: Zone, j: nat, x: Key)
    requires Inv(b) && Legal(b, m) && UpdatesCards(m) && Cell(b, z, j) == Some(x)
    ensures var r := Step(b, m);
      && SameBoard(b, r) && x in b.cards && x in r.cards
      && FaceOf(r.cards[x]) == FaceUnder(m, z, j, FaceOf(b.cards[x]))
  {
    CellOnBoard(b, z, j, x);
    hide InvLoose, GetCard, Cell, UpdateZone, LegalInfo, UpdateCardInfo, PositionChangeStep, FlipStep;
    var f := FaceOf(b.cards[x]);
    match m
    case UpdateData(p, location, infos) => ZoneFace(b, p, location, infos, 0, z, j, x, f);
    case UpdateCard(at, info) => InfoFace(b, at.controller, at.location, at.sequence, info, z, j, x, f);
    case PositionChange(code, at, before, after) => PositionFace(b, code, at, before, after, z, j, x, f);
    case FlipSummoning(code, at) => FlipFace(b, code, at, z, j, x, f);
  }
}
