/** What the records of a card query do. */
module Records {
  // The pairs a target record adds, the equip an equip record sets, and the ties a change of position ends.

  import opened Options
  import opened Board
  import opened Placement
  import opened Moves
  import opened Updates
  import opened Effects
  import opened Ties

  // ---------- addresses ----------

  /** Whether a card lies at one of the positions, on the board as it is. */
  ghost predicate FoundAt(b: Board, positions: seq<CardPosition>, x: Key) {
    exists i :: 0 <= i < |positions| && GetPosition(b, positions[i]) == Some(x)
  }

  /**
  A material is found under its host by its index, as long as the index is no more than 127: the byte is read with a
  sign, and a negative one finds the first material.
  */
  lemma MaterialAddress(b: Board, z: Zone, i: U8, host: Key, at: InfoLocation)
    requires Cell(b, z, i) == Some(host) && host in b.cards && |b.cards[host].overlayed| > 0
    requires at.controller == z.player && at.location == Location(In(z.kind), true) && at.sequence == i
    ensures at.overlaySequence < 0x80 && at.overlaySequence < |b.cards[host].overlayed| ==>
      GetInfo(b, at) == Some(b.cards[host].overlayed[at.overlaySequence])
    ensures at.overlaySequence < 0x80 && at.overlaySequence >= |b.cards[host].overlayed| ==> GetInfo(b, at).None?
    ensures at.overlaySequence >= 0x80 ==> GetInfo(b, at) == Some(b.cards[host].overlayed[0])
    ensures at.overlaySequence < |b.cards[host].overlayed| ==> MovedMaterial(b, at) == Some(b.cards[host].overlayed[at.overlaySequence])
    ensures at.overlaySequence >= |b.cards[host].overlayed| ==> MovedMaterial(b, at).None?
  {
    hide Cell;
  }

  // ---------- target records ----------

  /** The pairs the record adds: from `key` to every card found, and no other. */
  ghost predicate TargetsAdded(b: Board, r: Board, key: Key, positions: seq<CardPosition>) {
    && r == b.(cards := r.cards) && r.cards.Keys == b.cards.Keys && key in b.cards
    && (forall x :: x in r.cards[key].cardTarget <==> x in b.cards[key].cardTarget || FoundAt(b, positions, x))
    && (forall x :: x in b.cards && x != key ==> r.cards[x].cardTarget == b.cards[x].cardTarget)
    && (forall x, y :: x in b.cards ==>
          (y in r.cards[x].ownerTarget <==> y in b.cards[x].ownerTarget || (y == key && FoundAt(b, positions, x))))
    && (forall x :: x in b.cards ==> SameButTargets(b.cards[x], r.cards[x]))
  }

  lemma AddedOne(b: Board, key: Key, target: Key)
    requires key in b.cards && target in b.cards
    ensures var d := AddTarget(b.cards, key, target);
      && d.Keys == b.cards.Keys
      && (forall x :: x in d[key].cardTarget <==> x in b.cards[key].cardTarget || x == target)
      && (forall x :: x in b.cards && x != key ==> d[x].cardTarget == b.cards[x].cardTarget)
      && (forall x, y :: x in b.cards ==> (y in d[x].ownerTarget <==> y in b.cards[x].ownerTarget || (y == key && x == target)))
      && (forall x :: x in b.cards ==> SameButTargets(b.cards[x], d[x]))
  {
  }

  lemma FoundFirst(b: Board, m: Board, positions: seq<CardPosition>)
    requires positions != [] && m.zones == b.zones && m.cards.Keys == b.cards.Keys
    requires forall x :: x in b.cards ==> m.cards[x].overlayed == b.cards[x].overlayed
    ensures forall x :: FoundAt(b, positions, x) <==> GetPosition(b, positions[0]) == Some(x) || FoundAt(m, positions[1..], x)
  {
    hide GetPosition;
    forall x ensures FoundAt(b, positions, x) <==> GetPosition(b, positions[0]) == Some(x) || FoundAt(m, positions[1..], x) {
      forall i | 0 < i < |positions| ensures GetPosition(b, positions[i]) == GetPosition(m, positions[1..][i - 1]) {
        SameAddressOn(b, m, positions[i]);
      }
      if FoundAt(b, positions, x) {
        var i :| 0 <= i < |positions| && GetPosition(b, positions[i]) == Some(x);
        if i > 0 { assert GetPosition(m, positions[1..][i - 1]) == Some(x); }
      }
      if FoundAt(m, positions[1..], x) {
        var i :| 0 <= i < |positions[1..]| && GetPosition(m, positions[1..][i]) == Some(x);
        assert GetPosition(b, positions[i + 1]) == Some(x);
      }
    }
  }

  lemma SameAddressOn(b: Board, m: Board, at: CardPosition)
    requires m.zones == b.zones && m.cards.Keys == b.cards.Keys
    requires forall x :: x in b.cards ==> m.cards[x].overlayed == b.cards[x].overlayed
    ensures GetPosition(m, at) == GetPosition(b, at)
  {
    var host := if at.location.base.In? then Cell(b, Zone(at.controller, at.location.base.kind), at.sequence) else None;
    assert at.location.base.In? ==> Cell(m, Zone(at.controller, at.location.base.kind), at.sequence) == host;
    if host.Some? {
      var h := host.value;
      assert h in b.cards ==> m.cards[h].overlayed == b.cards[h].overlayed;
    }
    assert Material(m.cards, host, AtLeast0(at.sub)) == Material(b.cards, host, AtLeast0(at.sub));
  }

  /** A target record lets the card target exactly the cards it finds, besides those it targets already. */
  lemma {:induction false} TargetRecordAdds(b: Board, key: Key, positions: seq<CardPosition>)
    requires Inv(b) && OnBoard(b, key)
    ensures TargetsAdded(b, AddTargets(b, key, positions), key, positions)
    decreases positions
  {
    hide InvLoose, GetPosition, AddTarget, FoundAt;
    if positions == [] {
      NothingFound(b, key);
    } else {
      var at := positions[0];
      var found := GetPosition(b, at);
      var m := if found.None? then b else b.(cards := AddTarget(b.cards, key, found.value));
      if found.Some? {
        FoundKey(b, at, found.value);
        AddTargetKeeps(b, key, found.value, {});
        AddedOne(b, key, found.value);
      }
      FoundFirst(b, m, positions);
      TargetRecordAdds(m, key, positions[1..]);
      AddedMore(b, m, AddTargets(b, key, positions), key, positions);
    }
  }

  lemma FoundKey(b: Board, at: CardPosition, x: Key)
    requires Inv(b) && GetPosition(b, at) == Some(x)
    ensures x in b.cards
  {
    KnownKey(b, at.controller, at.location, at.sequence, at.sub, x);
  }

  lemma NothingFound(b: Board, key: Key)
    requires key in b.cards
    ensures TargetsAdded(b, b, key, [])
  {
  }

  lemma AddedMore(b: Board, m: Board, r: Board, key: Key, positions: seq<CardPosition>)
    requires key in b.cards && positions != [] && m == b.(cards := m.cards) && m.cards.Keys == b.cards.Keys
    requires var found := GetPosition(b, positions[0]);
      && (forall x :: x in m.cards[key].cardTarget <==> x in b.cards[key].cardTarget || found == Some(x))
      && (forall x :: x in b.cards && x != key ==> m.cards[x].cardTarget == b.cards[x].cardTarget)
      && (forall x, y :: x in b.cards ==> (y in m.cards[x].ownerTarget <==> y in b.cards[x].ownerTarget || (y == key && found == Some(x))))
      && (forall x :: x in b.cards ==> SameButTargets(b.cards[x], m.cards[x]))
    requires forall x :: FoundAt(b, positions, x) <==> GetPosition(b, positions[0]) == Some(x) || FoundAt(m, positions[1..], x)
    requires TargetsAdded(m, r, key, positions[1..])
    ensures TargetsAdded(b, r, key, positions)
  {
    hide GetPosition, FoundAt;
  }

  // ---------- equip records ----------

  /** An equip record sets the target of the card and lists the card there; a former target keeps listing it. */
  lemma EquipRecordSets(b: Board, key: Key, at: CardPosition)
    requires Inv(b) && OnBoard(b, key)
    ensures var r := SetEquipCard(b, key, at);
      var target := GetPosition(b, at);
      && (target.None? ==> r == b)
      && (target.Some? ==>
            && r == b.(cards := r.cards) && r.cards.Keys == b.cards.Keys && r.cards[key].equipTarget == target
            && (forall x :: x in b.cards && x != key ==> r.cards[x].equipTarget == b.cards[x].equipTarget)
            && (forall x :: x in b.cards ==>
                  r.cards[x].equipped == (if target == Some(x) then b.cards[x].equipped + {key} else b.cards[x].equipped)
                  && SameButEquips(b.cards[x], r.cards[x])))
  {
    hide InvLoose, GetPosition;
    if GetPosition(b, at).Some? { FoundKey(b, at, GetPosition(b, at).value); }
  }

  // ---------- changes of position ----------

  /**
  A change of position turns the addressed card and names it unless the code is zero. If it turns from face-up to
  face-down its target pairs end; otherwise no tie does. Equips, places and all other cards stay as they are.
  */
  lemma PositionChangeShows(b: Board, code: U32, at: CardPosition, before: bv8, after: bv8)
    requires Inv(b)
    ensures var r := PositionChangeStep(b, code, at, before, after);
      var found := GetCard(b, at.controller, at.location, at.sequence, 0);
      && (found.None? ==> r == b)
      && (found.Some? ==>
            var key := found.value;
            && r == b.(cards := r.cards) && key in b.cards && r.cards.Keys == b.cards.Keys
            && (if before & 0x05 != 0 && after & 0x0a != 0 then TargetsCut(b.cards, r.cards, key) else TiesStay(b.cards, r.cards))
            && OthersLookTheSame(b.cards, r.cards, key) && r.cards[key].cardType == b.cards[key].cardType
            && r.cards[key].position == after && r.cards[key].code == (if code != 0 then code else b.cards[key].code)
            && forall x :: x in b.cards ==> SamePlaceOf(b.cards[x], r.cards[x]))
  {
    hide InvLoose, GetCard, TargetsCut, TiesStay, OthersLookTheSame, Converse, ClearTargets;
    var found := GetCard(b, at.controller, at.location, at.sequence, 0);
    if found.Some? {
      var key := found.value;
      KnownKey(b, at.controller, at.location, at.sequence, 0, key);
      ConverseOf(b);
      var clear := before & FACEUP != 0 && after & FACEDOWN != 0;
      var c := if clear then ClearTargets(b.cards, key) else b.cards;
      ClearedTies(b.cards, key);
      NothingChanges(b.cards, key);
      ShownTies(b.cards, c, key, code, after, clear);
    }
  }

  predicate SamePlaceOf(c: Card, d: Card) {
    && d.controller == c.controller && d.location == c.location && d.sequence == c.sequence
    && d.overlayTarget == c.overlayTarget && d.overlayed == c.overlayed
  }

  lemma ClearedTies(c: Arena, key: Key)
    requires Converse(c) && key in c
    ensures var d := ClearTargets(c, key);
      && d.Keys == c.Keys && TargetsCut(c, d, key) && OthersLookTheSame(c, d, key)
      && d[key].code == c[key].code && d[key].cardType == c[key].cardType
      && forall x :: x in c ==> SamePlaceOf(c[x], d[x])
  {
    ClearTargetsEffect(c, key);
    hide ClearTargets;
  }

  lemma NothingChanges(c: Arena, key: Key)
    ensures TiesStay(c, c) && OthersLookTheSame(c, c, key) && forall x :: x in c ==> SamePlaceOf(c[x], c[x])
  {
  }

  lemma ShownTies(c0: Arena, c: Arena, key: Key, code: U32, after: bv8, clear: bool)
    requires key in c0 && c.Keys == c0.Keys && OthersLookTheSame(c0, c, key)
    requires c[key].code == c0[key].code && c[key].cardType == c0[key].cardType && forall x :: x in c0 ==> SamePlaceOf(c0[x], c[x])
    requires if clear then TargetsCut(c0, c, key) else TiesStay(c0, c)
    ensures var d := SetPosition(if code != 0 then SetCode(c, key, code) else c, key, after);
      && d.Keys == c0.Keys && OthersLookTheSame(c0, d, key) && (forall x :: x in c0 ==> SamePlaceOf(c0[x], d[x]))
      && d[key].cardType == c0[key].cardType && d[key].position == after && d[key].code == (if code != 0 then code else c0[key].code)
      && (if clear then TargetsCut(c0, d, key) else TiesStay(c0, d))
  {
  }

  // ---------- records in messages ----------

  /**
  What a message with one record for one card does, for every kind of record: the record reaches the card found at the
  address, and what it does to relations and materials is that of `TargetRecordAdds`, `EquipRecordSets` and
  `Effects.OverlayQueryNames`. A code of zero and a cleared record take the type away.
  */
  lemma RecordReaches(b: Board, at: CardPosition, key: Key, record: Query)
    requires Inv(b) && !at.location.overlay && GetCard(b, at.controller, at.location, at.sequence, 0) == Some(key)
    ensures key in b.cards
    ensures var r := Step(b, UpdateCard(at, Some([record])));
      var card := b.cards[key];
      match record
      case TargetCard(positions) => TargetsAdded(b, r, key, positions)
      case EquipCard(to) => r == SetEquipCard(b, key, to)
      case OverlayCard(codes) => r == UpdateOverlayCards(b, key, codes)
      case Clear => r == b.(cards := b.cards[key := card.(cardType := 0)])
      case Code(code) => r == b.(cards := b.cards[key := card.(code := code, cardType := if code == 0 then 0 else card.cardType)])
      case Position(position) => r == b.(cards := b.cards[key := card.(position := position)])
      case Type(cardType) => r == b.(cards := b.cards[key := card.(cardType := cardType)])
      case Inert => r == b
  {
    KnownKey(b, at.controller, at.location, at.sequence, 0, key);
    FoundOnBoard(b, at, key);
    OneRecord(b, key, record);
    assert Step(b, UpdateCard(at, Some([record]))) == ApplyQuery(b, key, record);
    hide GetCard, InvLoose, TargetsAdded, AddTargets, SetEquipCard, UpdateOverlayCards;
    if record.TargetCard? { TargetRecordAdds(b, key, record.targets); }
  }

  lemma {:induction false} OneRecord(b: Board, key: Key, record: Query)
    ensures ApplyQueries(b, key, [record]) == ApplyQuery(b, key, record)
  {
    hide ApplyQuery;
    assert [record][1..] == [];
    assert ApplyQueries(ApplyQuery(b, key, record), key, []) == ApplyQuery(b, key, record);
  }

  lemma FoundOnBoard(b: Board, at: CardPosition, key: Key)
    requires Inv(b) && !at.location.overlay && GetCard(b, at.controller, at.location, at.sequence, 0) == Some(key)
    ensures OnBoard(b, key)
  {
    assert At(b.cards[key], Zone(at.controller, at.location.base.kind), at.sequence);
  }

  /** An address without a card, or an empty record, changes nothing; records for one card take effect one after the other. */
  lemma {:induction false} RecordsInOrder(b: Board, key: Key, records: seq<Query>, last: Query)
    ensures UpdateCardInfo(b, key, None) == b && UpdateCardInfo(b, key, Some([])) == b
    ensures UpdateCardInfo(b, key, Some(records + [last])) == ApplyQuery(UpdateCardInfo(b, key, Some(records)), key, last)
    decreases records
  {
    hide ApplyQuery;
    if records == [] {
      assert records + [last] == [last];
      OneRecord(b, key, last);
    } else {
      assert (records + [last])[1..] == records[1..] + [last];
      RecordsInOrder(ApplyQuery(b, key, records[0]), key, records[1..], last);
    }
  }

  /** A message for a zone gives its records, one by one, to the cards found at their indices at that moment. */
  lemma {:induction false} RecordsByIndex(b: Board, p: Player, location: Location, infos: seq<UpdateInfo>, last: UpdateInfo)
    ensures Step(b, UpdateData(p, location, [])) == b
    ensures var m := Step(b, UpdateData(p, location, infos));
      var found := GetCard(m, p, location, |infos| % 0x100, 0);
      Step(b, UpdateData(p, location, infos + [last])) == if found.None? then m else UpdateCardInfo(m, found.value, last)
  {
    ZoneInOrder(b, p, location, infos, last, 0);
  }

  lemma {:induction false} ZoneInOrder(b: Board, p: Player, location: Location, infos: seq<UpdateInfo>, last: UpdateInfo, i: nat)
    requires i <= |infos|
    ensures var m := UpdateZone(b, p, location, infos, i);
      var found := GetCard(m, p, location, |infos| % 0x100, 0);
      UpdateZone(b, p, location, infos + [last], i) == if found.None? then m else UpdateCardInfo(m, found.value, last)
    decreases |infos| - i
  {
    hide GetCard, UpdateCardInfo;
    assert (infos + [last])[|infos|] == last;
    if i < |infos| {
      assert (infos + [last])[i] == infos[i];
      var key := GetCard(b, p, location, AsU8(i), 0);
      ZoneInOrder(if key.None? then b else UpdateCardInfo(b, key.value, infos[i]), p, location, infos, last, i + 1);
    }
  }
}
