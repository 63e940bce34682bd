/** `Field::shuffle_set_card`: a chain of slot swaps that ends where the message says. */
module SetCards {
  // Each selected card goes to its new slot and the card found there goes where the selected one
  // came from; the chain as a whole puts every selected card where the message says.

  import opened Options
  import opened Board
  import opened Placement
  import opened Evolution
  import opened Updates
  import opened Deals

  type Row = seq<Option<Key>>

  function RowOf(b: Board, z: Zone): Row { SlotsIn(b.zones, z) }

  function Swapped(row: Row, s: nat, t: nat): Row
    requires s < |row| && t < |row|
  {
    row[s := row[t]][t := row[s]]
  }

  /** A card of the row goes to an occupied slot of it: the two slots are swapped and both cards renumbered. */
  lemma MoveSetCardSwaps(b: Board, kind: Kind, key: Key, s: nat, at: InfoLocation)
    requires Inv(b) && IsSlots(kind)
    requires Cell(b, Zone(at.controller, kind), s) == Some(key) && Cell(b, Zone(at.controller, kind), at.sequence).Some?
    ensures key in b.cards
    ensures var z := Zone(at.controller, kind);
      var r := MoveSetCard(b, kind, key, at);
      && Inv(r) && RowOf(r, z) == Swapped(RowOf(b, z), s, at.sequence)
      && SameZoneBut(b, r, z) && r.cards.Keys == b.cards.Keys && StaysExact(b.cards, r.cards)
  {
    var z := Zone(at.controller, kind);
    var t := at.sequence;
    assert At(b.cards[key], z, s);
    if s == t {
      StayPut(b, kind, key, at);
    } else {
      var other := Cell(b, z, t).value;
      assert At(b.cards[other], z, t);
      var row := RowOf(b, z);
      var c := SetSequence(SetSequence(b.cards, other, s), key, t);
      var r := MoveSetCard(b, kind, key, at);
      assert row[t := None][s := Some(other)][t := Some(key)] == Swapped(row, s, t);
      assert r == b.(zones := Zones(b.zones.lists, b.zones.slots[z := Swapped(row, s, t)]), cards := c);
      ExchangeKeeps(b, z, s, t, key, other);
      hide InvLoose, Numbered, EquipsExact, MoveSetCard, SetSequence;
    }
  }

  lemma StayPut(b: Board, kind: Kind, key: Key, at: InfoLocation)
    requires IsSlots(kind) && key in b.cards && b.cards[key].sequence == at.sequence
    requires Cell(b, Zone(at.controller, kind), at.sequence) == Some(key)
    ensures MoveSetCard(b, kind, key, at) == b
  {
    var z := Zone(at.controller, kind);
    var row := RowOf(b, z);
    var t := at.sequence;
    assert row[t := None][t := Some(key)] == row && row[t := Some(key)] == row;
    assert b.zones.slots[z := row] == b.zones.slots;
    assert SetSequence(b.cards, key, t) == b.cards;
    var lifted := PutSlot(b.zones, z, t, None);
    assert SlotsIn(lifted, z) == row[t := None];
    assert PutSlot(lifted, z, t, Some(key)) == b.zones && PutSlot(b.zones, z, t, Some(key)) == b.zones;
  }

  /** Two cards lifted from their slots, renumbered and put into each other's slot. */
  lemma ExchangeKeeps(b: Board, z: Zone, s: nat, t: nat, key: Key, other: Key)
    requires Inv(b) && IsSlots(z.kind) && s != t && Cell(b, z, s) == Some(key) && Cell(b, z, t) == Some(other)
    requires s < 0x100 && t < 0x100
    ensures var c := SetSequence(SetSequence(b.cards, other, s), key, t);
      Inv(b.(zones := Zones(b.zones.lists, b.zones.slots[z := Swapped(RowOf(b, z), s, t)]), cards := c)) &&
      c.Keys == b.cards.Keys && StaysExact(b.cards, c)
  {
    var row := RowOf(b, z);
    var b1 := SetSlot(b, z, s, None);
    TakeSlot(b, z, s, key, {});
    PutSlotCells(b.zones, z, s, None);
    assert At(b.cards[other], z, t);
    assert key != other;
    var b2 := SetSlot(b1, z, t, None);
    TakeSlot(b1, z, t, other, {} + {key});
    PutSlotCells(b1.zones, z, t, None);
    var loose := {} + {key} + {other};
    var c0 := SetSequence(b.cards, other, s);
    var c := SetSequence(c0, key, t);
    FrameSequence(b.cards, other, s);
    FrameSequence(c0, key, t);
    assert At(c[other], z, s) && At(c[key], z, t);
    hide InvLoose, Numbered, EquipsExact, SetSequence, SameOverlays, SameEquips, SameTargets, PutSlot, At;
    PlacesOfLooseKeep(b2, c0, loose);
    PlacesOfLooseKeep(b2.(cards := c0), c, loose);
    var b3 := b2.(cards := c);
    FillSlot(b3, z, s, other, loose);
    PutSlotCells(b3.zones, z, s, Some(other));
    var b4 := SetSlot(b3, z, s, Some(other));
    assert loose - {other} == {key} && {key} - {key} == {};
    FillSlot(b4, z, t, key, {key});
    ExchangedRow(b.zones, z, s, t);
  }

  lemma ExchangedRow(zones: Zones, z: Zone, s: nat, t: nat)
    requires s < |SlotsIn(zones, z)| && t < |SlotsIn(zones, z)| && s != t
    ensures var row := SlotsIn(zones, z);
      var lifted := PutSlot(PutSlot(zones, z, s, None), z, t, None);
      PutSlot(PutSlot(lifted, z, s, row[t]), z, t, row[s]) == Zones(zones.lists, zones.slots[z := Swapped(row, s, t)])
  {
    var row := SlotsIn(zones, z);
    assert row[s := None][t := None][s := row[t]][t := row[s]] == Swapped(row, s, t);
  }

  // ---------- the chain ----------

  ghost predicate Targeted(news: seq<InfoLocation>, t: int) {
    exists i :: 0 <= i < |news| && news[i].location != LIMBO && news[i].sequence == t
  }

  /** The selected cards still to be moved lie in the slots `slots` of the row, which are all occupied. */
  ghost predicate Planned(row: Row, p: Player, slots: set<int>, keys: seq<Option<Key>>, news: seq<InfoLocation>) {
    && |news| <= |keys|
    && (forall s :: s in slots ==> 0 <= s < |row| && row[s].Some?)
    && (forall i :: 0 <= i < |keys| ==> keys[i].Some? && exists s :: s in slots && row[s] == keys[i])
    && (forall i, j :: 0 <= i < j < |keys| ==> keys[i] != keys[j])
    && (forall i :: 0 <= i < |news| && news[i].location != LIMBO ==> news[i].controller == p && news[i].sequence in slots)
    && (forall i, j :: 0 <= i < j < |news| && news[i].location != LIMBO && news[j].location != LIMBO ==>
          news[i].sequence != news[j].sequence)
  }

  ghost predicate Shuffling(b: Board, z: Zone, slots: set<int>, keys: seq<Option<Key>>, news: seq<InfoLocation>) {
    Inv(b) && IsSlots(z.kind) && Planned(RowOf(b, z), z.player, slots, keys, news)
  }

  lemma PlannedTail(row: Row, p: Player, slots: set<int>, keys: seq<Option<Key>>, news: seq<InfoLocation>)
    requires Planned(row, p, slots, keys, news) && news != []
    ensures Planned(row, p, slots, keys[1..], news[1..])
  {
    var ks, ns := keys[1..], news[1..];
    assert forall i :: 0 <= i < |ks| ==> ks[i] == keys[i + 1];
    assert forall i :: 0 <= i < |ns| ==> ns[i] == news[i + 1];
    forall i | 0 <= i < |ks| ensures ks[i].Some? && exists s :: s in slots && row[s] == ks[i] {
      assert keys[i + 1].Some?;
    }
    forall i, j | 0 <= i < j < |ks| ensures ks[i] != ks[j] { assert keys[i + 1] != keys[j + 1]; }
    forall i, j | 0 <= i < j < |ns| && ns[i].location != LIMBO && ns[j].location != LIMBO ensures ns[i].sequence != ns[j].sequence {
      assert news[i + 1].sequence != news[j + 1].sequence;
    }
  }

  /** The row after the chain: the moved cards are on their new slots, and nothing is lost or gained. */
  ghost predicate Landed(b: Board, r: Board, z: Zone, slots: set<int>, keys: seq<Option<Key>>, news: seq<InfoLocation>)
    requires |news| <= |keys| && forall s :: s in slots ==> 0 <= s < |RowOf(b, z)|
  {
    var row, row' := RowOf(b, z), RowOf(r, z);
    && Inv(r) && SameZoneBut(b, r, z) && r.cards.Keys == b.cards.Keys && StaysExact(b.cards, r.cards)
    && |row'| == |row| && multiset(row') == multiset(row)
    && (forall i :: 0 <= i < |news| && news[i].location != LIMBO ==>
          0 <= news[i].sequence < |row'| && row'[news[i].sequence] == keys[i])
    && (forall j :: 0 <= j < |row| && j !in slots ==> row'[j] == row[j])
    && (forall j :: j in slots && row[j] !in keys && !Targeted(news, j) ==> row'[j] == row[j])
  }

  lemma SwappedFacts(row: Row, s: nat, t: nat)
    requires s < |row| && t < |row|
    ensures var r := Swapped(row, s, t);
      && |r| == |row| && multiset(r) == multiset(row) && r[t] == row[s] && r[s] == row[t]
      && forall j :: 0 <= j < |row| && j != s && j != t ==> r[j] == row[j]
  {
  }

  lemma TailTargets(news: seq<InfoLocation>, t: int)
    requires news != [] && Targeted(news[1..], t)
    ensures Targeted(news, t)
  {
    var i :| 0 <= i < |news[1..]| && news[1..][i].location != LIMBO && news[1..][i].sequence == t;
    assert news[i + 1] == news[1..][i];
  }

  lemma NewTarget(news: seq<InfoLocation>)
    requires news != [] && news[0].location != LIMBO
    requires forall i, j :: 0 <= i < j < |news| && news[i].location != LIMBO && news[j].location != LIMBO ==>
      news[i].sequence != news[j].sequence
    ensures !Targeted(news[1..], news[0].sequence)
  {
    forall i | 0 <= i < |news[1..]| && news[1..][i].location != LIMBO ensures news[1..][i].sequence != news[0].sequence {
      assert news[1..][i] == news[i + 1];
    }
  }

  /** One round of the chain leaves a shorter chain. */
  lemma RoundShuffles(b: Board, z: Zone, slots: set<int>, keys: seq<Option<Key>>, news: seq<InfoLocation>, s: nat)
    requires Shuffling(b, z, slots, keys, news) && news != [] && news[0].location != LIMBO
    requires s in slots && RowOf(b, z)[s] == keys[0]
    ensures keys[0].value in b.cards
    ensures var r := MoveSetCard(b, z.kind, keys[0].value, news[0]);
      && Shuffling(r, z, slots, keys[1..], news[1..])
      && SameZoneBut(b, r, z) && r.cards.Keys == b.cards.Keys && StaysExact(b.cards, r.cards)
      && RowOf(r, z) == Swapped(RowOf(b, z), s, news[0].sequence)
  {
    hide InvLoose, Numbered, EquipsExact, MoveSetCard, Swapped;
    var t := news[0].sequence;
    assert Cell(b, z, s) == RowOf(b, z)[s] && Cell(b, z, t) == RowOf(b, z)[t];
    MoveSetCardSwaps(b, z.kind, keys[0].value, s, news[0]);
    SwappedFacts(RowOf(b, z), s, t);
    PlannedTail(RowOf(b, z), z.player, slots, keys, news);
    var row, row' := RowOf(b, z), RowOf(MoveSetCard(b, z.kind, keys[0].value, news[0]), z);
    forall i | 0 <= i < |keys[1..]| ensures exists u :: u in slots && row'[u] == keys[1..][i] {
      assert keys[1..][i] == keys[i + 1];
      var u :| u in slots && row[u] == keys[i + 1];
      assert u != s;
      assert row'[if u == t then s else u] == keys[i + 1];
    }
  }

  lemma {:induction false} ChainLands(b: Board, z: Zone, slots: set<int>, keys: seq<Option<Key>>, news: seq<InfoLocation>)
    requires Shuffling(b, z, slots, keys, news)
    ensures Landed(b, MoveSetCards(b, z.kind, keys, news), z, slots, keys, news)
    decreases |news|
  {
    hide InvLoose, Numbered, EquipsExact, MoveSetCard, Swapped, Landed, RowOf;
    if news == [] {
      LandedAlready(b, z, slots, keys);
    } else if news[0].location == LIMBO {
      PlannedTail(RowOf(b, z), z.player, slots, keys, news);
      ChainLands(b, z, slots, keys[1..], news[1..]);
      SkipLands(b, MoveSetCards(b, z.kind, keys, news), z, slots, keys, news);
    } else {
      var s: nat :| s in slots && RowOf(b, z)[s] == keys[0];
      RoundShuffles(b, z, slots, keys, news, s);
      var b1 := MoveSetCard(b, z.kind, keys[0].value, news[0]);
      ChainLands(b1, z, slots, keys[1..], news[1..]);
      NewTarget(news);
      SwappedFacts(RowOf(b, z), s, news[0].sequence);
      RoundLands(b, b1, MoveSetCards(b1, z.kind, keys[1..], news[1..]), z, slots, keys, news, s);
    }
  }

  lemma LandedAlready(b: Board, z: Zone, slots: set<int>, keys: seq<Option<Key>>)
    requires Inv(b) && forall s :: s in slots ==> 0 <= s < |RowOf(b, z)|
    ensures Landed(b, b, z, slots, keys, [])
  {
    hide InvLoose, Numbered, EquipsExact;
  }

  lemma SkipLands(b: Board, r: Board, z: Zone, slots: set<int>, keys: seq<Option<Key>>, news: seq<InfoLocation>)
    requires |news| <= |keys| && news != [] && news[0].location == LIMBO
    requires forall s :: s in slots ==> 0 <= s < |RowOf(b, z)|
    requires Landed(b, r, z, slots, keys[1..], news[1..])
    ensures Landed(b, r, z, slots, keys, news)
  {
    hide InvLoose, Numbered, EquipsExact;
    forall i | 0 <= i < |news| && news[i].location != LIMBO
      ensures 0 <= news[i].sequence < |RowOf(r, z)| && RowOf(r, z)[news[i].sequence] == keys[i]
    {
      assert news[i] == news[1..][i - 1] && keys[i] == keys[1..][i - 1];
    }
    forall j | j in slots && RowOf(b, z)[j] !in keys && !Targeted(news, j) ensures RowOf(r, z)[j] == RowOf(b, z)[j] {
      if Targeted(news[1..], j) { TailTargets(news, j); }
    }
  }

  lemma RoundLands(b: Board, b1: Board, r: Board, z: Zone, slots: set<int>, keys: seq<Option<Key>>, news: seq<InfoLocation>, s: nat)
    requires |news| <= |keys| && news != [] && news[0].location != LIMBO && news[0].sequence in slots && s in slots
    requires forall u :: u in slots ==> 0 <= u < |RowOf(b, z)|
    requires |RowOf(b1, z)| == |RowOf(b, z)|
    requires multiset(RowOf(b1, z)) == multiset(RowOf(b, z)) && b1.cards.Keys == b.cards.Keys && SameZoneBut(b, b1, z)
    requires StaysExact(b.cards, b1.cards)
    requires RowOf(b, z)[s] == keys[0] && RowOf(b1, z)[news[0].sequence] == keys[0]
    requires forall j :: 0 <= j < |RowOf(b, z)| && j != s && j != news[0].sequence ==> RowOf(b1, z)[j] == RowOf(b, z)[j]
    requires forall i, j :: 0 <= i < j < |keys| ==> keys[i] != keys[j]
    requires !Targeted(news[1..], news[0].sequence)
    requires Landed(b1, r, z, slots, keys[1..], news[1..])
    ensures Landed(b, r, z, slots, keys, news)
  {
    hide InvLoose, Numbered, EquipsExact;
    var row, row1, row' := RowOf(b, z), RowOf(b1, z), RowOf(r, z);
    assert keys[0] !in keys[1..];
    assert row'[news[0].sequence] == keys[0];
    forall i | 0 <= i < |news| && news[i].location != LIMBO
      ensures 0 <= news[i].sequence < |row'| && row'[news[i].sequence] == keys[i]
    {
      if i > 0 { assert news[i] == news[1..][i - 1] && keys[i] == keys[1..][i - 1]; }
    }
    forall j | j in slots && row[j] !in keys && !Targeted(news, j) ensures row'[j] == row[j] {
      assert j != s && j != news[0].sequence;
      if Targeted(news[1..], j) { TailTargets(news, j); }
    }
  }

  // ---------- the message ----------

  lemma {:induction false} SelectedAt(b: Board, kind: Kind, olds: seq<InfoLocation>)
    requires IsSlots(kind)
    ensures forall i :: 0 <= i < |olds| ==> Selected(b, kind, olds)[i] == SlotAt(b, kind, olds[i])
    decreases olds
  {
    if olds != [] { SelectedAt(b, kind, olds[1..]); }
  }

  lemma {:induction false} HideSelectedFrame(cards: Arena, keys: seq<Option<Key>>)
    ensures SameLinks(cards, HideSelected(cards, keys))
    decreases keys
  {
    if keys != [] {
      var c := if keys[0].Some? then SetCode(cards, keys[0].value, 0) else cards;
      if keys[0].Some? { FrameCode(cards, keys[0].value, 0); }
      HideSelectedFrame(c, keys[1..]);
      LinksChain(cards, c, HideSelected(c, keys[1..]));
    }
  }

  lemma {:induction false} StartShuffle(b: Board, kind: Kind, p: Player, olds: seq<InfoLocation>, news: seq<InfoLocation>)
    requires Inv(b) && IsSlots(kind) && LegalShuffle(b, kind, p, olds, news)
    ensures Shuffling(b, Zone(p, kind), set i | 0 <= i < |olds| :: olds[i].sequence, Selected(b, kind, olds), news)
  {
    var z := Zone(p, kind);
    var slots: set<int> := set i | 0 <= i < |olds| :: olds[i].sequence;
    var keys := Selected(b, kind, olds);
    SelectedAt(b, kind, olds);
    forall i | 0 <= i < |olds| ensures keys[i].Some? && olds[i].sequence in slots && RowOf(b, z)[olds[i].sequence] == keys[i]
      ensures keys[i].value in b.cards && b.cards[keys[i].value].sequence == olds[i].sequence
    {
      assert Cell(b, z, olds[i].sequence) == keys[i];
      assert At(b.cards[keys[i].value], z, olds[i].sequence);
    }
    hide InvLoose, Numbered, EquipsExact;
  }

  /**
  A legal set-card shuffle puts every card with a new position on it, keeps the occupants of the row,
  and touches no other slot and no other zone; every card points back to its slot.
  */
  lemma ShuffleLands(b: Board, where: Location, p: Player, olds: seq<InfoLocation>, news: seq<InfoLocation>)
    requires Inv(b) && LegalShuffle(b, ShuffleKind(where), p, olds, news)
    ensures var z := Zone(p, if where == Location(In(MZone), false) then MZone else SZone);
      var r := ShuffleSetCardStep(b, where, olds, news);
      && Inv(r) && SameZoneBut(b, r, z) && r.cards.Keys == b.cards.Keys && StaysExact(b.cards, r.cards)
      && multiset(SlotsIn(r.zones, z)) == multiset(SlotsIn(b.zones, z))
      && (forall i :: 0 <= i < |news| && news[i].location != LIMBO ==>
            Cell(r, z, news[i].sequence) == Cell(b, z, olds[i].sequence))
      && (forall j: nat :: (forall i :: 0 <= i < |olds| ==> olds[i].sequence != j) ==> Cell(r, z, j) == Cell(b, z, j))
  {
    var kind := ShuffleKind(where);
    var z := Zone(p, kind);
    var slots: set<int> := set i | 0 <= i < |olds| :: olds[i].sequence;
    var keys := Selected(b, kind, olds);
    var c := HideSelected(b.cards, keys);
    hide InvLoose, Numbered, EquipsExact, HideSelected, Selected, MoveSetCards, LegalShuffle, SameLinks, Landed, Planned;
    HideSelectedFrame(b.cards, keys);
    SameLinksKeep(b, c, {});
    StartShuffle(b, kind, p, olds, news);
    ChainLands(b.(cards := c), z, slots, keys, news);
    LegalCounts(b, kind, p, olds, news);
    PlannedRange(RowOf(b, z), p, slots, keys, news);
    LandedMeans(b, c, ShuffleSetCardStep(b, where, olds, news), kind, p, slots, olds, news);
  }

  lemma PlannedRange(row: Row, p: Player, slots: set<int>, keys: seq<Option<Key>>, news: seq<InfoLocation>)
    requires Planned(row, p, slots, keys, news)
    ensures forall s :: s in slots ==> 0 <= s < |row|
  {
  }

  lemma LegalCounts(b: Board, kind: Kind, p: Player, olds: seq<InfoLocation>, news: seq<InfoLocation>)
    requires IsSlots(kind) && LegalShuffle(b, kind, p, olds, news)
    ensures |news| <= |olds| && forall i :: 0 <= i < |olds| ==> olds[i].controller == p && SlotAt(b, kind, olds[i]).Some?
  {
  }

  lemma {:induction false} LandedMeans(b: Board, c: Arena, r: Board, kind: Kind, p: Player, slots: set<int>, olds: seq<InfoLocation>, news: seq<InfoLocation>)
    requires forall s :: s in slots ==> 0 <= s < |RowOf(b.(cards := c), Zone(p, kind))|
    requires forall j :: j in slots ==> exists i :: 0 <= i < |olds| && olds[i].sequence == j
    requires IsSlots(kind) && |news| <= |olds| && c.Keys == b.cards.Keys && StaysExact(b.cards, c)
    requires forall i :: 0 <= i < |olds| ==> olds[i].controller == p && SlotAt(b, kind, olds[i]).Some?
    requires Landed(b.(cards := c), r, Zone(p, kind), slots, Selected(b, kind, olds), news)
    ensures var z := Zone(p, kind);
      && Inv(r) && SameZoneBut(b, r, z) && r.cards.Keys == b.cards.Keys && StaysExact(b.cards, r.cards)
      && multiset(SlotsIn(r.zones, z)) == multiset(SlotsIn(b.zones, z))
      && (forall i :: 0 <= i < |news| && news[i].location != LIMBO ==>
            Cell(r, z, news[i].sequence) == Cell(b, z, olds[i].sequence))
      && (forall j: nat :: (forall i :: 0 <= i < |olds| ==> olds[i].sequence != j) ==> Cell(r, z, j) == Cell(b, z, j))
  {
    hide InvLoose, Numbered, EquipsExact, Selected;
    var z := Zone(p, kind);
    SelectedAt(b, kind, olds);
    forall j: nat | forall i :: 0 <= i < |olds| ==> olds[i].sequence != j ensures Cell(r, z, j) == Cell(b, z, j) {
      assert j !in slots;
    }
  }
}
