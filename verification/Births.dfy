/**
What the cards look like that a start or a reload puts down. A new card has no code, no type and no
relation; it lies face-down after a start, and after a reload only the cards on the slots have the
positions of the message.
*/
module Births {
  import opened Options
  import opened Board
  import opened Placement
  import opened Moves
  import opened Updates
  import opened Reloads

  /** No code, no type and no relation, whatever the card lies on or holds. */
  ghost predicate Blank(c: Card) {
    && c.code == 0 && c.cardType == 0
    && c.equipTarget.None? && c.equipped == {} && c.cardTarget == {} && c.ownerTarget == {}
  }

  ghost predicate OnSlots(c: Card) { c.location == Location(In(MZone), false) || c.location == Location(In(SZone), false) }

  ghost predicate AllBlank(b: Board) {
    !b.deckReversed && forall x :: x in b.cards ==> Blank(b.cards[x]) && (b.cards[x].position == 0 || OnSlots(b.cards[x]))
  }

  // ---------- start ----------

  /** What has been pushed so far is blank and face-down in defense (0x8), in the decks and extra decks alone. */
  ghost predicate FaceDown(b: Board) {
    && (forall x :: x in b.cards ==> Blank(b.cards[x]) && b.cards[x].position == 0x8 && b.cards[x].overlayed == [] && b.cards[x].overlayTarget.None?)
    && b.zones.slots == FreshSlots() && b.pendulum == map[] && !b.deckReversed
    && forall z: Zone :: !z.kind.Deck? && !z.kind.Extra? ==> List(b, z) == []
  }

  lemma {:induction false} FillInitialBlank(b: Board, z: Zone, count: nat)
    requires FaceDown(b) && (z.kind.Deck? || z.kind.Extra?)
    ensures FaceDown(FillInitial(b, z, count))
    ensures |List(FillInitial(b, z, count), z)| == |List(b, z)| + count
    ensures forall y: Zone :: y != z ==> List(FillInitial(b, z, count), y) == List(b, y)
    decreases count
  {
    if count > 0 {
      var b1 := Grow(b, z);
      var b2 := b1.(cards := SetPosition(b1.cards, b.next, FACEDOWN_DEFENSE));
      assert FaceDown(b2);
      FillInitialBlank(b2, z, count - 1);
    }
  }

  /** A duel starts with the announced decks and extra decks of face-down blank cards, and nothing else. */
  lemma StartDeals(deck1: U16, extra1: U16, deck2: U16, extra2: U16)
    ensures var r := StartStep(deck1, extra1, deck2, extra2);
      && FaceDown(r)
      && |List(r, Zone(First, Deck))| == deck1 && |List(r, Zone(First, Extra))| == extra1
      && |List(r, Zone(Second, Deck))| == deck2 && |List(r, Zone(Second, Extra))| == extra2
  {
    assert FaceDown(Empty());
    hide FaceDown, FillInitial;
    FillInitialBlank(Empty(), Zone(First, Deck), deck1);
    var b1 := FillInitial(Empty(), Zone(First, Deck), deck1);
    FillInitialBlank(b1, Zone(First, Extra), extra1);
    var b2 := FillInitial(b1, Zone(First, Extra), extra1);
    FillInitialBlank(b2, Zone(Second, Deck), deck2);
    FillInitialBlank(FillInitial(b2, Zone(Second, Deck), deck2), Zone(Second, Extra), extra2);
  }

  // ---------- reload ----------

  /** Apart from its number, every card is what it was. */
  ghost predicate OnlyNumbers(c: Arena, d: Arena) {
    forall x :: x in c ==> x in d && d[x] == c[x].(sequence := d[x].sequence)
  }

  ghost predicate NewCard(c: Card, z: Zone) {
    c == BLANK.(controller := Some(z.player), location := Location(In(z.kind), false), sequence := c.sequence)
  }

  lemma {:induction false} NumberedOnly(cards: Arena, list: seq<Key>)
    ensures OnlyNumbers(cards, ResetSequence(cards, list, 0)) && ResetSequence(cards, list, 0).Keys == cards.Keys
  {
    ResetSequenceFrame(cards, list, 0);
  }

  lemma CreatedBlank(b: Board, z: Zone, sequence: U8)
    requires b.next !in b.cards
    ensures var r := CreateIn(b, z, sequence);
      r.cards.Keys == b.cards.Keys + {b.next} && OnlyNumbers(b.cards, r.cards) && NewCard(r.cards[b.next], z)
      && r.deckReversed == b.deckReversed
  {
    hide ExtraIndex, FaceupPendulumKey, ResetSequence, InsertAt, PutList, PutSlot;
    var b1 := CreateCard(b);
    var location := Location(In(z.kind), false);
    var placed := b1.(cards := SetPlace(b1.cards, b.next, z.player, location, sequence));
    match z.kind
    case Deck =>
      var list := InsertAt(List(placed, z), Min(sequence, |List(placed, z)|), b.next);
      NumberedOnly(placed.cards, list);
      NothingToClear(ResetSequence(placed.cards, list, 0), b.next);
    case Hand => NumberedOnly(placed.cards, InsertAt(List(placed, z), |List(placed, z)|, b.next));
    case Extra => NumberedOnly(placed.cards, InsertAt(List(placed, z), ExtraIndex(placed, z.player, FaceupPendulumKey(placed.cards, b.next)), b.next));
    case _ =>
  }

  /** A card without type and targets is not changed by what a deck does to the cards it takes in. */
  lemma NothingToClear(cards: Arena, key: Key)
    requires key in cards && cards[key].cardType == 0 && cards[key].cardTarget == {} && cards[key].ownerTarget == {}
    ensures ClearTargets(ClearCard(cards, key), key) == cards
  {
    assert ClearCard(cards, key) == cards;
    forall x | x in cards ensures ForgetTargets(cards, cards[key], key)[x] == cards[x] {}
    assert ForgetTargets(cards, cards[key], key) == cards;
  }

  lemma PutDownBlank(b: Board, z: Zone, sequence: U8, position: bv8)
    requires AllBlank(b) && b.next !in b.cards && (position == 0 || IsSlots(z.kind))
    ensures var r := CreateIn(b, z, sequence);
      AllBlank(r) && AllBlank(r.(cards := SetPosition(r.cards, b.next, position)))
  {
    CreatedBlank(b, z, sequence);
    hide CreateIn;
  }

  lemma {:induction false} MaterialsBlank(b: Board, host: Key, p: Player, count: nat)
    requires AllBlank(b) && Inv(b) && OnBoard(b, host)
    ensures AllBlank(AddMaterials(b, host, p, count))
    decreases count
  {
    if count > 0 {
      CreateMaterialKeeps(b, host, Some(p), {});
      MaterialCreated(b, host, Some(p));
      assert b.next !in b.cards;
      assert AllBlank(CreateMaterial(b, host, Some(p)));
      hide InvLoose;
      MaterialsBlank(CreateMaterial(b, host, Some(p)), host, p, count - 1);
    }
  }

  lemma {:induction false} MonstersBlank(b: Board, p: Player, mzone: seq<MonsterSlot>, i: nat)
    requires AllBlank(b) && Inv(b) && i <= |mzone| <= 7 && EmptyFrom(b.zones, Zone(p, MZone), i)
    ensures AllBlank(LoadMonsters(b, p, mzone, i))
    decreases |mzone| - i
  {
    hide InvLoose, CreateIn, SetPosition, PutSlot, AddMaterials, AllBlank, OnBoard;
    var z := Zone(p, MZone);
    if i < |mzone| && !mzone[i].occupied {
      MonstersBlank(b, p, mzone, i + 1);
    } else if i < |mzone| {
      NextIsNew(b);
      var b1 := CreateIn(b, z, i);
      SlotFree(b, z, i);
      CreateInKeeps(b, z, i);
      FilledSlot(b.zones, z, i, b.next);
      CreatedOnBoard(b1, z, i, b.next);
      PutDownBlank(b, z, i, mzone[i].position);
      var b2 := b1.(cards := SetPosition(b1.cards, b.next, mzone[i].position));
      SetPositionKeeps(b1, b.next, mzone[i].position, {});
      StillOnBoard(b1, b.next, mzone[i].position);
      AddMaterialsKeep(b2, b.next, p, mzone[i].xyzCount);
      MaterialsBlank(b2, b.next, p, mzone[i].xyzCount);
      MonstersBlank(AddMaterials(b2, b.next, p, mzone[i].xyzCount), p, mzone, i + 1);
    }
  }

  lemma NextIsNew(b: Board)
    requires Inv(b)
    ensures b.next !in b.cards
  {
  }

  lemma StillOnBoard(b: Board, key: Key, position: bv8)
    requires OnBoard(b, key)
    ensures OnBoard(b.(cards := SetPosition(b.cards, key, position)), key)
  {
  }

  lemma {:induction false} SpellsBlank(b: Board, p: Player, szone: seq<SpellSlot>, i: nat)
    requires AllBlank(b) && Inv(b) && i <= |szone| <= 8 && EmptyFrom(b.zones, Zone(p, SZone), i)
    ensures AllBlank(LoadSpells(b, p, szone, i))
    decreases |szone| - i
  {
    hide InvLoose, CreateIn, SetPosition, PutSlot, AllBlank;
    var z := Zone(p, SZone);
    if i < |szone| && !szone[i].occupied {
      SpellsBlank(b, p, szone, i + 1);
    } else if i < |szone| {
      NextIsNew(b);
      var b1 := CreateIn(b, z, i);
      SlotFree(b, z, i);
      CreateInKeeps(b, z, i);
      FilledSlot(b.zones, z, i, b.next);
      PutDownBlank(b, z, i, szone[i].position);
      SetPositionKeeps(b1, b.next, szone[i].position, {});
      SpellsBlank(b1.(cards := SetPosition(b1.cards, b.next, szone[i].position)), p, szone, i + 1);
    }
  }

  lemma {:induction false} ListBlank(b: Board, z: Zone, count: U8, i: nat)
    requires AllBlank(b) && Inv(b) && !IsSlots(z.kind) && i <= count && |List(b, z)| == i
    ensures AllBlank(LoadList(b, z, count, i))
    decreases count - i
  {
    hide InvLoose, CreateIn, AllBlank;
    if i < count {
      NextIsNew(b);
      CreateInKeeps(b, z, i);
      PutDownBlank(b, z, i, 0);
      ListBlank(CreateIn(b, z, i), z, count, i + 1);
    }
  }

  lemma {:induction false} ListsBlank(b0: Board, b: Board, p: Player, counts: seq<ListCount>)
    requires AllBlank(b) && Inv(b) && OtherPlayersSame(b0, b, p)
    requires forall i :: 0 <= i < |counts| ==> !IsSlots(counts[i].kind) && List(b, Zone(p, counts[i].kind)) == []
    requires forall i, j :: 0 <= i < j < |counts| ==> counts[i].kind != counts[j].kind
    ensures AllBlank(LoadLists(b, p, counts))
    decreases counts
  {
    hide InvLoose, Numbered, EquipsExact, LoadList, AllBlank;
    if counts != [] {
      LoadListKeeps(b, Zone(p, counts[0].kind), counts[0].count, 0);
      ListBlank(b, Zone(p, counts[0].kind), counts[0].count, 0);
      var b1 := LoadList(b, Zone(p, counts[0].kind), counts[0].count, 0);
      forall i | 0 <= i < |counts[1..]| ensures List(b1, Zone(p, counts[1..][i].kind)) == [] {
        assert counts[1..][i] == counts[i + 1];
      }
      ListsBlank(b0, b1, p, counts[1..]);
    }
  }

  lemma PlayerBlank(b: Board, p: Player, f: PlayerField)
    requires AllBlank(b) && Inv(b) && PlayerEmpty(b, p)
    ensures AllBlank(LoadPlayer(b, p, f))
  {
    LoadSlotsKeep(b, p, f);
    hide InvLoose, Numbered, EquipsExact, LoadMonsters, LoadSpells, LoadLists, AllBlank, OtherPlayersSame;
    var b1 := LoadMonsters(b, p, f.mzone, 0);
    LoadMonstersKeep(b, p, f.mzone, 0);
    assert EmptyFrom(b1.zones, Zone(p, SZone), 0) by {
      forall j: nat ensures CellIn(b1.zones, Zone(p, SZone), j).None? { assert CellIn(b.zones, Zone(p, SZone), j).None?; }
    }
    MonstersBlank(b, p, f.mzone, 0);
    SpellsBlank(b1, p, f.szone, 0);
    var b2 := LoadSpells(b1, p, f.szone, 0);
    ListsBlank(b, b2, p, ListCounts(f));
    CountedBlank(LoadLists(b2, p, ListCounts(f)), p, f.pendulumCount);
  }

  lemma CountedBlank(b: Board, p: Player, count: int)
    requires AllBlank(b)
    ensures AllBlank(SetPendulum(b, p, count))
  {
  }

  lemma NothingYet()
    ensures Inv(Empty()) && PlayerEmpty(Empty(), First) && PlayerEmpty(Empty(), Second) && AllBlank(Empty())
  {
    EmptyKeeps();
  }

  /** After a reload no card has a code, a type or a relation, only cards on the slots have a position, and no deck is reversed. */
  lemma ReloadIsBlank(b: Board, player1: PlayerField, player2: PlayerField)
    ensures AllBlank(Step(b, Message.ReloadField(player1, player2)))
  {
    hide InvLoose, LoadPlayer, PlayerEmpty, AllBlank, Empty;
    NothingYet();
    var b1 := LoadPlayer(Empty(), First, player1);
    LoadPlayerKeeps(Empty(), First, player1);
    OthersStayEmpty(Empty(), b1, First, Second);
    PlayerBlank(Empty(), First, player1);
    PlayerBlank(b1, Second, player2);
  }
}
