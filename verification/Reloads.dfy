/** The messages that create or destroy many cards at once: tag swaps, the start of a duel and a reloaded field. */
module Reloads {
  import opened Options
  import opened Board
  import opened Placement
  import opened Zoning
  import opened Moves
  import opened Updates
  import opened Deals

  // ---------- resizing ----------

  lemma GrowKeeps(b: Board, z: Zone)
    requires Inv(b) && !IsSlots(z.kind) && |List(b, z)| < NUMBERS
    ensures Inv(Grow(b, z)) && Grow(b, z).cards.Keys == b.cards.Keys + {b.next} && StaysExact(b.cards, Grow(b, z).cards)
    ensures Grow(b, z).zones == PutList(b.zones, z, List(b, z) + [b.next])
  {
    hide InvLoose, Numbered, EquipsExact, SetPlace, FiledUnder, SetSequence;
    var key := b.next;
    var n := AsU8(|List(b, z)|);
    var b1 := CreateCard(b);
    CreateCardKeeps(b, {});
    assert {} + {key} == {key} && {key} - {key} == {};
    var c := SetPlace(b1.cards, key, z.player, Location(In(z.kind), false), n);
    FramePlace(b1.cards, key, z.player, Location(In(z.kind), false), n);
    PlacesOfLooseKeep(b1, c, {key});
    PlacedAt(b1.cards, key, z, n);
    PushOnPile(b1.(cards := c), z, key, {key});
  }

  lemma PlacedAt(cards: Arena, key: Key, z: Zone, n: U8)
    requires key in cards && cards[key].overlayTarget.None?
    ensures var c := SetPlace(cards, key, z.player, Location(In(z.kind), false), n);
      c.Keys == cards.Keys && FiledUnder(c, key, z) && SetSequence(c, key, n) == c
  {
  }

  lemma ShrinkKeeps(b: Board, z: Zone)
    requires Inv(b) && !IsSlots(z.kind) && List(b, z) != []
    ensures var list := List(b, z);
      var n := |list| - 1;
      && Inv(Shrink(b, z)) && StaysExact(b.cards, Shrink(b, z).cards)
      && list[n] in b.cards && Shrink(b, z).cards.Keys == b.cards.Keys - WithMaterials(b.cards, list[n])
      && Shrink(b, z).zones == PutList(b.zones, z, list[..n])
  {
    var list := List(b, z);
    var n := |list| - 1;
    PopKeeps(b, z, {});
    hide InvLoose, Numbered, EquipsExact;
    assert {} + {list[n]} == {list[n]} && {list[n]} - {list[n]} == {};
    DestroyKeeps(SetList(b, z, list[..n]), list[n], {list[n]});
    DestroyKeys(b, list[n], {});
  }

  /** The zones of a resized list: the list has `count` cards, everything else is as before. */
  lemma {:induction false} ResizeZoneKeeps(b: Board, z: Zone, count: nat)
    requires Inv(b) && !IsSlots(z.kind) && count <= NUMBERS
    ensures var r := ResizeZone(b, z, count);
      && Inv(r) && StaysExact(b.cards, r.cards) && |List(r, z)| == count
      && List(r, z)[..Min(count, |List(b, z)|)] == List(b, z)[..Min(count, |List(b, z)|)]
      && r.zones.slots == b.zones.slots && forall y: Zone :: y != z ==> List(r, y) == List(b, y)
    decreases Distance(|List(b, z)|, count)
  {
    hide InvLoose, Numbered, EquipsExact, Shrink, Grow, WithMaterials;
    var length := |List(b, z)|;
    if length > count {
      ShrinkKeeps(b, z);
      ResizeZoneKeeps(Shrink(b, z), z, count);
    } else if length < count {
      GrowKeeps(b, z);
      ResizeZoneKeeps(Grow(b, z), z, count);
    }
  }

  lemma {:induction false} NameListFrame(cards: Arena, list: seq<Key>, codes: seq<U32>)
    ensures SameLinks(cards, NameList(cards, list, codes))
    decreases list
  {
    if list != [] && codes != [] {
      var c := SetCode(cards, list[0], codes[0]);
      FrameCode(cards, list[0], codes[0]);
      NameListFrame(c, list[1..], codes[1..]);
      LinksChain(cards, c, NameList(c, list[1..], codes[1..]));
    }
  }

  lemma TagSwapKeeps(b: Board, p: Player, mainCount: U8, pendulumCount: U8, topCode: U32, hand: seq<U32>, extra: seq<U32>)
    requires Inv(b) && |hand| <= NUMBERS && |extra| <= NUMBERS
    ensures Inv(TagSwapStep(b, p, mainCount, pendulumCount, topCode, hand, extra))
    ensures StaysExact(b.cards, TagSwapStep(b, p, mainCount, pendulumCount, topCode, hand, extra).cards)
  {
    hide InvLoose, Numbered, EquipsExact, ResizeZone, NameList, SetCode;
    var b1 := ResizeZone(b, Zone(p, Deck), mainCount);
    ResizeZoneKeeps(b, Zone(p, Deck), mainCount);
    var b2 := ResizeZone(b1, Zone(p, Hand), |hand|);
    ResizeZoneKeeps(b1, Zone(p, Hand), |hand|);
    var r := ResizeZone(b2, Zone(p, Extra), |extra|);
    ResizeZoneKeeps(b2, Zone(p, Extra), |extra|);
    var b3 := SetPendulum(r, p, pendulumCount);
    PendulumFree(r, p, pendulumCount, {});
    var deck := List(b3, Zone(p, Deck));
    var c := if deck == [] then b3.cards else SetCode(b3.cards, deck[|deck| - 1], topCode);
    if deck != [] { SetCodeKeeps(b3, deck[|deck| - 1], topCode, {}); }
    var c1 := NameList(c, List(b3, Zone(p, Hand)), hand);
    NameListFrame(c, List(b3, Zone(p, Hand)), hand);
    SameLinksKeep(b3.(cards := c), c1, {});
    NameListFrame(c1, List(b3, Zone(p, Extra)), extra);
    SameLinksKeep(b3.(cards := c1), NameList(c1, List(b3, Zone(p, Extra)), extra), {});
  }

  // ---------- start ----------

  lemma EmptyKeeps()
    ensures Inv(Empty()) && Numbered(Empty().cards) && EquipsExact(Empty().cards)
  {
    forall p: Player ensures |SlotsIn(Empty().zones, Zone(p, MZone))| == 7 && |SlotsIn(Empty().zones, Zone(p, SZone))| == 8 {
      assert p == First || p == Second;
    }
  }

  lemma {:induction false} FillInitialKeeps(b: Board, z: Zone, count: nat)
    requires Inv(b) && !IsSlots(z.kind) && |List(b, z)| + count <= NUMBERS
    ensures Inv(FillInitial(b, z, count)) && StaysExact(b.cards, FillInitial(b, z, count).cards)
    ensures |List(FillInitial(b, z, count), z)| == |List(b, z)| + count
    ensures forall y: Zone :: y != z ==> List(FillInitial(b, z, count), y) == List(b, y)
    decreases count
  {
    hide InvLoose, Numbered, EquipsExact, Grow, SetPosition;
    if count > 0 {
      var b1 := Grow(b, z);
      GrowKeeps(b, z);
      SetPositionKeeps(b1, b.next, FACEDOWN_DEFENSE, {});
      FillInitialKeeps(b1.(cards := SetPosition(b1.cards, b.next, FACEDOWN_DEFENSE)), z, count - 1);
    }
  }

  lemma StartKeeps(deck1: U16, extra1: U16, deck2: U16, extra2: U16)
    requires deck1 <= NUMBERS && extra1 <= NUMBERS && deck2 <= NUMBERS && extra2 <= NUMBERS
    ensures var r := StartStep(deck1, extra1, deck2, extra2);
      && Inv(r) && Numbered(r.cards) && EquipsExact(r.cards)
      && |List(r, Zone(First, Deck))| == deck1 && |List(r, Zone(First, Extra))| == extra1
      && |List(r, Zone(Second, Deck))| == deck2 && |List(r, Zone(Second, Extra))| == extra2
  {
    EmptyKeeps();
    hide InvLoose, Numbered, EquipsExact, FillInitial;
    FillInitialKeeps(Empty(), Zone(First, Deck), deck1);
    var b1 := FillInitial(Empty(), Zone(First, Deck), deck1);
    FillInitialKeeps(b1, Zone(First, Extra), extra1);
    var b2 := FillInitial(b1, Zone(First, Extra), extra1);
    FillInitialKeeps(b2, Zone(Second, Deck), deck2);
    FillInitialKeeps(FillInitial(b2, Zone(Second, Deck), deck2), Zone(Second, Extra), extra2);
  }

  // ---------- reload ----------

  lemma CreateInKeeps(b: Board, z: Zone, sequence: U8)
    requires Inv(b) && Free(b, z.player, Location(In(z.kind), false), sequence)
    ensures Inv(CreateIn(b, z, sequence)) && SameZoneBut(b, CreateIn(b, z, sequence), z)
    ensures StaysExact(b.cards, CreateIn(b, z, sequence).cards) && CreateIn(b, z, sequence).cards[b.next].overlayed == []
    ensures if IsSlots(z.kind) then CreateIn(b, z, sequence).zones == PutSlot(b.zones, z, sequence, Some(b.next))
            else |List(CreateIn(b, z, sequence), z)| == |List(b, z)| + 1
  {
    CreateCardKeeps(b, {});
    assert {} + {b.next} == {b.next} && {b.next} - {b.next} == {};
    hide InvLoose, Numbered, EquipsExact;
    AddCardKeeps(CreateCard(b), b.next, z.player, Location(In(z.kind), false), sequence, {b.next});
    AddCardZones(CreateCard(b), b.next, z.player, Location(In(z.kind), false), sequence);
    AddCardOtherZones(CreateCard(b), b.next, z.player, Location(In(z.kind), false), sequence);
    hide AddCard;
  }

  lemma {:induction false} AddMaterialsKeep(b: Board, host: Key, p: Player, count: nat)
    requires Inv(b) && OnBoard(b, host)
    ensures Inv(AddMaterials(b, host, p, count)) && AddMaterials(b, host, p, count).zones == b.zones
    ensures |b.cards[host].overlayed| + count <= 0x100 ==> StaysExact(b.cards, AddMaterials(b, host, p, count).cards)
    decreases count
  {
    hide InvLoose, Numbered, EquipsExact;
    if count > 0 {
      CreateMaterialKeeps(b, host, Some(p), {});
      MaterialCreated(b, host, Some(p));
      AddMaterialsKeep(CreateMaterial(b, host, Some(p)), host, p, count - 1);
    }
  }

  lemma CreatedOnBoard(b: Board, z: Zone, i: nat, key: Key)
    requires Inv(b) && Cell(b, z, i) == Some(key)
    ensures OnBoard(b, key)
  {
    assert At(b.cards[key], z, i);
  }

  ghost predicate EmptyFrom(zones: Zones, z: Zone, i: nat) {
    forall j: nat :: i <= j ==> CellIn(zones, z, j).None?
  }

  lemma FilledSlot(zones: Zones, z: Zone, i: nat, key: Key)
    requires IsSlots(z.kind) && i < |SlotsIn(zones, z)| && EmptyFrom(zones, z, i)
    ensures var r := PutSlot(zones, z, i, Some(key)); EmptyFrom(r, z, i + 1) && CellIn(r, z, i) == Some(key)
  {
    PutSlotCells(zones, z, i, Some(key));
  }

  lemma SlotFree(b: Board, z: Zone, i: nat)
    requires Inv(b) && IsSlots(z.kind) && EmptyFrom(b.zones, z, i) && i < if z.kind.MZone? then 7 else 8
    ensures Free(b, z.player, Location(In(z.kind), false), i) && i < |SlotsIn(b.zones, z)|
  {
    assert |SlotsIn(b.zones, Zone(z.player, MZone))| == 7 && |SlotsIn(b.zones, Zone(z.player, SZone))| == 8;
  }

  lemma {:induction false} LoadMonstersKeep(b: Board, p: Player, mzone: seq<MonsterSlot>, i: nat)
    requires Inv(b) && i <= |mzone| <= 7 && EmptyFrom(b.zones, Zone(p, MZone), i)
    ensures Inv(LoadMonsters(b, p, mzone, i)) && StaysExact(b.cards, LoadMonsters(b, p, mzone, i).cards)
    ensures SameZoneBut(b, LoadMonsters(b, p, mzone, i), Zone(p, MZone))
    decreases |mzone| - i
  {
    hide InvLoose, Numbered, EquipsExact, CreateIn, SetPosition, PutSlot, CreateMaterial;
    var z := Zone(p, MZone);
    if i < |mzone| && !mzone[i].occupied {
      LoadMonstersKeep(b, p, mzone, i + 1);
    } else if i < |mzone| {
      var b1 := CreateIn(b, z, i);
      SlotFree(b, z, i);
      CreateInKeeps(b, z, i);
      FilledSlot(b.zones, z, i, b.next);
      CreatedOnBoard(b1, z, i, b.next);
      var b2 := b1.(cards := SetPosition(b1.cards, b.next, mzone[i].position));
      SetPositionKeeps(b1, b.next, mzone[i].position, {});
      AddMaterialsKeep(b2, b.next, p, mzone[i].xyzCount);
      LoadMonstersKeep(AddMaterials(b2, b.next, p, mzone[i].xyzCount), p, mzone, i + 1);
    }
  }

  lemma {:induction false} LoadSpellsKeep(b: Board, p: Player, szone: seq<SpellSlot>, i: nat)
    requires Inv(b) && i <= |szone| <= 8 && EmptyFrom(b.zones, Zone(p, SZone), i)
    ensures Inv(LoadSpells(b, p, szone, i)) && StaysExact(b.cards, LoadSpells(b, p, szone, i).cards)
    ensures SameZoneBut(b, LoadSpells(b, p, szone, i), Zone(p, SZone))
    decreases |szone| - i
  {
    hide InvLoose, Numbered, EquipsExact, CreateIn, SetPosition, PutSlot;
    var z := Zone(p, SZone);
    if i < |szone| && !szone[i].occupied {
      LoadSpellsKeep(b, p, szone, i + 1);
    } else if i < |szone| {
      var b1 := CreateIn(b, z, i);
      SlotFree(b, z, i);
      CreateInKeeps(b, z, i);
      FilledSlot(b.zones, z, i, b.next);
      SetPositionKeeps(b1, b.next, szone[i].position, {});
      LoadSpellsKeep(b1.(cards := SetPosition(b1.cards, b.next, szone[i].position)), p, szone, i + 1);
    }
  }

  lemma {:induction false} LoadListKeeps(b: Board, z: Zone, count: U8, i: nat)
    requires Inv(b) && !IsSlots(z.kind) && i <= count && |List(b, z)| == i
    ensures Inv(LoadList(b, z, count, i)) && StaysExact(b.cards, LoadList(b, z, count, i).cards)
    ensures SameZoneBut(b, LoadList(b, z, count, i), z)
    ensures |List(LoadList(b, z, count, i), z)| == count
    decreases count - i
  {
    hide InvLoose, Numbered, EquipsExact, CreateIn;
    if i < count {
      CreateInKeeps(b, z, i);
      LoadListKeeps(CreateIn(b, z, i), z, count, i + 1);
    }
  }

  ghost predicate PlayerEmpty(b: Board, p: Player) {
    && (forall kind: Kind :: !IsSlots(kind) ==> List(b, Zone(p, kind)) == [])
    && EmptyFrom(b.zones, Zone(p, MZone), 0) && EmptyFrom(b.zones, Zone(p, SZone), 0)
  }

  ghost predicate OtherPlayersSame(b: Board, r: Board, p: Player) {
    forall y: Zone :: y.player != p ==> ListIn(r.zones, y) == ListIn(b.zones, y) && SlotsIn(r.zones, y) == SlotsIn(b.zones, y)
  }

  lemma {:induction false} LoadSlotsKeep(b: Board, p: Player, f: PlayerField)
    requires Inv(b) && PlayerEmpty(b, p)
    ensures var r := LoadSpells(LoadMonsters(b, p, f.mzone, 0), p, f.szone, 0);
      && Inv(r) && StaysExact(b.cards, r.cards) && OtherPlayersSame(b, r, p)
      && forall kind: Kind :: !IsSlots(kind) ==> List(r, Zone(p, kind)) == []
  {
    hide InvLoose, Numbered, EquipsExact, LoadMonsters, LoadSpells;
    var b1 := LoadMonsters(b, p, f.mzone, 0);
    LoadMonstersKeep(b, p, f.mzone, 0);
    assert EmptyFrom(b1.zones, Zone(p, SZone), 0) by {
      forall j: nat ensures CellIn(b1.zones, Zone(p, SZone), j).None? {
        assert CellIn(b.zones, Zone(p, SZone), j).None?;
      }
    }
    LoadSpellsKeep(b1, p, f.szone, 0);
  }

  lemma {:induction false} LoadListsKeep(b0: Board, b: Board, p: Player, counts: seq<ListCount>)
    requires Inv(b) && OtherPlayersSame(b0, b, p)
    requires forall i :: 0 <= i < |counts| ==> !IsSlots(counts[i].kind) && List(b, Zone(p, counts[i].kind)) == []
    requires forall i, j :: 0 <= i < j < |counts| ==> counts[i].kind != counts[j].kind
    ensures Inv(LoadLists(b, p, counts)) && StaysExact(b.cards, LoadLists(b, p, counts).cards)
    ensures OtherPlayersSame(b0, LoadLists(b, p, counts), p)
    decreases counts
  {
    hide InvLoose, Numbered, EquipsExact, LoadList;
    if counts != [] {
      LoadListKeeps(b, Zone(p, counts[0].kind), counts[0].count, 0);
      var b1 := LoadList(b, Zone(p, counts[0].kind), counts[0].count, 0);
      forall i | 0 <= i < |counts[1..]| ensures List(b1, Zone(p, counts[1..][i].kind)) == [] {
        assert counts[1..][i] == counts[i + 1];
      }
      LoadListsKeep(b0, b1, p, counts[1..]);
    }
  }

  lemma LoadPlayerKeeps(b: Board, p: Player, f: PlayerField)
    requires Inv(b) && PlayerEmpty(b, p)
    ensures Inv(LoadPlayer(b, p, f)) && StaysExact(b.cards, LoadPlayer(b, p, f).cards)
    ensures OtherPlayersSame(b, LoadPlayer(b, p, f), p)
  {
    LoadSlotsKeep(b, p, f);
    hide InvLoose, Numbered, EquipsExact, LoadMonsters, LoadSpells, LoadLists, PlayerEmpty, OtherPlayersSame;
    var b1 := LoadSpells(LoadMonsters(b, p, f.mzone, 0), p, f.szone, 0);
    LoadListsKeep(b, b1, p, ListCounts(f));
    PendulumFree(LoadLists(b1, p, ListCounts(f)), p, f.pendulumCount, {});
    PendulumSame(b, LoadLists(b1, p, ListCounts(f)), p, f.pendulumCount);
  }

  lemma PendulumSame(b: Board, r: Board, p: Player, count: int)
    requires OtherPlayersSame(b, r, p)
    ensures OtherPlayersSame(b, SetPendulum(r, p, count), p)
  {
  }

  lemma OthersStayEmpty(b: Board, r: Board, p: Player, q: Player)
    requires OtherPlayersSame(b, r, p) && q != p && PlayerEmpty(b, q)
    ensures PlayerEmpty(r, q)
  {
    forall kind: Kind, j: nat ensures CellIn(r.zones, Zone(q, kind), j) == CellIn(b.zones, Zone(q, kind), j) {
      assert ListIn(r.zones, Zone(q, kind)) == ListIn(b.zones, Zone(q, kind));
      assert SlotsIn(r.zones, Zone(q, kind)) == SlotsIn(b.zones, Zone(q, kind));
    }
  }

  lemma ReloadKeeps(player1: PlayerField, player2: PlayerField)
    ensures var r := LoadPlayer(LoadPlayer(Empty(), First, player1), Second, player2);
      Inv(r) && Numbered(r.cards) && EquipsExact(r.cards)
  {
    EmptyKeeps();
    assert PlayerEmpty(Empty(), First) && PlayerEmpty(Empty(), Second);
    hide InvLoose, Numbered, EquipsExact, LoadPlayer, PlayerEmpty;
    LoadPlayerKeeps(Empty(), First, player1);
    OthersStayEmpty(Empty(), LoadPlayer(Empty(), First, player1), First, Second);
    LoadPlayerKeeps(LoadPlayer(Empty(), First, player1), Second, player2);
  }
}
