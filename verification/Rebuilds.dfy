/** What a tag swap and a reloaded field leave behind. */
module Rebuilds {
  // The board is the one the message describes, with the counts, slots, positions, materials and
  // codes it gives.

  import opened Options
  import opened Board
  import opened Placement
  import opened Zoning
  import opened Moves
  import opened Updates
  import opened Deals
  import opened Reloads

  // ---------- tag swap ----------

  /** The cards of the list carry the codes, index by index. */
  ghost predicate Named(cards: Arena, list: seq<Key>, codes: seq<U32>) {
    |list| == |codes| && forall i :: 0 <= i < |list| ==> list[i] in cards && cards[list[i]].code == codes[i]
  }

  ghost predicate CodesStay(c: Arena, d: Arena, but: seq<Key>) {
    c.Keys == d.Keys && forall k :: k in c && k !in but ==> d[k].code == c[k].code
  }

  lemma {:induction false} NameListNames(cards: Arena, list: seq<Key>, codes: seq<U32>)
    requires Distinct(list) && |list| == |codes| && forall k :: k in list ==> k in cards
    ensures var r := NameList(cards, list, codes); Named(r, list, codes) && CodesStay(cards, r, list)
    decreases list
  {
    if list != [] {
      var c := SetCode(cards, list[0], codes[0]);
      assert list == [list[0]] + list[1..];
      assert list[0] !in list[1..];
      NameListNames(c, list[1..], codes[1..]);
    }
  }

  /** Lists of different zones share no card and hold no card twice. */
  lemma ListsApart(b: Board, y: Zone, z: Zone)
    requires Inv(b) && !IsSlots(y.kind) && !IsSlots(z.kind)
    ensures Distinct(List(b, z)) && forall k :: k in List(b, z) ==> k in b.cards && (y != z ==> k !in List(b, y))
  {
    forall k | k in List(b, z) ensures k in b.cards && (y != z ==> k !in List(b, y)) {
      var i :| 0 <= i < |List(b, z)| && List(b, z)[i] == k;
      OnlyItsZone(b, y, z, i, k);
    }
    ListDistinct(b, z, {});
  }

  lemma OnlyItsZone(b: Board, y: Zone, z: Zone, i: nat, k: Key)
    requires Inv(b) && !IsSlots(y.kind) && !IsSlots(z.kind) && i < |List(b, z)| && List(b, z)[i] == k
    ensures k in b.cards && (y != z ==> k !in List(b, y))
  {
    ListHolds(b, z, i);
    if y != z && k in List(b, y) {
      var j :| 0 <= j < |List(b, y)| && List(b, y)[j] == k;
      ListHolds(b, y, j);
      assert false;
    }
  }

  lemma ListHolds(b: Board, z: Zone, i: nat)
    requires Inv(b) && !IsSlots(z.kind) && i < |List(b, z)|
    ensures var k := List(b, z)[i]; k in b.cards && b.cards[k].controller == Some(z.player) && b.cards[k].location == Location(In(z.kind), false)
  {
    assert Cell(b, z, i) == Some(List(b, z)[i]);
  }

  /** Apart from the code, a card named is the card it was. */
  ghost predicate OnlyCodes(c: Arena, d: Arena) {
    c.Keys == d.Keys && forall k :: k in c ==> d[k] == c[k].(code := d[k].code)
  }

  lemma {:induction false} NameListOnlyCodes(cards: Arena, list: seq<Key>, codes: seq<U32>)
    ensures OnlyCodes(cards, NameList(cards, list, codes))
    decreases list
  {
    if list != [] && codes != [] { NameListOnlyCodes(SetCode(cards, list[0], codes[0]), list[1..], codes[1..]); }
  }

  /** A card that is left keeps its code, type and position; every other card is new and has none. */
  ghost predicate KeptOrNew(b: Board, r: Board) {
    b.next <= r.next && forall x :: x in r.cards ==>
      && (x < b.next ==> x in b.cards && r.cards[x].code == b.cards[x].code)
      && (x < b.next ==> r.cards[x].cardType == b.cards[x].cardType && r.cards[x].position == b.cards[x].position)
      && (x >= b.next ==> r.cards[x].cardType == 0 && r.cards[x].code == 0 && r.cards[x].position == 0)
  }

  lemma KeptOrNewChain(b: Board, m: Board, r: Board)
    requires KeptOrNew(b, m) && KeptOrNew(m, r)
    ensures KeptOrNew(b, r)
  {
  }

  lemma NothingNew(b: Board)
    requires Inv(b)
    ensures KeptOrNew(b, b)
  {
  }

  lemma GrowNew(b: Board, z: Zone)
    requires Inv(b)
    ensures KeptOrNew(b, Grow(b, z))
  {
  }

  lemma {:induction false} ShrinkKept(b: Board, z: Zone)
    requires Inv(b) && !IsSlots(z.kind) && List(b, z) != []
    ensures KeptOrNew(b, Shrink(b, z))
  {
    var key := List(b, z)[|List(b, z)| - 1];
    ListHolds(b, z, |List(b, z)| - 1);
    DestroyEffect(b.cards, key);
    hide Destroy, KeysOf;
  }

  /** Resizing keeps the cards it leaves, and what it adds on top is new. */
  lemma {:induction false} ResizeZoneNew(b: Board, z: Zone, count: nat)
    requires Inv(b) && !IsSlots(z.kind) && count <= NUMBERS
    ensures var r := ResizeZone(b, z, count);
      && KeptOrNew(b, r) && r.pendulum == b.pendulum
      && (|List(b, z)| < count ==> |List(r, z)| == count && forall i :: |List(b, z)| <= i < count ==> List(r, z)[i] >= b.next)
    decreases Distance(|List(b, z)|, count)
  {
    hide InvLoose, Shrink, Grow, WithMaterials, KeptOrNew;
    var length := |List(b, z)|;
    if length > count {
      ShrinkKeeps(b, z);
      ShrinkKept(b, z);
      ShrinkCounts(b, z);
      ResizeZoneNew(Shrink(b, z), z, count);
      KeptOrNewChain(b, Shrink(b, z), ResizeZone(b, z, count));
    } else if length < count {
      var m := Grow(b, z);
      GrowKeeps(b, z);
      GrowNew(b, z);
      GrowCounts(b, z);
      ResizeZoneNew(m, z, count);
      KeptOrNewChain(b, m, ResizeZone(b, z, count));
      ResizeZoneKeeps(m, z, count);
      GrownTop(List(m, z), List(ResizeZone(m, z, count), z), length, b.next);
    } else {
      NothingNew(b);
    }
  }

  lemma GrownTop(was: seq<Key>, now: seq<Key>, length: nat, next: Key)
    requires |was| == length + 1 && was[length] == next && |was| <= |now| && now[..|was|] == was[..|was|]
    ensures now[length] == next
  {
    assert now[..|was|][length] == was[..|was|][length];
  }

  lemma ShrinkCounts(b: Board, z: Zone)
    requires List(b, z) != []
    ensures Shrink(b, z).pendulum == b.pendulum
  {
  }

  lemma GrowCounts(b: Board, z: Zone)
    ensures Grow(b, z).pendulum == b.pendulum && Grow(b, z).next == b.next + 1
  {
  }

  /** The first cards of the resized list are those it had. */
  ghost predicate Resized(old0: seq<Key>, new0: seq<Key>, count: nat) {
    |new0| == count && new0[..Min(count, |old0|)] == old0[..Min(count, |old0|)]
  }

  /**
  Cards that are neither named nor on top of the deck keep their code, or have none if they are new; all that are left
  keep type and position, and new ones have none.
  */
  ghost predicate OnlyNamed(b: Board, r: Board, p: Player) {
    b.next <= r.next && forall x :: x in r.cards ==>
      && (x < b.next ==> x in b.cards && r.cards[x].cardType == b.cards[x].cardType && r.cards[x].position == b.cards[x].position)
      && (x >= b.next ==> r.cards[x].cardType == 0 && r.cards[x].position == 0)
      && (x >= b.next && x !in List(r, Zone(p, Hand)) && x !in List(r, Zone(p, Extra)) && !IsTop(List(r, Zone(p, Deck)), x) ==>
            r.cards[x].code == 0)
      && (x < b.next && x !in List(r, Zone(p, Hand)) && x !in List(r, Zone(p, Extra)) && !IsTop(List(r, Zone(p, Deck)), x) ==>
            r.cards[x].code == b.cards[x].code)
  }

  predicate IsTop(list: seq<Key>, key: Key) { list != [] && list[|list| - 1] == key }

  /**
  The three lists have the announced lengths and codes, with the cards that were at their bottom and new ones
  above them. No other zone, no other code and no type or position of a card that is left changes.
  */
  lemma TagSwapRebuilds(b: Board, p: Player, mainCount: U8, pendulumCount: U8, topCode: U32, hand: seq<U32>, extra: seq<U32>)
    requires Inv(b) && |hand| <= NUMBERS && |extra| <= NUMBERS
    ensures var r := TagSwapStep(b, p, mainCount, pendulumCount, topCode, hand, extra);
      && Resized(List(b, Zone(p, Deck)), List(r, Zone(p, Deck)), mainCount)
      && Resized(List(b, Zone(p, Hand)), List(r, Zone(p, Hand)), |hand|)
      && Resized(List(b, Zone(p, Extra)), List(r, Zone(p, Extra)), |extra|)
      && Named(r.cards, List(r, Zone(p, Hand)), hand) && Named(r.cards, List(r, Zone(p, Extra)), extra)
      && (mainCount > 0 ==> var top := List(r, Zone(p, Deck))[mainCount - 1]; top in r.cards && r.cards[top].code == topCode)
      && PendulumCount(r, p) == pendulumCount && OtherCount(b, r, p) && r.zones.slots == b.zones.slots && OnlyNamed(b, r, p)
      && (forall i :: |List(b, Zone(p, Extra))| <= i < |extra| ==> List(r, Zone(p, Extra))[i] >= b.next)
      && forall z: Zone :: z != Zone(p, Deck) && z != Zone(p, Hand) && z != Zone(p, Extra) ==> List(r, z) == List(b, z)
  {
    hide InvLoose, ResizeZone, NameList, Named, Distinct, KeptOrNew, OnlyNamed;
    var b1 := ResizeZone(b, Zone(p, Deck), mainCount);
    ResizeZoneKeeps(b, Zone(p, Deck), mainCount);
    var b2 := ResizeZone(b1, Zone(p, Hand), |hand|);
    ResizeZoneKeeps(b1, Zone(p, Hand), |hand|);
    var b3 := ResizeZone(b2, Zone(p, Extra), |extra|);
    ResizeZoneKeeps(b2, Zone(p, Extra), |extra|);
    TagSwapNames(b3, p, topCode, hand, extra);
    ResizeZoneNew(b, Zone(p, Deck), mainCount);
    ResizeZoneNew(b1, Zone(p, Hand), |hand|);
    ResizeZoneNew(b2, Zone(p, Extra), |extra|);
    KeptOrNewChain(b, b1, b2);
    KeptOrNewChain(b, b2, b3);
    NextGrows(b, b2);
    NamedOnly(b, b3, p, TagSwapStep(b, p, mainCount, pendulumCount, topCode, hand, extra));
  }

  lemma {:induction false} TagSwapNames(b: Board, p: Player, topCode: U32, hand: seq<U32>, extra: seq<U32>)
    requires Inv(b) && |List(b, Zone(p, Hand))| == |hand| && |List(b, Zone(p, Extra))| == |extra|
    ensures var deck := List(b, Zone(p, Deck));
      var c := if deck == [] then b.cards else SetCode(b.cards, deck[|deck| - 1], topCode);
      var r := NameList(NameList(c, List(b, Zone(p, Hand)), hand), List(b, Zone(p, Extra)), extra);
      && Named(r, List(b, Zone(p, Hand)), hand) && Named(r, List(b, Zone(p, Extra)), extra)
      && OnlyCodes(b.cards, r)
      && (forall x :: x in r && x !in List(b, Zone(p, Hand)) && x !in List(b, Zone(p, Extra)) && !IsTop(deck, x) ==> r[x].code == b.cards[x].code)
      && (deck != [] ==> deck[|deck| - 1] in r && r[deck[|deck| - 1]].code == topCode)
  {
    hide InvLoose, NameList, Distinct;
    var deck, h, e := List(b, Zone(p, Deck)), List(b, Zone(p, Hand)), List(b, Zone(p, Extra));
    ListsApart(b, Zone(p, Extra), Zone(p, Hand));
    ListsApart(b, Zone(p, Hand), Zone(p, Extra));
    ListsApart(b, Zone(p, Hand), Zone(p, Deck));
    ListsApart(b, Zone(p, Extra), Zone(p, Deck));
    var c := if deck == [] then b.cards else SetCode(b.cards, deck[|deck| - 1], topCode);
    NameListNames(c, h, hand);
    NameListOnlyCodes(c, h, hand);
    NameListOnlyCodes(NameList(c, h, hand), e, extra);
    NameListNames(NameList(c, h, hand), e, extra);
    StillNamed(NameList(c, h, hand), NameList(NameList(c, h, hand), e, extra), e, h, hand);
  }

  lemma NextGrows(b: Board, r: Board)
    requires KeptOrNew(b, r)
    ensures b.next <= r.next
  {
  }

  lemma NamedOnly(b: Board, m: Board, p: Player, r: Board)
    requires KeptOrNew(b, m) && OnlyCodes(m.cards, r.cards) && r.zones == m.zones && r.next == m.next
    requires forall x :: x in r.cards && x !in List(m, Zone(p, Hand)) && x !in List(m, Zone(p, Extra)) && !IsTop(List(m, Zone(p, Deck)), x) ==>
      r.cards[x].code == m.cards[x].code
    ensures OnlyNamed(b, r, p)
  {
  }

  lemma StillNamed(c: Arena, d: Arena, but: seq<Key>, list: seq<Key>, codes: seq<U32>)
    requires Named(c, list, codes) && CodesStay(c, d, but) && forall k :: k in list ==> k !in but
    ensures Named(d, list, codes)
  {
    forall i | 0 <= i < |list| ensures list[i] in d && d[list[i]].code == codes[i] {
      var k := list[i];
      assert k in list && k !in but;
    }
  }

  // ---------- reload: cards already there ----------

  /** Every card is still there, in its position and with as many materials. */
  ghost predicate Stand(c: Arena, d: Arena) {
    forall k :: k in c ==> k in d && d[k].position == c[k].position && |d[k].overlayed| == |c[k].overlayed|
  }

  lemma AddCardStands(b: Board, key: Key, p: Player, kind: Kind, sequence: U8)
    ensures Stand(b.cards, AddCard(b, key, p, Location(In(kind), false), sequence).cards)
  {
    hide ExtraIndex, FaceupPendulumKey, ResetSequence, InsertAt, PutList, PutSlot, ForgetTargets;
    var placed := b.(cards := SetPlace(b.cards, key, p, Location(In(kind), false), sequence));
    var z := Zone(p, kind);
    match kind
    case Deck =>
      var list := InsertAt(List(placed, z), Min(sequence, |List(placed, z)|), key);
      ResetSequenceFrame(placed.cards, list, 0);
      ClearStands(ResetSequence(placed.cards, list, 0), key);
    case Hand => ResetSequenceFrame(placed.cards, InsertAt(List(placed, z), |List(placed, z)|, key), 0);
    case Extra => ResetSequenceFrame(placed.cards, InsertAt(List(placed, z), ExtraIndex(placed, p, FaceupPendulumKey(placed.cards, key)), key), 0);
    case _ =>
  }

  lemma AddCardCounts(b: Board, key: Key, p: Player, kind: Kind, sequence: U8)
    ensures OtherCount(b, AddCard(b, key, p, Location(In(kind), false), sequence), p)
  {
    hide ExtraIndex, FaceupPendulumKey, ResetSequence, InsertAt, PutList, PutSlot, ClearTargets, SetPlace;
  }

  lemma ClearStands(cards: Arena, key: Key)
    ensures Stand(cards, ClearTargets(ClearCard(cards, key), key))
  {
  }

  /** Only the face-up pendulum count of `p` may have changed. */
  ghost predicate OtherCount(b: Board, r: Board, p: Player) {
    forall q: Player :: q != p ==> PendulumCount(r, q) == PendulumCount(b, q)
  }

  lemma CreateInStands(b: Board, z: Zone, sequence: U8)
    requires Inv(b)
    ensures Stand(b.cards, CreateIn(b, z, sequence).cards) && OtherCount(b, CreateIn(b, z, sequence), z.player)
  {
    assert b.next !in b.cards;
    AddCardStands(CreateCard(b), b.next, z.player, z.kind, sequence);
    AddCardCounts(CreateCard(b), b.next, z.player, z.kind, sequence);
    hide AddCard, InvLoose;
  }

  lemma {:induction false} MaterialsAdded(b: Board, host: Key, p: Player, count: nat)
    requires Inv(b) && OnBoard(b, host)
    ensures var r := AddMaterials(b, host, p, count).cards;
      && AddMaterials(b, host, p, count).pendulum == b.pendulum
      && host in r && r[host].position == b.cards[host].position && |r[host].overlayed| == |b.cards[host].overlayed| + count
      && forall k :: k in b.cards && k != host ==> k in r && r[k].position == b.cards[k].position && |r[k].overlayed| == |b.cards[k].overlayed|
    decreases count
  {
    if count > 0 {
      CreateMaterialKeeps(b, host, Some(p), {});
      MaterialCreated(b, host, Some(p));
      assert b.next !in b.cards;
      hide InvLoose;
      MaterialsAdded(CreateMaterial(b, host, Some(p)), host, p, count - 1);
    }
  }

  // ---------- reload: what is put down ----------

  /** The slot holds a card exactly when the message says so, in the position and with the materials it gives. */
  ghost predicate SlotMatches(r: Board, z: Zone, i: nat, occupied: bool, position: bv8, materials: nat) {
    && Cell(r, z, i).Some? == occupied
    && (occupied ==> var key := Cell(r, z, i).value;
          key in r.cards && r.cards[key].position == position && |r.cards[key].overlayed| == materials)
  }

  lemma StillMatches(b: Board, r: Board, z: Zone, i: nat, occupied: bool, position: bv8, materials: nat)
    requires SlotMatches(b, z, i, occupied, position, materials) && Stand(b.cards, r.cards) && Cell(r, z, i) == Cell(b, z, i)
    ensures SlotMatches(r, z, i, occupied, position, materials)
  {
  }

  /** One card put into slot `i`, with its materials. */
  lemma {:induction false} OnePutDown(b: Board, z: Zone, i: U8, position: bv8, materials: nat)
    requires Inv(b) && IsSlots(z.kind) && EmptyFrom(b.zones, z, i) && i < if z.kind.MZone? then 7 else 8
    ensures var b1 := CreateIn(b, z, i);
      var b2 := b1.(cards := SetPosition(b1.cards, b.next, position));
      var r := AddMaterials(b2, b.next, z.player, materials);
      && Inv(b2) && Inv(r) && EmptyFrom(b2.zones, z, i + 1) && r.zones == b2.zones && SameZoneBut(b, r, z)
      && Stand(b.cards, b2.cards) && Stand(b.cards, r.cards) && OtherCount(b, r, z.player) && OtherCount(b, b2, z.player)
      && SlotMatches(b2, z, i, true, position, 0) && SlotMatches(r, z, i, true, position, materials)
      && forall j: nat :: j < i ==> Cell(r, z, j) == Cell(b, z, j)
  {
    hide InvLoose, CreateIn, SetPosition, PutSlot, AddMaterials, CreateMaterial, Stand, SlotMatches, OnBoard;
    var b1 := CreateIn(b, z, i);
    SlotFree(b, z, i);
    CreateInKeeps(b, z, i);
    CreateInStands(b, z, i);
    FilledSlot(b.zones, z, i, b.next);
    PutSlotCells(b.zones, z, i, Some(b.next));
    CreatedOnBoard(b1, z, i, b.next);
    var b2 := b1.(cards := SetPosition(b1.cards, b.next, position));
    SetPositionKeeps(b1, b.next, position, {});
    PositionStands(b, b1, position);
    AddMaterialsKeep(b2, b.next, z.player, materials);
    MaterialsAdded(b2, b.next, z.player, materials);
    PutDownMatches(b, b2, AddMaterials(b2, b.next, z.player, materials), z, i, position, materials);
  }

  lemma PositionStands(b: Board, b1: Board, position: bv8)
    requires Inv(b) && Stand(b.cards, b1.cards) && OnBoard(b1, b.next)
    ensures var c := SetPosition(b1.cards, b.next, position);
      && Stand(b.cards, c) && b.next !in b.cards && OnBoard(b1.(cards := c), b.next)
      && c[b.next].position == position && c[b.next].overlayed == b1.cards[b.next].overlayed
  {
    assert b.next !in b.cards;
  }

  lemma PutDownMatches(b: Board, b2: Board, r: Board, z: Zone, i: nat, position: bv8, materials: nat)
    requires Stand(b.cards, b2.cards) && b.next !in b.cards && r.zones == b2.zones && Cell(b2, z, i) == Some(b.next)
    requires b.next in b2.cards && b2.cards[b.next].position == position && b2.cards[b.next].overlayed == []
    requires b.next in r.cards && r.cards[b.next].position == position && |r.cards[b.next].overlayed| == materials
    requires forall k :: k in b2.cards && k != b.next ==>
      k in r.cards && r.cards[k].position == b2.cards[k].position && |r.cards[k].overlayed| == |b2.cards[k].overlayed|
    ensures Stand(b.cards, r.cards)
    ensures SlotMatches(b2, z, i, true, position, 0) && SlotMatches(r, z, i, true, position, materials)
  {
  }

  ghost predicate MonstersMatch(r: Board, p: Player, mzone: seq<MonsterSlot>, i: nat) {
    forall j :: i <= j < |mzone| ==> SlotMatches(r, Zone(p, MZone), j, mzone[j].occupied, mzone[j].position, mzone[j].xyzCount)
  }

  ghost predicate SpellsMatch(r: Board, p: Player, szone: seq<SpellSlot>, i: nat) {
    forall j :: i <= j < |szone| ==> SlotMatches(r, Zone(p, SZone), j, szone[j].occupied, szone[j].position, 0)
  }

  ghost predicate FirstCells(b: Board, r: Board, z: Zone, i: nat) {
    forall j: nat :: j < i ==> Cell(r, z, j) == Cell(b, z, j)
  }

  lemma StandsOn(c: Arena, d: Arena, e: Arena)
    requires Stand(c, d) && Stand(d, e)
    ensures Stand(c, e)
  {
  }

  lemma {:induction false} LoadMonstersMatch(b: Board, p: Player, mzone: seq<MonsterSlot>, i: nat)
    requires Inv(b) && i <= |mzone| <= 7 && EmptyFrom(b.zones, Zone(p, MZone), i)
    ensures var r := LoadMonsters(b, p, mzone, i);
      Stand(b.cards, r.cards) && OtherCount(b, r, p) && FirstCells(b, r, Zone(p, MZone), i) && MonstersMatch(r, p, mzone, i)
    decreases |mzone| - i
  {
    hide InvLoose, CreateIn, SetPosition, AddMaterials, Stand, SlotMatches;
    var z, r := Zone(p, MZone), LoadMonsters(b, p, mzone, i);
    if i == |mzone| {
      StandsAsItIs(b.cards);
    } else if !mzone[i].occupied {
      LoadMonstersMatch(b, p, mzone, i + 1);
      EmptySlot(b, r, z, i, mzone[i].position, mzone[i].xyzCount);
    } else {
      OnePutDown(b, z, i, mzone[i].position, mzone[i].xyzCount);
      var b1 := CreateIn(b, z, i);
      var b3 := AddMaterials(b1.(cards := SetPosition(b1.cards, b.next, mzone[i].position)), b.next, p, mzone[i].xyzCount);
      LoadMonstersMatch(b3, p, mzone, i + 1);
      StandsOn(b.cards, b3.cards, r.cards);
      StillMatches(b3, r, z, i, true, mzone[i].position, mzone[i].xyzCount);
    }
  }

  lemma StandsAsItIs(c: Arena)
    ensures Stand(c, c)
  {
  }

  lemma EmptySlot(b: Board, r: Board, z: Zone, i: nat, position: bv8, materials: nat)
    requires EmptyFrom(b.zones, z, i) && FirstCells(b, r, z, i + 1)
    ensures SlotMatches(r, z, i, false, position, materials)
  {
  }

  lemma {:induction false} LoadSpellsMatch(b: Board, p: Player, szone: seq<SpellSlot>, i: nat)
    requires Inv(b) && i <= |szone| <= 8 && EmptyFrom(b.zones, Zone(p, SZone), i)
    ensures var r := LoadSpells(b, p, szone, i);
      Stand(b.cards, r.cards) && OtherCount(b, r, p) && FirstCells(b, r, Zone(p, SZone), i) && SpellsMatch(r, p, szone, i)
    decreases |szone| - i
  {
    hide InvLoose, CreateIn, SetPosition, AddMaterials, Stand, SlotMatches;
    var z, r := Zone(p, SZone), LoadSpells(b, p, szone, i);
    if i == |szone| {
      StandsAsItIs(b.cards);
    } else if !szone[i].occupied {
      LoadSpellsMatch(b, p, szone, i + 1);
      EmptySlot(b, r, z, i, szone[i].position, 0);
    } else {
      OnePutDown(b, z, i, szone[i].position, 0);
      var b1 := CreateIn(b, z, i);
      var b2 := b1.(cards := SetPosition(b1.cards, b.next, szone[i].position));
      LoadSpellsMatch(b2, p, szone, i + 1);
      StandsOn(b.cards, b2.cards, r.cards);
      StillMatches(b2, r, z, i, true, szone[i].position, 0);
    }
  }

  lemma {:induction false} LoadListStands(b: Board, z: Zone, count: U8, i: nat)
    requires Inv(b) && !IsSlots(z.kind) && i <= count && |List(b, z)| == i
    ensures Stand(b.cards, LoadList(b, z, count, i).cards) && OtherCount(b, LoadList(b, z, count, i), z.player)
    decreases count - i
  {
    hide InvLoose, CreateIn, Stand;
    StandsAsItIs(b.cards);
    if i < count {
      CreateInKeeps(b, z, i);
      CreateInStands(b, z, i);
      LoadListStands(CreateIn(b, z, i), z, count, i + 1);
      StandsOn(b.cards, CreateIn(b, z, i).cards, LoadList(b, z, count, i).cards);
    }
  }

  ghost predicate CountsMatch(r: Board, p: Player, counts: seq<ListCount>) {
    forall i :: 0 <= i < |counts| ==> |List(r, Zone(p, counts[i].kind))| == counts[i].count
  }

  ghost predicate OnlyLists(b: Board, r: Board, p: Player, counts: seq<ListCount>) {
    forall z: Zone :: (forall i :: 0 <= i < |counts| ==> z != Zone(p, counts[i].kind)) ==>
      List(r, z) == List(b, z) && SlotsIn(r.zones, z) == SlotsIn(b.zones, z)
  }

  lemma {:induction false} LoadListsMatch(b: Board, p: Player, counts: seq<ListCount>)
    requires Inv(b)
    requires forall i :: 0 <= i < |counts| ==> !IsSlots(counts[i].kind) && List(b, Zone(p, counts[i].kind)) == []
    requires forall i, j :: 0 <= i < j < |counts| ==> counts[i].kind != counts[j].kind
    ensures var r := LoadLists(b, p, counts);
      Stand(b.cards, r.cards) && OtherCount(b, r, p) && CountsMatch(r, p, counts) && OnlyLists(b, r, p, counts)
    decreases counts
  {
    hide InvLoose, LoadList, Stand;
    StandsAsItIs(b.cards);
    if counts != [] {
      var z := Zone(p, counts[0].kind);
      LoadListKeeps(b, z, counts[0].count, 0);
      LoadListStands(b, z, counts[0].count, 0);
      var b1 := LoadList(b, z, counts[0].count, 0);
      var r := LoadLists(b1, p, counts[1..]);
      forall i | 0 <= i < |counts[1..]| ensures List(b1, Zone(p, counts[1..][i].kind)) == [] && counts[1..][i].kind != z.kind {
        assert counts[1..][i] == counts[i + 1];
      }
      LoadListsMatch(b1, p, counts[1..]);
      StandsOn(b.cards, b1.cards, r.cards);
      ListsCount(b, b1, r, p, counts);
    }
  }

  lemma ListsCount(b: Board, b1: Board, r: Board, p: Player, counts: seq<ListCount>)
    requires counts != [] && SameZoneBut(b, b1, Zone(p, counts[0].kind)) && |List(b1, Zone(p, counts[0].kind))| == counts[0].count
    requires forall i, j :: 0 <= i < j < |counts| ==> counts[i].kind != counts[j].kind
    requires CountsMatch(r, p, counts[1..]) && OnlyLists(b1, r, p, counts[1..])
    ensures CountsMatch(r, p, counts) && OnlyLists(b, r, p, counts)
  {
    forall i | 0 <= i < |counts| ensures |List(r, Zone(p, counts[i].kind))| == counts[i].count {
      if i > 0 {
        assert counts[i] == counts[1..][i - 1];
      } else {
        assert forall j :: 0 <= j < |counts[1..]| ==> counts[1..][j] == counts[j + 1];
      }
    }
    forall z: Zone | forall i :: 0 <= i < |counts| ==> z != Zone(p, counts[i].kind)
      ensures List(r, z) == List(b, z) && SlotsIn(r.zones, z) == SlotsIn(b.zones, z)
    {
      assert forall j :: 0 <= j < |counts[1..]| ==> counts[1..][j] == counts[j + 1];
      assert z != Zone(p, counts[0].kind);
    }
  }

  // ---------- reload: the whole field ----------

  /** The side of `p` is the one the message describes. */
  ghost predicate Rebuilt(r: Board, p: Player, f: PlayerField) {
    && MonstersMatch(r, p, f.mzone, 0) && SpellsMatch(r, p, f.szone, 0)
    && |List(r, Zone(p, Deck))| == f.mainCount && |List(r, Zone(p, Hand))| == f.handCount
    && |List(r, Zone(p, Grave))| == f.graveCount && |List(r, Zone(p, Removed))| == f.removeCount
    && |List(r, Zone(p, Extra))| == f.extraCount && PendulumCount(r, p) == f.pendulumCount
  }

  lemma SlotsStillMatch(b: Board, r: Board, p: Player, f: PlayerField)
    requires Stand(b.cards, r.cards) && MonstersMatch(b, p, f.mzone, 0) && SpellsMatch(b, p, f.szone, 0)
    requires SlotsIn(r.zones, Zone(p, MZone)) == SlotsIn(b.zones, Zone(p, MZone)) && SlotsIn(r.zones, Zone(p, SZone)) == SlotsIn(b.zones, Zone(p, SZone))
    ensures MonstersMatch(r, p, f.mzone, 0) && SpellsMatch(r, p, f.szone, 0)
  {
    hide Stand, SlotMatches;
    forall j | 0 <= j < |f.mzone| ensures SlotMatches(r, Zone(p, MZone), j, f.mzone[j].occupied, f.mzone[j].position, f.mzone[j].xyzCount) {
      StillMatches(b, r, Zone(p, MZone), j, f.mzone[j].occupied, f.mzone[j].position, f.mzone[j].xyzCount);
    }
    forall j | 0 <= j < |f.szone| ensures SlotMatches(r, Zone(p, SZone), j, f.szone[j].occupied, f.szone[j].position, 0) {
      StillMatches(b, r, Zone(p, SZone), j, f.szone[j].occupied, f.szone[j].position, 0);
    }
  }

  lemma {:induction false} RowsMatch(b: Board, p: Player, f: PlayerField)
    requires Inv(b) && PlayerEmpty(b, p)
    ensures var r := LoadSpells(LoadMonsters(b, p, f.mzone, 0), p, f.szone, 0);
      Stand(b.cards, r.cards) && OtherCount(b, r, p) && MonstersMatch(r, p, f.mzone, 0) && SpellsMatch(r, p, f.szone, 0)
  {
    hide InvLoose, LoadMonsters, LoadSpells, Stand, SlotMatches;
    var b1 := LoadMonsters(b, p, f.mzone, 0);
    var r := LoadSpells(b1, p, f.szone, 0);
    LoadMonstersKeep(b, p, f.mzone, 0);
    LoadMonstersMatch(b, p, f.mzone, 0);
    assert EmptyFrom(b1.zones, Zone(p, SZone), 0) by {
      forall j: nat ensures CellIn(b1.zones, Zone(p, SZone), j).None? {
        assert CellIn(b.zones, Zone(p, SZone), j).None?;
      }
    }
    LoadSpellsKeep(b1, p, f.szone, 0);
    LoadSpellsMatch(b1, p, f.szone, 0);
    StandsOn(b.cards, b1.cards, r.cards);
    forall j | 0 <= j < |f.mzone| ensures SlotMatches(r, Zone(p, MZone), j, f.mzone[j].occupied, f.mzone[j].position, f.mzone[j].xyzCount) {
      StillMatches(b1, r, Zone(p, MZone), j, f.mzone[j].occupied, f.mzone[j].position, f.mzone[j].xyzCount);
    }
  }

  lemma LoadPlayerRebuilds(b: Board, p: Player, f: PlayerField)
    requires Inv(b) && PlayerEmpty(b, p)
    ensures Stand(b.cards, LoadPlayer(b, p, f).cards) && Rebuilt(LoadPlayer(b, p, f), p, f)
    ensures OtherCount(b, LoadPlayer(b, p, f), p)
  {
    hide InvLoose, LoadMonsters, LoadSpells, LoadLists, PlayerEmpty, Stand, MonstersMatch, SpellsMatch;
    var b1 := LoadSpells(LoadMonsters(b, p, f.mzone, 0), p, f.szone, 0);
    var counts := ListCounts(f);
    LoadSlotsKeep(b, p, f);
    RowsMatch(b, p, f);
    LoadListsMatch(b1, p, counts);
    var b2 := LoadLists(b1, p, counts);
    StandsOn(b.cards, b1.cards, b2.cards);
    SlotsStillMatch(b1, b2, p, f);
    SlotsSameBoard(b2, SetPendulum(b2, p, f.pendulumCount), p, f);
    assert counts[0].kind == Deck && counts[1].kind == Hand && counts[2].kind == Grave && counts[3].kind == Removed && counts[4].kind == Extra;
  }

  lemma SlotsSameBoard(b: Board, r: Board, p: Player, f: PlayerField)
    requires MonstersMatch(b, p, f.mzone, 0) && SpellsMatch(b, p, f.szone, 0) && r.cards == b.cards && r.zones == b.zones
    ensures MonstersMatch(r, p, f.mzone, 0) && SpellsMatch(r, p, f.szone, 0)
  {
    StandsAsItIs(b.cards);
    SlotsStillMatch(b, r, p, f);
  }

  /** The reloaded field is the one described, whatever was there before. */
  lemma ReloadRebuilds(b: Board, player1: PlayerField, player2: PlayerField)
    ensures var r := Step(b, Message.ReloadField(player1, player2)); Rebuilt(r, First, player1) && Rebuilt(r, Second, player2)
  {
    hide InvLoose, LoadPlayer, PlayerEmpty, Rebuilt, Stand, Empty;
    NothingThere();
    var b1 := LoadPlayer(Empty(), First, player1);
    var r := LoadPlayer(b1, Second, player2);
    LoadPlayerKeeps(Empty(), First, player1);
    OthersStayEmpty(Empty(), b1, First, Second);
    LoadPlayerRebuilds(Empty(), First, player1);
    LoadPlayerKeeps(b1, Second, player2);
    LoadPlayerRebuilds(b1, Second, player2);
    StillRebuilt(b1, r, First, player1);
  }

  lemma NothingThere()
    ensures Inv(Empty()) && PlayerEmpty(Empty(), First) && PlayerEmpty(Empty(), Second)
  {
    EmptyKeeps();
  }

  lemma StillRebuilt(b: Board, r: Board, p: Player, f: PlayerField)
    requires Rebuilt(b, p, f) && Stand(b.cards, r.cards) && PendulumCount(r, p) == PendulumCount(b, p)
    requires forall kind: Kind :: List(r, Zone(p, kind)) == List(b, Zone(p, kind)) && SlotsIn(r.zones, Zone(p, kind)) == SlotsIn(b.zones, Zone(p, kind))
    ensures Rebuilt(r, p, f)
  {
    hide Stand, MonstersMatch, SpellsMatch;
    SlotsStillMatch(b, r, p, f);
  }
}
