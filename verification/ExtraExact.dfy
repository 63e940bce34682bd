/** What keeps the extra deck in order. */
module ExtraExactness {
  // When the order survives the messages that can break it, and when not.
  //
  // An update may turn a card of the extra deck into or out of a face-up pendulum card, a tag swap and a
  // reload set the count the message announces. Each condition is told by the message and the board before it.

  import opened Options
  import opened Board
  import opened Placement
  import opened Zoning
  import opened Evolution
  import opened Reloads
  import opened Faces
  import opened Rebuilds
  import opened ExtraDeck

  // ---------- updates ----------

  /** The message leaves every card of an extra deck on its side of being a face-up pendulum card. */
  ghost predicate KeepsSides(b: Board, m: Message) {
    forall p: Player, j: nat :: j < |ExtraList(b, p)| ==>
      var key := ExtraList(b, p)[j];
      key in b.cards ==> (FaceupPendulum(FaceUnder(m, Zone(p, Extra), j, FaceOf(b.cards[key]))) <==> IsFaceupPendulum(b.cards[key]))
  }

  lemma ExtraCell(b: Board, p: Player, j: nat)
    requires j < |ExtraList(b, p)|
    ensures Cell(b, Zone(p, Extra), j) == Some(ExtraList(b, p)[j])
  {
  }

  lemma SidesOfCard(b: Board, m: Message, p: Player, j: nat)
    requires Inv(b) && Legal(b, m) && UpdatesCards(m) && j < |ExtraList(b, p)|
    ensures var key := ExtraList(b, p)[j];
      && SameBoard(b, Step(b, m)) && key in b.cards
      && (FaceupPendulumKey(Step(b, m).cards, key) <==> FaceupPendulum(FaceUnder(m, Zone(p, Extra), j, FaceOf(b.cards[key]))))
  {
    hide InvLoose, Legal, Step, FaceUnder, Cell;
    ExtraCell(b, p, j);
    UpdateGivesFaces(b, m, Zone(p, Extra), j, ExtraList(b, p)[j]);
  }

  lemma UpdateKeepsZones(b: Board, m: Message)
    requires Legal(b, m) && UpdatesCards(m)
    ensures SameBoard(b, Step(b, m))
  {
    hide UpdateZone, ApplyQueries, GetCard, LegalInfo;
    match m
    case UpdateData(p, location, infos) => UpdateZoneBoard(b, p, location, infos, 0);
    case UpdateCard(at, info) =>
      var key := GetCard(b, at.controller, at.location, at.sequence, 0);
      if key.Some? && info.Some? { ApplyQueriesBoard(b, key.value, info.value); }
    case _ =>
  }

  lemma {:induction false} UpdateZoneBoard(b: Board, p: Player, location: Location, infos: seq<UpdateInfo>, i: nat)
    requires i <= |infos|
    ensures SameBoard(b, UpdateZone(b, p, location, infos, i))
    decreases |infos| - i
  {
    hide GetCard, ApplyQueries;
    if i < |infos| {
      var key := GetCard(b, p, location, AsU8(i), 0);
      var b1 := if key.None? then b else UpdateCardInfo(b, key.value, infos[i]);
      if key.Some? && infos[i].Some? { ApplyQueriesBoard(b, key.value, infos[i].value); }
      UpdateZoneBoard(b1, p, location, infos, i + 1);
    }
  }

  /** An update keeps a sorted extra deck sorted if and only if no card of it changes sides. */
  lemma UpdateSortedExactly(b: Board, m: Message)
    requires Inv(b) && Legal(b, m) && UpdatesCards(m) && Sorted(b)
    ensures Sorted(Step(b, m)) <==> KeepsSides(b, m)
  {
    hide InvLoose, Legal, Step, FaceUnder, IsFaceupPendulum, FaceupPendulum;
    UpdateKeepsZones(b, m);
    var r := Step(b, m);
    forall p: Player, j: nat | j < |ExtraList(b, p)|
      ensures ExtraList(r, p)[j] in b.cards
      ensures var key := ExtraList(b, p)[j];
        FaceupPendulumKey(r.cards, key) <==> FaceupPendulum(FaceUnder(m, Zone(p, Extra), j, FaceOf(b.cards[key])))
    {
      SidesOfCard(b, m, p, j);
    }
    if KeepsSides(b, m) {
      forall p: Player ensures ExtraSorted(r, p) { assert ExtraSorted(b, p); }
    }
    if Sorted(r) {
      forall p: Player, j: nat | j < |ExtraList(b, p)|
        ensures FaceupPendulumKey(r.cards, ExtraList(b, p)[j]) <==> FaceupPendulumKey(b.cards, ExtraList(b, p)[j])
      {
        assert ExtraSorted(b, p) && ExtraSorted(r, p);
      }
    }
  }

  // ---------- tag swaps ----------

  /**
  The announced count is the number of face-up pendulum cards among those that are left, and none is left when
  new cards come on top.
  */
  ghost predicate CountFits(b: Board, p: Player, length: nat, count: int) {
    var list, n := ExtraList(b, p), PendulumCount(b, p);
    if length <= |list| then count == AtLeast0(length - (|list| - n)) else n == 0 && count == 0
  }

  /** The top `count` cards are those on the one side, when these lie from index `from` to `to`. */
  lemma TopRange(sides: seq<bool>, from: nat, to: nat, count: int)
    requires from <= to <= |sides| && count >= 0
    requires forall i :: 0 <= i < |sides| ==> (sides[i] <==> from <= i < to)
    ensures (count <= |sides| && forall i :: 0 <= i < |sides| ==> (sides[i] <==> |sides| - count <= i))
      <==> (count == to - from && (to == |sides| || from == to))
  {
    var n := |sides|;
    var first := if from < n then sides[from] else false;
    var last := if n > 0 then sides[n - 1] else false;
    var edge := if 0 <= n - count < n then sides[n - count] else false;
    assert last ==> to == n;
    assert first ==> from < to;
    assert edge ==> from <= n - count < to;
  }

  lemma TagSwapCards(b: Board, p: Player, mainCount: U8, pendulumCount: U8, topCode: U32, hand: seq<U32>, extra: seq<U32>, i: nat)
    requires Inv(b) && |hand| <= NUMBERS && |extra| <= NUMBERS && i < |extra| && ExtraSorted(b, p)
    ensures var r := TagSwapStep(b, p, mainCount, pendulumCount, topCode, hand, extra);
      var list, n := ExtraList(b, p), PendulumCount(b, p);
      && |ExtraList(r, p)| == |extra|
      && (FaceupPendulumKey(r.cards, ExtraList(r, p)[i]) <==> |list| - n <= i < |list|)
  {
    var r := TagSwapStep(b, p, mainCount, pendulumCount, topCode, hand, extra);
    TagSwapRebuilds(b, p, mainCount, pendulumCount, topCode, hand, extra);
    TagSwapKeeps(b, p, mainCount, pendulumCount, topCode, hand, extra);
    ExtraLive(b, p, {});
    ExtraLive(r, p, {});
    hide TagSwapStep, Named;
    var key := ExtraList(r, p)[i];
    assert key in ExtraList(r, p);
    if i < |ExtraList(b, p)| {
      ResizedAt(ExtraList(b, p), ExtraList(r, p), |extra|, i);
      assert ExtraList(b, p)[i] in ExtraList(b, p);
      OldKey(b, key);
    }
    hide InvLoose;
  }

  lemma ResizedAt(old0: seq<Key>, new0: seq<Key>, count: nat, i: nat)
    requires Resized(old0, new0, count) && i < count && i < |old0|
    ensures new0[i] == old0[i]
  {
    var n := Min(count, |old0|);
    assert new0[i] == new0[..n][i] && old0[i] == old0[..n][i];
  }

  lemma OldKey(b: Board, key: Key)
    requires Inv(b) && key in b.cards
    ensures key < b.next
  {
  }

  lemma TagSwapOther(b: Board, p: Player, mainCount: U8, pendulumCount: U8, topCode: U32, hand: seq<U32>, extra: seq<U32>, q: Player)
    requires Inv(b) && |hand| <= NUMBERS && |extra| <= NUMBERS && q != p && ExtraSorted(b, q)
    ensures ExtraSorted(TagSwapStep(b, p, mainCount, pendulumCount, topCode, hand, extra), q)
  {
    var r := TagSwapStep(b, p, mainCount, pendulumCount, topCode, hand, extra);
    TagSwapRebuilds(b, p, mainCount, pendulumCount, topCode, hand, extra);
    TagSwapKeeps(b, p, mainCount, pendulumCount, topCode, hand, extra);
    ExtraLive(b, q, {});
    ExtraLive(r, q, {});
    assert ExtraList(r, q) == ExtraList(b, q);
    forall i | 0 <= i < |ExtraList(b, q)|
      ensures FaceupPendulumKey(r.cards, ExtraList(r, q)[i]) <==> FaceupPendulumKey(b.cards, ExtraList(b, q)[i])
    {
      assert ExtraList(b, q)[i] in ExtraList(b, q);
      OldKey(b, ExtraList(b, q)[i]);
      hide InvLoose, TagSwapStep, Named;
    }
    hide InvLoose, TagSwapStep, Named;
  }

  /** A tag swap keeps sorted extra decks sorted if and only if the count it announces fits the cards it leaves. */
  lemma TagSwapSortedExactly(b: Board, p: Player, mainCount: U8, pendulumCount: U8, topCode: U32, hand: seq<U32>, extra: seq<U32>)
    requires Inv(b) && |hand| <= NUMBERS && |extra| <= NUMBERS && Sorted(b)
    ensures Sorted(TagSwapStep(b, p, mainCount, pendulumCount, topCode, hand, extra)) <==> CountFits(b, p, |extra|, pendulumCount)
  {
    hide InvLoose, TagSwapStep, FaceupPendulumKey;
    var r := TagSwapStep(b, p, mainCount, pendulumCount, topCode, hand, extra);
    TagSwapLength(b, p, mainCount, pendulumCount, topCode, hand, extra);
    assert ExtraSorted(b, p);
    forall i: nat | i < |extra| ensures FaceupPendulumKey(r.cards, ExtraList(r, p)[i]) <==> |ExtraList(b, p)| - PendulumCount(b, p) <= i < |ExtraList(b, p)| {
      TagSwapCards(b, p, mainCount, pendulumCount, topCode, hand, extra, i);
    }
    var m := |ExtraList(b, p)| - PendulumCount(b, p);
    var sides := seq(|extra|, i requires 0 <= i < |extra| && |ExtraList(r, p)| == |extra| => FaceupPendulumKey(r.cards, ExtraList(r, p)[i]));
    TopRange(sides, Min(m, |extra|), Min(|ExtraList(b, p)|, |extra|), pendulumCount);
    SidesSorted(r, p, sides);
    forall q: Player | q != p ensures ExtraSorted(r, q) {
      assert ExtraSorted(b, q);
      TagSwapOther(b, p, mainCount, pendulumCount, topCode, hand, extra, q);
    }
    hide ExtraSorted;
  }

  lemma SidesSorted(r: Board, p: Player, sides: seq<bool>)
    requires |sides| == |ExtraList(r, p)| && forall i :: 0 <= i < |sides| ==> sides[i] == FaceupPendulumKey(r.cards, ExtraList(r, p)[i])
    ensures var n := PendulumCount(r, p);
      ExtraSorted(r, p) <==> 0 <= n <= |sides| && forall i :: 0 <= i < |sides| ==> (sides[i] <==> |sides| - n <= i)
  {
    hide FaceupPendulumKey;
    if ExtraSorted(r, p) {
      forall i | 0 <= i < |sides| ensures sides[i] <==> |sides| - PendulumCount(r, p) <= i {
        assert sides[i] == FaceupPendulumKey(r.cards, ExtraList(r, p)[i]);
      }
    }
    if forall i :: 0 <= i < |sides| ==> (sides[i] <==> |sides| - PendulumCount(r, p) <= i) {
      forall i | 0 <= i < |sides| ensures FaceupPendulumKey(r.cards, ExtraList(r, p)[i]) <==> |sides| - PendulumCount(r, p) <= i {
        assert sides[i] == FaceupPendulumKey(r.cards, ExtraList(r, p)[i]);
      }
    }
  }

  lemma TagSwapLength(b: Board, p: Player, mainCount: U8, pendulumCount: U8, topCode: U32, hand: seq<U32>, extra: seq<U32>)
    requires Inv(b) && |hand| <= NUMBERS && |extra| <= NUMBERS
    ensures var r := TagSwapStep(b, p, mainCount, pendulumCount, topCode, hand, extra);
      |ExtraList(r, p)| == |extra| && PendulumCount(r, p) == pendulumCount
  {
    TagSwapRebuilds(b, p, mainCount, pendulumCount, topCode, hand, extra);
    hide TagSwapStep, Named, InvLoose;
  }

  // ---------- reloads ----------

  ghost predicate Untyped(cards: Arena) { forall k :: k in cards ==> cards[k].cardType == NO_TYPE }

  lemma AddUntyped(b: Board, key: Key, p: Player, kind: Kind, sequence: U8)
    requires Untyped(b.cards)
    ensures Untyped(AddCard(b, key, p, Location(In(kind), false), sequence).cards)
  {
    hide ExtraIndex, FaceupPendulumKey, ResetSequence, InsertAt, PutList, PutSlot, ForgetTargets;
    var placed := b.(cards := SetPlace(b.cards, key, p, Location(In(kind), false), sequence));
    var z := Zone(p, kind);
    match kind
    case Deck =>
      var list := InsertAt(List(placed, z), Min(sequence, |List(placed, z)|), key);
      ResetSequenceFrame(placed.cards, list, 0);
      ClearUntyped(ResetSequence(placed.cards, list, 0), key);
    case Hand => ResetSequenceFrame(placed.cards, InsertAt(List(placed, z), |List(placed, z)|, key), 0);
    case Extra => ResetSequenceFrame(placed.cards, InsertAt(List(placed, z), ExtraIndex(placed, p, FaceupPendulumKey(placed.cards, key)), key), 0);
    case _ =>
  }

  lemma ClearUntyped(cards: Arena, key: Key)
    requires Untyped(cards)
    ensures Untyped(ClearTargets(ClearCard(cards, key), key))
  {
  }

  lemma CreateUntyped(b: Board, z: Zone, sequence: U8)
    requires Untyped(b.cards)
    ensures Untyped(CreateIn(b, z, sequence).cards)
  {
    AddUntyped(CreateCard(b), b.next, z.player, z.kind, sequence);
  }

  lemma {:induction false} MaterialsUntyped(b: Board, host: Key, p: Player, count: nat)
    requires Untyped(b.cards)
    ensures Untyped(AddMaterials(b, host, p, count).cards)
    decreases count
  {
    if count > 0 && host in b.cards { MaterialsUntyped(CreateMaterial(b, host, Some(p)), host, p, count - 1); }
  }

  lemma PositionUntyped(cards: Arena, key: Key, position: bv8)
    requires Untyped(cards)
    ensures Untyped(SetPosition(cards, key, position))
  {
  }

  lemma {:induction false} MonstersUntyped(b: Board, p: Player, mzone: seq<MonsterSlot>, i: nat)
    requires Untyped(b.cards) && i <= |mzone| <= 7
    ensures Untyped(LoadMonsters(b, p, mzone, i).cards)
    decreases |mzone| - i
  {
    hide CreateIn, AddMaterials, SetPosition, Untyped;
    if i < |mzone| && !mzone[i].occupied {
      MonstersUntyped(b, p, mzone, i + 1);
    } else if i < |mzone| {
      var b1 := CreateIn(b, Zone(p, MZone), i);
      var b2 := b1.(cards := SetPosition(b1.cards, b.next, mzone[i].position));
      CreateUntyped(b, Zone(p, MZone), i);
      PositionUntyped(b1.cards, b.next, mzone[i].position);
      MaterialsUntyped(b2, b.next, p, mzone[i].xyzCount);
      MonstersUntyped(AddMaterials(b2, b.next, p, mzone[i].xyzCount), p, mzone, i + 1);
    }
  }

  lemma {:induction false} SpellsUntyped(b: Board, p: Player, szone: seq<SpellSlot>, i: nat)
    requires Untyped(b.cards) && i <= |szone| <= 8
    ensures Untyped(LoadSpells(b, p, szone, i).cards)
    decreases |szone| - i
  {
    hide CreateIn, SetPosition, Untyped;
    if i < |szone| && !szone[i].occupied {
      SpellsUntyped(b, p, szone, i + 1);
    } else if i < |szone| {
      var b1 := CreateIn(b, Zone(p, SZone), i);
      CreateUntyped(b, Zone(p, SZone), i);
      PositionUntyped(b1.cards, b.next, szone[i].position);
      SpellsUntyped(b1.(cards := SetPosition(b1.cards, b.next, szone[i].position)), p, szone, i + 1);
    }
  }

  lemma {:induction false} ListUntyped(b: Board, z: Zone, count: U8, i: nat)
    requires Untyped(b.cards) && i <= count
    ensures Untyped(LoadList(b, z, count, i).cards)
    decreases count - i
  {
    hide CreateIn, Untyped;
    if i < count {
      CreateUntyped(b, z, i);
      ListUntyped(CreateIn(b, z, i), z, count, i + 1);
    }
  }

  lemma {:induction false} ListsUntyped(b: Board, p: Player, counts: seq<ListCount>)
    requires Untyped(b.cards)
    ensures Untyped(LoadLists(b, p, counts).cards)
    decreases counts
  {
    hide LoadList, Untyped;
    if counts != [] {
      ListUntyped(b, Zone(p, counts[0].kind), counts[0].count, 0);
      ListsUntyped(LoadList(b, Zone(p, counts[0].kind), counts[0].count, 0), p, counts[1..]);
    }
  }

  lemma PlayerUntyped(b: Board, p: Player, f: PlayerField)
    requires Untyped(b.cards)
    ensures Untyped(LoadPlayer(b, p, f).cards)
  {
    hide LoadMonsters, LoadSpells, LoadLists, Untyped;
    MonstersUntyped(b, p, f.mzone, 0);
    SpellsUntyped(LoadMonsters(b, p, f.mzone, 0), p, f.szone, 0);
    ListsUntyped(LoadSpells(LoadMonsters(b, p, f.mzone, 0), p, f.szone, 0), p, ListCounts(f));
  }

  /** Cards without a type are sorted exactly if nothing is counted. */
  lemma UntypedSorted(b: Board, p: Player)
    requires Untyped(b.cards)
    ensures ExtraSorted(b, p) <==> PendulumCount(b, p) == 0
  {
    var list, n := ExtraList(b, p), PendulumCount(b, p);
    forall i | 0 <= i < |list| ensures !FaceupPendulumKey(b.cards, list[i]) {}
    hide FaceupPendulumKey;
    if 0 < n <= |list| { assert !FaceupPendulumKey(b.cards, list[|list| - 1]); }
  }

  /** A reloaded field, whose cards have no type yet, is sorted if and only if neither side announces a count. */
  lemma ReloadSortedExactly(b: Board, player1: PlayerField, player2: PlayerField)
    ensures Sorted(Step(b, Message.ReloadField(player1, player2))) <==> player1.pendulumCount == 0 && player2.pendulumCount == 0
  {
    hide Untyped, LoadPlayer, ExtraSorted, MonstersMatch, SpellsMatch, Empty;
    NoCards();
    var r := Step(b, Message.ReloadField(player1, player2));
    PlayerUntyped(Empty(), First, player1);
    PlayerUntyped(LoadPlayer(Empty(), First, player1), Second, player2);
    ReloadRebuilds(b, player1, player2);
    UntypedSorted(r, First);
    UntypedSorted(r, Second);
    if ExtraSorted(r, First) && ExtraSorted(r, Second) {
      forall p: Player ensures ExtraSorted(r, p) { assert p == First || p == Second; }
    }
  }

  lemma NoCards() ensures Untyped(Empty().cards) {}
}
