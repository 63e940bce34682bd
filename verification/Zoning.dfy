/**
The zone operations of the field, each with its effect on the invariant:
adding a loose card to a zone, taking a card out of one, and renumbering.
*/
module Zoning {
  import opened Options
  import opened Board
  import opened Placement

  /** How many cards of one list eight-bit sequence numbers tell apart. */
  const NUMBERS := 0x100

  /** The card is filed under zone `z` and is no material. */
  ghost predicate FiledUnder(cards: Arena, key: Key, z: Zone) {
    && key in cards
    && cards[key].overlayTarget.None?
    && cards[key].controller == Some(z.player)
    && cards[key].location == Location(In(z.kind), false)
  }

  ghost predicate SameRelations(c: Arena, d: Arena) {
    SameOverlays(c, d) && SameEquips(c, d) && SameTargets(c, d)
  }

  /** Code, type and position agree. */
  ghost predicate SameLooks(c: Arena, d: Arena) {
    c.Keys == d.Keys && forall k :: k in c ==>
      c[k].code == d[k].code && c[k].cardType == d[k].cardType && c[k].position == d[k].position
  }

  lemma RestoreList(b: Board, z: Zone, list: seq<Key>, cards: Arena)
    ensures SetList(SetList(b, z, []).(cards := cards), z, list) == SetList(b, z, list).(cards := cards)
  {
    assert PutList(PutList(b.zones, z, []), z, list) == PutList(b.zones, z, list);
  }

  lemma {:induction false} NumberedAt(cards: Arena, list: seq<Key>, z: Zone)
    requires Distinct(list) && |list| <= NUMBERS
    requires forall i :: 0 <= i < |list| ==> FiledUnder(cards, list[i], z)
    ensures forall i :: 0 <= i < |list| ==>
      list[i] in ResetSequence(cards, list, 0) && At(ResetSequence(cards, list, 0)[list[i]], z, i)
  {
    ResetSequenceFrame(cards, list, 0);
    ResetSequenceNumbers(cards, list, 0);
    hide ResetSequence;
    forall i | 0 <= i < |list|
      ensures list[i] in ResetSequence(cards, list, 0) && At(ResetSequence(cards, list, 0)[list[i]], z, i)
    {
      assert FiledUnder(cards, list[i], z);
    }
  }

  /** A list zone is given another order, or gains or loses loose cards, and is numbered afresh. */
  lemma {:induction false} Relist(b: Board, z: Zone, list: seq<Key>, loose: set<Key>)
    requires InvLoose(b, loose) && !IsSlots(z.kind)
    requires Distinct(list) && |list| <= NUMBERS && KeysOf(list) <= loose + KeysOf(List(b, z))
    requires forall i :: 0 <= i < |list| ==> FiledUnder(b.cards, list[i], z)
    ensures InvLoose(SetList(b, z, list).(cards := ResetSequence(b.cards, list, 0)), loose + KeysOf(List(b, z)) - KeysOf(list))
    ensures StaysExact(b.cards, ResetSequence(b.cards, list, 0))
  {
    var lifted := SetList(b, z, []);
    var loose' := loose + KeysOf(List(b, z));
    TakeList(b, z, loose);
    PutListCells(b.zones, z, []);
    FrameReset(b.cards, list);
    NumberedAt(b.cards, list, z);
    RestoreList(b, z, list, ResetSequence(b.cards, list, 0));
    hide InvLoose, Numbered, EquipsExact, ResetSequence, FiledUnder, At, Distinct, SameOverlays, SameEquips, SameTargets, PutList;
    var numbered := lifted.(cards := ResetSequence(b.cards, list, 0));
    assert SamePlacesBut(b.cards, numbered.cards, loose');
    PlacesOfLooseKeep(lifted, numbered.cards, loose');
    LayList(numbered, z, list, loose');
  }

  lemma PiledAt(cards: Arena, was: seq<Key>, key: Key, z: Zone)
    requires |was| < NUMBERS && key !in was && FiledUnder(cards, key, z)
    requires forall i :: 0 <= i < |was| ==> was[i] in cards && At(cards[was[i]], z, i)
    ensures var list := was + [key];
      var r := SetSequence(cards, key, AsU8(|was|));
      forall i :: 0 <= i < |list| ==> list[i] in r && At(r[list[i]], z, i)
  {
  }

  /** A loose card is put on top of a list whose other cards keep their numbers. */
  lemma PushOnPile(b: Board, z: Zone, key: Key, loose: set<Key>)
    requires InvLoose(b, loose) && !IsSlots(z.kind) && key in loose
    requires FiledUnder(b.cards, key, z) && |List(b, z)| < NUMBERS
    ensures InvLoose(PushToPile(b, z, key), loose - {key}) && StaysExact(b.cards, PushToPile(b, z, key).cards)
    ensures SameOverlays(b.cards, PushToPile(b, z, key).cards) && PushToPile(b, z, key).next == b.next
  {
    var was := List(b, z);
    var list := was + [key];
    var cards := SetSequence(b.cards, key, AsU8(|was|));
    var lifted := SetList(b, z, []);
    TakeList(b, z, loose);
    PutListCells(b.zones, z, []);
    FrameSequence(b.cards, key, AsU8(|was|));
    RestoreList(b, z, list, cards);
    assert key !in was by { assert key in was ==> key in KeysOf(was); }
    PiledAt(b.cards, was, key, z);
    hide InvLoose, Numbered, EquipsExact, SetSequence, SameOverlays, SameEquips, SameTargets, PutList, At, FiledUnder;
    assert KeysOf(list) == KeysOf(was) + {key};
    PlacesOfLooseKeep(lifted, cards, loose + KeysOf(was));
    LayList(lifted.(cards := cards), z, list, loose + KeysOf(was));
    assert loose + KeysOf(was) - KeysOf(list) == loose - {key};
  }

  /** The last card of a list is taken; nothing needs a new number. */
  lemma PopKeeps(b: Board, z: Zone, loose: set<Key>)
    requires InvLoose(b, loose) && !IsSlots(z.kind) && List(b, z) != []
    ensures var list := List(b, z);
      var n := |list| - 1;
      && InvLoose(SetList(b, z, list[..n]), loose + {list[n]})
      && list[n] in b.cards && list[n] !in loose
  {
    var list := List(b, z);
    var n := |list| - 1;
    var lifted := SetList(b, z, []);
    TakeList(b, z, loose);
    PutListCells(b.zones, z, []);
    RestoreList(b, z, list[..n], b.cards);
    hide InvLoose, Numbered, EquipsExact;
    assert list == list[..n] + [list[n]];
    assert KeysOf(list) == KeysOf(list[..n]) + {list[n]};
    assert forall i :: 0 <= i < |list| ==> list[i] in KeysOf(list);
    LayList(lifted, z, list[..n], loose + KeysOf(list));
    assert loose + KeysOf(list) - KeysOf(list[..n]) == loose + {list[n]};
  }

  lemma InsertFacts(list: seq<Key>, i: nat, key: Key)
    requires i <= |list| && Distinct(list) && key !in list
    ensures Distinct(InsertAt(list, i, key)) && |InsertAt(list, i, key)| == |list| + 1
    ensures KeysOf(InsertAt(list, i, key)) == KeysOf(list) + {key}
  {
    var r := InsertAt(list, i, key);
    assert forall j :: 0 <= j < |r| ==> r[j] == if j < i then list[j] else if j == i then key else list[j - 1];
    forall k | k in list ensures k in r {
      var j :| 0 <= j < |list| && list[j] == k;
      assert r[if j < i then j else j + 1] == k;
    }
    assert r[i] == key;
  }

  lemma RemoveFacts(list: seq<Key>, i: nat)
    requires i < |list| && Distinct(list)
    ensures Distinct(RemoveAt(list, i)) && |RemoveAt(list, i)| == |list| - 1
    ensures KeysOf(list) == KeysOf(RemoveAt(list, i)) + {list[i]} && list[i] !in RemoveAt(list, i)
  {
    var r := RemoveAt(list, i);
    assert forall j :: 0 <= j < |r| ==> r[j] == list[if j < i then j else j + 1];
    forall k | k in list && k != list[i] ensures k in r {
      var j :| 0 <= j < |list| && list[j] == k;
      assert r[if j < i then j else j - 1] == k;
    }
  }

  lemma ListDistinct(b: Board, z: Zone, loose: set<Key>)
    requires InvLoose(b, loose) && !IsSlots(z.kind)
    ensures Distinct(List(b, z)) && KeysOf(List(b, z)) !! loose && |List(b, z)| <= NUMBERS
    ensures forall i :: 0 <= i < |List(b, z)| ==> FiledUnder(b.cards, List(b, z)[i], z) && b.cards[List(b, z)[i]].sequence == i
  {
    var list := List(b, z);
    TakeList(b, z, loose);
    assert |list| > NUMBERS ==> b.cards[list[NUMBERS]].sequence == NUMBERS;
  }

  lemma InsertKeeps(b: Board, z: Zone, i: nat, key: Key, loose: set<Key>)
    requires InvLoose(b, loose) && !IsSlots(z.kind) && key in loose && i <= |List(b, z)| < NUMBERS
    requires FiledUnder(b.cards, key, z)
    ensures InvLoose(AddToList(b, z, i, key), loose - {key}) && StaysExact(b.cards, AddToList(b, z, i, key).cards)
    ensures SameRelations(b.cards, AddToList(b, z, i, key).cards) && AddToList(b, z, i, key).next == b.next
  {
    var was := List(b, z);
    var list := InsertAt(was, i, key);
    ListDistinct(b, z, loose);
    InsertFacts(was, i, key);
    FrameReset(b.cards, list);
    hide InvLoose, Numbered, EquipsExact, InsertAt;
    forall j | 0 <= j < |list| ensures FiledUnder(b.cards, list[j], z) {
      assert list[j] in KeysOf(list);
      if list[j] != key { assert list[j] in was; }
    }
    Relist(b, z, list, loose);
    assert loose + KeysOf(was) - KeysOf(list) == loose - {key};
  }

  /** Where a card may be put: one known zone, an empty slot or a list with room. */
  ghost predicate Free(b: Board, p: Player, location: Location, sequence: U8) {
    && location.base.In? && !location.overlay
    && var z := Zone(p, location.base.kind);
       if IsSlots(z.kind) then sequence < |SlotsIn(b.zones, z)| && Cell(b, z, sequence).None?
       else |List(b, z)| < NUMBERS
  }

  lemma PlaceLoose(b: Board, key: Key, p: Player, location: Location, sequence: U8, loose: set<Key>)
    requires InvLoose(b, loose) && key in loose && location.base.In? && !location.overlay
    ensures var r := SetPlace(b.cards, key, p, location, sequence);
      && InvLoose(b.(cards := r), loose) && StaysExact(b.cards, r)
      && FiledUnder(r, key, Zone(p, location.base.kind)) && r[key].sequence == sequence && SameOverlays(b.cards, r)
  {
    assert key in b.cards && b.cards[key].overlayTarget.None?;
    FramePlace(b.cards, key, p, location, sequence);
    PlacesOfLooseKeep(b, SetPlace(b.cards, key, p, location, sequence), loose);
    hide InvLoose, Numbered, EquipsExact;
  }

  lemma AddToDeckKeeps(b: Board, key: Key, z: Zone, i: nat, loose: set<Key>)
    requires InvLoose(b, loose) && key in loose && !IsSlots(z.kind) && FiledUnder(b.cards, key, z)
    requires i <= |List(b, z)| < NUMBERS
    ensures var b1 := AddToList(b, z, i, key);
      var r := b1.(cards := ClearTargets(ClearCard(b1.cards, key), key));
      InvLoose(r, loose - {key}) && StaysExact(b.cards, r.cards) && SameOverlays(b.cards, r.cards) && r.next == b.next
  {
    InsertKeeps(b, z, i, key, loose);
    var b1 := AddToList(b, z, i, key);
    FrameType(b1.cards, key, NO_TYPE);
    hide InvLoose, Numbered, EquipsExact, AddToList, ClearTargets;
    SameLinksKeep(b1, ClearCard(b1.cards, key), loose - {key});
    ClearTargetsKeep(b1.(cards := ClearCard(b1.cards, key)), key, loose - {key});
  }

  /** A loose card added to a free place is loose no more. */
  lemma AddCardKeeps(b: Board, key: Key, p: Player, location: Location, sequence: U8, loose: set<Key>)
    requires InvLoose(b, loose) && key in loose && Free(b, p, location, sequence)
    ensures InvLoose(AddCard(b, key, p, location, sequence), loose - {key})
    ensures AddCard(b, key, p, location, sequence).cards.Keys == b.cards.Keys
    ensures SameOverlays(b.cards, AddCard(b, key, p, location, sequence).cards)
    ensures AddCard(b, key, p, location, sequence).next == b.next
    ensures StaysExact(b.cards, AddCard(b, key, p, location, sequence).cards)
  {
    hide InvLoose, Numbered, EquipsExact, SetPlace, AddToList, PushToPile, PutSlot, ClearTargets, SetType, FaceupPendulumKey;
    hide FiledUnder, SameOverlays, SameEquips, SameTargets, ExtraIndex, SetPendulum;
    var z := Zone(p, location.base.kind);
    var placed := b.(cards := SetPlace(b.cards, key, p, location, sequence));
    PlaceLoose(b, key, p, location, sequence, loose);
    match location.base.kind {
      case Deck => AddToDeckKeeps(placed, key, z, Min(sequence, |List(b, z)|), loose);
      case Hand => InsertKeeps(placed, z, |List(b, z)|, key, loose);
      case MZone => FillPlaced(placed, key, z, sequence, loose);
      case SZone => FillPlaced(placed, key, z, sequence, loose);
      case Grave => PushOnPile(placed, z, key, loose);
      case Removed => PushOnPile(placed, z, key, loose);
      case Extra => AddToExtraKeeps(placed, key, p, loose);
    }
    SameChain(b.cards, placed.cards, AddCard(b, key, p, location, sequence).cards);
    SameKeys(b.cards, AddCard(b, key, p, location, sequence).cards);
  }

  lemma SameKeys(c: Arena, d: Arena)
    requires SameOverlays(c, d)
    ensures c.Keys == d.Keys
  {
  }

  lemma FillPlaced(b: Board, key: Key, z: Zone, i: nat, loose: set<Key>)
    requires InvLoose(b, loose) && IsSlots(z.kind) && i < |SlotsIn(b.zones, z)| && Cell(b, z, i).None?
    requires key in loose && FiledUnder(b.cards, key, z) && b.cards[key].sequence == i
    ensures InvLoose(SetSlot(b, z, i, Some(key)), loose - {key}) && SameOverlays(b.cards, b.cards)
  {
    FillSlot(b, z, i, key, loose);
  }

  lemma AddToExtraKeeps(b: Board, key: Key, p: Player, loose: set<Key>)
    requires InvLoose(b, loose) && key in loose && FiledUnder(b.cards, key, Zone(p, Extra))
    requires |List(b, Zone(p, Extra))| < NUMBERS
    ensures var faceup := FaceupPendulumKey(b.cards, key);
      var b1 := AddToList(b, Zone(p, Extra), ExtraIndex(b, p, faceup), key);
      var r := if faceup then SetPendulum(b1, p, PendulumCount(b1, p) + 1) else b1;
      && InvLoose(r, loose - {key}) && StaysExact(b.cards, r.cards) && SameOverlays(b.cards, r.cards) && r.next == b.next
  {
    hide InvLoose, Numbered, EquipsExact, FaceupPendulumKey, ExtraIndex;
    var i := ExtraIndex(b, p, FaceupPendulumKey(b.cards, key));
    InsertKeeps(b, Zone(p, Extra), i, key, loose);
    var b1 := AddToList(b, Zone(p, Extra), i, key);
    PendulumFree(b1, p, PendulumCount(b1, p) + 1, loose - {key});
  }

  /** The pendulum count is no part of the invariant. */
  lemma PendulumFree(b: Board, p: Player, count: int, loose: set<Key>)
    requires InvLoose(b, loose)
    ensures InvLoose(SetPendulum(b, p, count), loose)
  {
  }

  /** The cell an address without overlay bit names. */
  lemma ZoneCard(b: Board, p: Player, location: Location, sequence: U8, key: Key, loose: set<Key>)
    requires InvLoose(b, loose) && !location.overlay && GetCard(b, p, location, sequence, 0) == Some(key)
    ensures location.base.In? && key in b.cards && key !in loose
    ensures At(b.cards[key], Zone(p, location.base.kind), sequence)
  {
  }

  /** Taking a zone card out makes it loose; no relation of any card changes. */
  lemma RemoveCardKeeps(b: Board, p: Player, location: Location, sequence: U8, key: Key, loose: set<Key>)
    requires InvLoose(b, loose) && !location.overlay && GetCard(b, p, location, sequence, 0) == Some(key)
    ensures var r := RemoveCard(b, p, location, sequence);
      && InvLoose(r, loose + {key})
      && SameRelations(b.cards, r.cards) && SameLooks(b.cards, r.cards) && StaysExact(b.cards, r.cards)
      && r.next == b.next
  {
    var z := Zone(p, location.base.kind);
    ZoneCard(b, p, location, sequence, key, loose);
    var b1 := if IsSlots(z.kind) then SetSlot(b, z, sequence, None) else RemoveFromList(b, z, sequence);
    if IsSlots(z.kind) {
      TakeSlot(b, z, sequence, key, loose);
    } else {
      RemoveFromListKeeps(b, z, sequence, loose);
    }
    hide InvLoose, Numbered, EquipsExact, SetSlot, RemoveFromList;
    var b2 := if z.kind.Extra? && FaceupPendulumKey(b1.cards, key)
              then SetPendulum(b1, p, PendulumCount(b1, p) - 1) else b1;
    PendulumFree(b1, p, PendulumCount(b1, p) - 1, loose + {key});
    ToLimbo(b2, key, loose + {key});
    hide SameOverlays, SameEquips, SameTargets, SameLooks, SetLocation, IsFaceupPendulum, At;
    SameChain(b.cards, b1.cards, SetLocation(b2.cards, key, LIMBO));
    LooksChain(b.cards, b1.cards, SetLocation(b2.cards, key, LIMBO));
  }

  lemma LooksChain(c: Arena, d: Arena, e: Arena)
    requires SameLooks(c, d) && SameLooks(d, e)
    ensures SameLooks(c, e)
  {
  }

  lemma ToLimbo(b: Board, key: Key, loose: set<Key>)
    requires InvLoose(b, loose) && key in loose
    ensures var r := SetLocation(b.cards, key, LIMBO);
      InvLoose(b.(cards := r), loose) && SameRelations(b.cards, r) && SameLooks(b.cards, r) && StaysExact(b.cards, r)
  {
    FrameLocation(b.cards, key, LIMBO);
    PlacesOfLooseKeep(b, SetLocation(b.cards, key, LIMBO), loose);
    hide InvLoose, Numbered, EquipsExact;
  }

  lemma RemoveFromListKeeps(b: Board, z: Zone, i: nat, loose: set<Key>)
    requires InvLoose(b, loose) && !IsSlots(z.kind) && i < |List(b, z)|
    ensures var r := RemoveFromList(b, z, i);
      && InvLoose(r, loose + {List(b, z)[i]})
      && SameRelations(b.cards, r.cards) && SameLooks(b.cards, r.cards) && StaysExact(b.cards, r.cards)
      && r.next == b.next
  {
    var was := List(b, z);
    var list := RemoveAt(was, i);
    ListDistinct(b, z, loose);
    RemoveFacts(was, i);
    FrameReset(b.cards, list);
    ResetSequenceFrame(b.cards, list, 0);
    hide InvLoose, Numbered, EquipsExact, RemoveAt, ResetSequence;
    forall j | 0 <= j < |list| ensures FiledUnder(b.cards, list[j], z) {
      assert list[j] in KeysOf(list);
      assert list[j] in was;
    }
    Relist(b, z, list, loose);
    assert loose + KeysOf(was) - KeysOf(list) == loose + {was[i]};
  }

  /** The zones after a removal: the list it was taken from is closed up, its slot is empty, the rest is as it was. */
  lemma RemoveCardZones(b: Board, p: Player, location: Location, sequence: U8, key: Key)
    requires location.base.In? && !location.overlay && Cell(b, Zone(p, location.base.kind), sequence) == Some(key)
    ensures var r := RemoveCard(b, p, location, sequence);
      var z := Zone(p, location.base.kind);
      && (forall y: Zone :: !IsSlots(y.kind) ==> List(r, y) == if y == z then RemoveAt(List(b, z), sequence) else List(b, y))
      && (forall y: Zone, j: nat :: IsSlots(y.kind) ==> Cell(r, y, j) == if y == z && j == sequence then None else Cell(b, y, j))
      && (forall y: Zone :: |SlotsIn(r.zones, y)| == |SlotsIn(b.zones, y)|)
  {
    var z := Zone(p, location.base.kind);
    if IsSlots(z.kind) {
      PutSlotCells(b.zones, z, sequence, None);
    } else {
      PutListCells(b.zones, z, RemoveAt(List(b, z), sequence));
    }
  }
}
