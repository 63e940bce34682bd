/**
The field as the source keeps it: an object whose arena, zones and counters are
updated in place. Every method is proved to take the view of the object to what
the function of the same name in `Board` computes.
*/
module FieldState {
  import opened Options
  import opened Board
  import B = Board
  import opened Placement
  import opened Evolution
  import opened SetCards
  import opened Reloads
  import opened Runs

  // ---------- the arena only loses keys it destroys ----------

  lemma {:induction false} DropMaterialsKeys(cards: Arena, materials: seq<Key>)
    ensures DropMaterials(cards, materials).Keys <= cards.Keys
    decreases materials
  {
    if materials != [] {
      DropMaterialsKeys(ClearTargets(cards, materials[0]) - {materials[0]}, materials[1..]);
    }
  }

  lemma DestroyOnlyRemoves(cards: Arena, key: Key)
    ensures Destroy(cards, key).Keys <= cards.Keys
  {
    if key in cards {
      var card := cards[key];
      var c2 := DropEquipped(ReleaseAll(cards - {key}, card.equipped), card.equipTarget, key);
      DropMaterialsKeys(c2, card.overlayed);
      hide DropMaterials;
    }
  }

  // ---------- loops over sets, one member at a time ----------

  function DropOwners(cards: Arena, targets: set<Key>, key: Key): Arena {
    map x | x in cards :: if x in targets then cards[x].(ownerTarget := cards[x].ownerTarget - {key}) else cards[x]
  }

  function DropAims(cards: Arena, owners: set<Key>, key: Key): Arena {
    map x | x in cards :: if x in owners then cards[x].(cardTarget := cards[x].cardTarget - {key}) else cards[x]
  }

  lemma DropOneOwner(cards: Arena, done: set<Key>, target: Key, key: Key)
    requires target !in done
    ensures var c := DropOwners(cards, done, key);
      DropOwners(cards, done + {target}, key) ==
        if target in c then c[target := c[target].(ownerTarget := c[target].ownerTarget - {key})] else c
  {
  }

  lemma DropOneAim(cards: Arena, done: set<Key>, owner: Key, key: Key)
    requires owner !in done
    ensures var c := DropAims(cards, done, key);
      DropAims(cards, done + {owner}, key) ==
        if owner in c then c[owner := c[owner].(cardTarget := c[owner].cardTarget - {key})] else c
  {
  }

  lemma ForgetBoth(cards: Arena, card: Card, key: Key)
    ensures DropAims(DropOwners(cards, card.cardTarget, key), card.ownerTarget, key) == B.ForgetTargets(cards, card, key)
  {
    var c := DropAims(DropOwners(cards, card.cardTarget, key), card.ownerTarget, key);
    forall x | x in cards ensures c[x] == B.ForgetTargets(cards, card, key)[x] {
      assert DropOwners(cards, card.cardTarget, key)[x].cardTarget == cards[x].cardTarget;
    }
  }

  lemma SomeMember(keys: set<Key>)
    ensures keys == {} || exists key :: key in keys
  {
    if forall key :: key !in keys { assert keys == {}; }
  }

  lemma ReleaseOne(cards: Arena, done: set<Key>, equip: Key)
    ensures var c := ReleaseAll(cards, done);
      ReleaseAll(cards, done + {equip}) == if equip in c then c[equip := c[equip].(equipTarget := None)] else c
  {
  }

  lemma ClearTargetsKeys(cards: Arena, key: Key)
    ensures ClearTargets(cards, key).Keys == cards.Keys
  {
  }

  lemma AddCardSameKeys(b: Board, key: Key, p: Player, location: Location, sequence: U8)
    ensures AddCard(b, key, p, location, sequence).cards.Keys == b.cards.Keys
    ensures AddCard(b, key, p, location, sequence).next == b.next
  {
    hide ExtraIndex, FaceupPendulumKey, PutList, PutSlot, ResetSequence, ClearTargets, InsertAt;
    forall cards: Arena ensures ClearTargets(cards, key).Keys == cards.Keys { ClearTargetsKeys(cards, key); }
  }

  lemma RemoveCardSameKeys(b: Board, p: Player, location: Location, sequence: U8)
    ensures RemoveCard(b, p, location, sequence).cards.Keys == b.cards.Keys
    ensures RemoveCard(b, p, location, sequence).next == b.next
  {
    hide FaceupPendulumKey, PutList, PutSlot;
  }

  lemma FreshSameKeys(b: Board, r: Board)
    requires Fresh(b) && r.cards.Keys == b.cards.Keys && r.next == b.next
    ensures Fresh(r)
  {
  }

  lemma NameOneKeys(cards: Arena, key: Key, code: U32)
    ensures SetCode(cards, key, code).Keys == cards.Keys
  {
  }

  lemma SetPositionKeys(cards: Arena, key: Key, position: bv8)
    ensures SetPosition(cards, key, position).Keys == cards.Keys
  {
  }

  lemma ReleaseEquipKeys(cards: Arena, key: Key)
    ensures ReleaseEquip(cards, key).Keys == cards.Keys
  {
  }

  lemma GrowsByOne(b: Board, z: Zone)
    ensures |List(Grow(b, z), z)| == |List(b, z)| + 1
  {
  }

  lemma CreateMaterialKeys(b: Board, host: Key, p: Option<Player>)
    requires host in b.cards
    ensures host in CreateMaterial(b, host, p).cards
  {
  }

  lemma CreateInKeys(b: Board, z: Zone, sequence: U8)
    ensures b.next in CreateIn(b, z, sequence).cards
  {
    AddCardSameKeys(CreateCard(b), b.next, z.player, Location(In(z.kind), false), sequence);
    hide AddCard;
  }

  lemma {:induction false} NameListKeys(cards: Arena, list: seq<Key>, codes: seq<U32>)
    ensures NameList(cards, list, codes).Keys == cards.Keys
    decreases list
  {
    if list != [] && codes != [] { NameListKeys(SetCode(cards, list[0], codes[0]), list[1..], codes[1..]); }
  }

  lemma {:induction false} SetLocationsKeys(cards: Arena, list: seq<Key>, location: Location)
    ensures SetLocations(cards, list, location).Keys == cards.Keys
    decreases list
  {
    if list != [] { SetLocationsKeys(SetLocation(cards, list[0], location), list[1..], location); }
  }

  lemma {:induction false} NameKeys(cards: Arena, list: seq<Key>, top: int, codes: seq<U32>, skipZero: bool)
    requires top < |list|
    ensures NameFromTop(cards, list, top, codes, skipZero).Keys == cards.Keys
    decreases codes
  {
    if codes == [] || (top < 0 && !(skipZero && codes[0] == 0)) {
    } else if skipZero && codes[0] == 0 {
      NameKeys(cards, list, top - 1, codes[1..], skipZero);
    } else {
      NameKeys(SetCode(cards, list[top], codes[0]), list, top - 1, codes[1..], skipZero);
    }
  }

  lemma {:induction false} UnsortedTop(cards: Arena, list: seq<Key>, top: int, codes: seq<U32>, skipZero: bool)
    requires top < 0
    ensures NameFromTop(cards, list, top, codes, skipZero) == cards
    decreases codes
  {
    if codes != [] && skipZero && codes[0] == 0 { UnsortedTop(cards, list, top - 1, codes[1..], skipZero); }
  }

  lemma {:induction false} UnrollLists(b: Board, p: Player, f: PlayerField)
    ensures var b1 := LoadList(b, Zone(p, Deck), f.mainCount, 0);
      var b2 := LoadList(b1, Zone(p, Hand), f.handCount, 0);
      var b3 := LoadList(b2, Zone(p, Grave), f.graveCount, 0);
      var b4 := LoadList(b3, Zone(p, Removed), f.removeCount, 0);
      LoadLists(b, p, ListCounts(f)) == LoadList(b4, Zone(p, Extra), f.extraCount, 0)
  {
    var c := ListCounts(f);
    var b1 := LoadList(b, Zone(p, Deck), f.mainCount, 0);
    var b2 := LoadList(b1, Zone(p, Hand), f.handCount, 0);
    var b3 := LoadList(b2, Zone(p, Grave), f.graveCount, 0);
    var b4 := LoadList(b3, Zone(p, Removed), f.removeCount, 0);
    var b5 := LoadList(b4, Zone(p, Extra), f.extraCount, 0);
    hide LoadList;
    assert LoadLists(b, p, c) == LoadLists(b1, p, c[1..]);
    assert c[1..][1..] == c[2..] && c[2..][1..] == c[3..] && c[3..][1..] == c[4..] && c[4..][1..] == [];
    assert LoadLists(b1, p, c[1..]) == LoadLists(b2, p, c[2..]);
    assert LoadLists(b2, p, c[2..]) == LoadLists(b3, p, c[3..]);
    assert LoadLists(b3, p, c[3..]) == LoadLists(b4, p, c[4..]);
    assert LoadLists(b4, p, c[4..]) == LoadLists(b5, p, []);
  }

  /** The keys from index `i` on, none once the list is used up. */
  function Rest<T>(s: seq<T>, i: nat): seq<T> { if i <= |s| then s[i..] else [] }

  class Field {
    var cards: Arena
    var next: Key
    var lists: map<Zone, seq<Key>>
    var slots: map<Zone, seq<Option<Key>>>
    var pendulum: map<Player, int>
    var deckReversed: bool

    function View(): Board
      reads this
    {
      Board(cards, next, Zones(lists, slots), pendulum, deckReversed)
    }

    /** The arena never hands out a key that is in use. */
    ghost predicate Valid()
      reads this
    {
      Fresh(View())
    }

    constructor ()
      ensures Valid() && View() == Empty()
    {
      cards, next, lists, slots, pendulum, deckReversed := map[], 0, map[], FreshSlots(), map[], false;
    }

    method Clear()
      modifies this
      ensures Valid() && View() == Empty()
    {
      cards, next, lists, slots, pendulum, deckReversed := map[], 0, map[], FreshSlots(), map[], false;
    }

    // ---------- the arena ----------

    method CreateCard() returns (key: Key)
      requires Valid()
      modifies `cards, `next
      ensures Valid() && key == old(next) && View() == B.CreateCard(old(View()))
    {
      key := next;
      cards := cards[key := BLANK];
      next := next + 1;
    }

    method ResetSequence(list: seq<Key>)
      modifies `cards
      ensures cards == B.ResetSequence(old(cards), list, 0)
    {
      for sequence := 0 to |list|
        invariant B.ResetSequence(cards, list, sequence) == B.ResetSequence(old(cards), list, 0)
      {
        cards := SetSequence(cards, list[sequence], AsU8(sequence));
      }
    }

    /** Removes `key` from the owners of every card in `targets`. */
    method ForgetOwner(targets: set<Key>, key: Key)
      modifies `cards
      ensures cards == DropOwners(old(cards), targets, key)
    {
      var left := targets;
      while left != {}
        invariant left <= targets
        invariant cards == DropOwners(old(cards), targets - left, key)
        decreases |left|
      {
        SomeMember(left);
        var target :| target in left;
        DropOneOwner(old(cards), targets - left, target, key);
        assert targets - (left - {target}) == targets - left + {target};
        left := left - {target};
        if target in cards {
          cards := cards[target := cards[target].(ownerTarget := cards[target].ownerTarget - {key})];
        }
      }
      assert targets - {} == targets;
    }

    /** Removes `key` from the targets of every card in `owners`. */
    method ForgetTarget(owners: set<Key>, key: Key)
      modifies `cards
      ensures cards == DropAims(old(cards), owners, key)
    {
      var left := owners;
      while left != {}
        invariant left <= owners
        invariant cards == DropAims(old(cards), owners - left, key)
        decreases |left|
      {
        SomeMember(left);
        var owner :| owner in left;
        DropOneAim(old(cards), owners - left, owner, key);
        assert owners - (left - {owner}) == owners - left + {owner};
        left := left - {owner};
        if owner in cards {
          cards := cards[owner := cards[owner].(cardTarget := cards[owner].cardTarget - {key})];
        }
      }
      assert owners - {} == owners;
    }

    /** Both loops over the target sets of `card`, the card that was or is kept under `key`. */
    method ForgetTargets(card: Card, key: Key)
      modifies `cards
      ensures cards == B.ForgetTargets(old(cards), card, key)
    {
      ForgetOwner(card.cardTarget, key);
      ForgetTarget(card.ownerTarget, key);
      ForgetBoth(old(cards), card, key);
    }

    method ClearCardTarget(key: Key)
      modifies `cards
      ensures cards == ClearTargets(old(cards), key)
    {
      if key !in cards { return; }
      ForgetTargets(cards[key], key);
      cards := cards[key := cards[key].(cardTarget := {}, ownerTarget := {})];
    }

    method ReleaseEquip(key: Key)
      modifies `cards
      ensures cards == B.ReleaseEquip(old(cards), key)
    {
      if key !in cards || cards[key].equipTarget.None? { return; }
      cards := DropEquipped(cards, cards[key].equipTarget, key);
      cards := SetEquipTarget(cards, key, None);
    }

    method ReleaseEquipped(equipped: set<Key>)
      modifies `cards
      ensures cards == ReleaseAll(old(cards), equipped)
    {
      var left := equipped;
      while left != {}
        invariant left <= equipped
        invariant cards == ReleaseAll(old(cards), equipped - left)
        decreases |left|
      {
        SomeMember(left);
        var equip :| equip in left;
        ReleaseOne(old(cards), equipped - left, equip);
        assert equipped - (left - {equip}) == equipped - left + {equip};
        left := left - {equip};
        if equip in cards {
          cards := cards[equip := cards[equip].(equipTarget := None)];
        }
      }
      assert equipped - {} == equipped;
    }

    method RemoveMaterials(materials: seq<Key>)
      modifies `cards
      ensures cards == DropMaterials(old(cards), materials)
    {
      assert materials[0..] == materials;
      for i := 0 to |materials|
        invariant DropMaterials(cards, materials[i..]) == DropMaterials(old(cards), materials)
      {
        assert materials[i..][1..] == materials[i + 1..];
        ClearCardTarget(materials[i]);
        cards := cards - {materials[i]};
      }
    }

    /** The materials and relations of the card go with it; no zone is touched. */
    method DestroyCard(key: Key)
      modifies `cards
      ensures cards == Destroy(old(cards), key)
    {
      if key !in cards { return; }
      var card := cards[key];
      cards := cards - {key};
      ReleaseEquipped(card.equipped);
      cards := DropEquipped(cards, card.equipTarget, key);
      RemoveMaterials(card.overlayed);
      cards := DropOverlayed(cards, card.overlayTarget, key);
      ForgetTargets(card, key);
    }

    /** Removes one material and numbers the others again. */
    method DetachMaterial(host: Key, i: nat)
      requires host in cards && i < |cards[host].overlayed|
      modifies `cards
      ensures cards == B.DetachMaterial(old(cards), host, i)
    {
      var overlays := cards[host].overlayed[..i] + cards[host].overlayed[i + 1..];
      cards := cards[host := cards[host].(overlayed := [])];
      ResetSequence(overlays);
      cards := cards[host := cards[host].(overlayed := overlays)];
    }

    // ---------- zones ----------

    method InsertInList(z: Zone, i: nat, key: Key)
      requires i <= |List(View(), z)|
      modifies `cards, `lists
      ensures View() == AddToList(old(View()), z, i, key)
    {
      lists := lists[z := InsertAt(ListIn(Zones(lists, slots), z), i, key)];
      ResetSequence(lists[z]);
    }

    method RemoveFromList(z: Zone, i: nat)
      requires i < |List(View(), z)|
      modifies `cards, `lists
      ensures View() == B.RemoveFromList(old(View()), z, i)
    {
      lists := lists[z := RemoveAt(ListIn(Zones(lists, slots), z), i)];
      ResetSequence(lists[z]);
    }

    method SetSlot(z: Zone, i: nat, cell: Option<Key>)
      modifies `slots
      ensures View() == B.SetSlot(old(View()), z, i, cell)
    {
      if i < |SlotsIn(Zones(lists, slots), z)| {
        slots := slots[z := SlotsIn(Zones(lists, slots), z)[i := cell]];
      }
    }

    method AddCard(key: Key, p: Player, location: Location, sequence: U8)
      requires Valid()
      modifies `cards, `lists, `slots, `pendulum
      ensures Valid() && View() == B.AddCard(old(View()), key, p, location, sequence)
    {
      hide ClearTargets, AddToList, B.SetSlot, ExtraIndex, FaceupPendulumKey, InsertAt, SetPlace, ClearCard, Fresh, AsU8, SetSequence;
      AddCardSameKeys(View(), key, p, location, sequence);
      FreshSameKeys(View(), B.AddCard(View(), key, p, location, sequence));
      cards := SetPlace(cards, key, p, location, sequence);
      if location.overlay || !location.base.In? { return; }
      var z := Zone(p, location.base.kind);
      var length := |List(View(), z)|;
      match location.base.kind
      case Deck =>
        InsertInList(z, Min(sequence, length), key);
        cards := ClearCard(cards, key);
        ClearCardTarget(key);
      case Hand => InsertInList(z, length, key);
      case MZone | SZone => SetSlot(z, sequence, Some(key));
      case Grave | Removed =>
        lists := lists[z := List(View(), z) + [key]];
        cards := SetSequence(cards, key, AsU8(length));
      case Extra =>
        var faceup := FaceupPendulumKey(cards, key);
        InsertInList(z, ExtraIndex(View(), p, faceup), key);
        if faceup {
          pendulum := pendulum[p := PendulumCount(View(), p) + 1];
        }
    }

    method RemoveCard(p: Player, location: Location, sequence: U8)
      requires Valid()
      modifies `cards, `lists, `slots, `pendulum
      ensures Valid() && View() == B.RemoveCard(old(View()), p, location, sequence)
    {
      hide B.RemoveFromList, B.SetSlot, FaceupPendulumKey, SetLocation, Fresh;
      RemoveCardSameKeys(View(), p, location, sequence);
      FreshSameKeys(View(), B.RemoveCard(View(), p, location, sequence));
      if location.overlay || !location.base.In? { return; }
      var z := Zone(p, location.base.kind);
      var found := Cell(View(), z, sequence);
      if found.None? { return; }
      if IsSlots(z.kind) {
        SetSlot(z, sequence, None);
      } else {
        RemoveFromList(z, sequence);
        if z.kind.Extra? && FaceupPendulumKey(cards, found.value) {
          pendulum := pendulum[p := PendulumCount(View(), p) - 1];
        }
      }
      cards := SetLocation(cards, found.value, LIMBO);
    }

    // ---------- queries ----------

    method AddTargetQueries(key: Key, positions: seq<CardPosition>)
      requires Valid()
      modifies `cards
      ensures Valid() && View() == AddTargets(old(View()), key, positions)
    {
      assert positions[0..] == positions;
      for i := 0 to |positions|
        invariant Valid()
        invariant AddTargets(View(), key, positions[i..]) == AddTargets(old(View()), key, positions)
      {
        assert positions[i..][1..] == positions[i + 1..];
        var target := GetPosition(View(), positions[i]);
        if target.Some? {
          cards := AddTarget(cards, key, target.value);
        }
      }
    }

    method CreateMaterial(host: Key, p: Option<Player>)
      requires Valid() && host in cards
      modifies `cards, `next
      ensures Valid() && View() == B.CreateMaterial(old(View()), host, p)
    {
      var overlay := CreateCard();
      var sequence := AsU8(|cards[host].overlayed|);
      cards := PushMaterial(cards, host, overlay);
      cards := cards[overlay := cards[overlay].(overlayTarget := Some(host), location := OVERLAY, sequence := sequence, controller := p)];
    }

    method UpdateOverlayCards(key: Key, codes: seq<U32>)
      requires Valid()
      modifies `cards, `next
      ensures Valid() && View() == B.UpdateOverlayCards(old(View()), key, codes)
    {
      if key !in cards { return; }
      var controller := cards[key].controller;
      for i := 0 to |codes|
        invariant Valid() && key in cards && i <= |cards[key].overlayed|
        invariant NameMaterials(View(), key, controller, codes, i) == NameMaterials(old(View()), key, controller, codes, 0)
      {
        if i == |cards[key].overlayed| {
          CreateMaterial(key, controller);
        }
        cards := SetCode(cards, cards[key].overlayed[i], codes[i]);
      }
      var all := cards[key].overlayed;
      cards := cards[key := cards[key].(overlayed := all[..|codes|])];
      DropMaterialsKeys(cards, all[|codes|..]);
      RemoveMaterials(all[|codes|..]);
    }

    method ApplyQuery(key: Key, query: Query)
      requires Valid()
      modifies `cards, `next
      ensures Valid() && View() == B.ApplyQuery(old(View()), key, query)
    {
      match query
      case Clear => cards := ClearCard(cards, key);
      case Code(code) =>
        if code == 0 {
          cards := ClearCard(cards, key);
        }
        cards := SetCode(cards, key, code);
      case Position(position) => cards := SetPosition(cards, key, position);
      case Type(cardType) => cards := SetType(cards, key, cardType);
      case EquipCard(at) =>
        var target := GetPosition(View(), at);
        if target.Some? {
          cards := SetEquipTarget(cards, key, target);
          cards := AddEquipped(cards, target.value, key);
        }
      case TargetCard(targets) => AddTargetQueries(key, targets);
      case OverlayCard(codes) => UpdateOverlayCards(key, codes);
      case Inert =>
    }

    method UpdateCardInfo(key: Key, info: UpdateInfo)
      requires Valid()
      modifies `cards, `next
      ensures Valid() && View() == B.UpdateCardInfo(old(View()), key, info)
    {
      if info.None? { return; }
      var queries := info.value;
      assert queries[0..] == queries;
      for i := 0 to |queries|
        invariant Valid()
        invariant ApplyQueries(View(), key, queries[i..]) == ApplyQueries(old(View()), key, queries)
      {
        assert queries[i..][1..] == queries[i + 1..];
        ApplyQuery(key, queries[i]);
      }
    }

    method UpdateData(p: Player, location: Location, infos: seq<UpdateInfo>)
      requires Valid()
      modifies `cards, `next
      ensures Valid() && View() == UpdateZone(old(View()), p, location, infos, 0)
    {
      for i := 0 to |infos|
        invariant Valid()
        invariant UpdateZone(View(), p, location, infos, i) == UpdateZone(old(View()), p, location, infos, 0)
      {
        var key := GetCard(View(), p, location, AsU8(i), 0);
        if key.Some? {
          UpdateCardInfo(key.value, infos[i]);
        }
      }
    }

    // ---------- messages on one zone ----------

    method FileAll(list: seq<Key>, location: Location)
      modifies `cards
      ensures cards == SetLocations(old(cards), list, location)
    {
      assert list[0..] == list;
      for i := 0 to |list|
        invariant SetLocations(cards, list[i..], location) == SetLocations(old(cards), list, location)
      {
        assert list[i..][1..] == list[i + 1..];
        cards := SetLocation(cards, list[i], location);
      }
    }

    method SwapGraveDeck(p: Player)
      requires Valid()
      modifies `cards, `lists, `slots, `pendulum
      ensures Valid() && View() == SwapGraveDeckStep(old(View()), p)
    {
      hide Fresh, B.AddCard;
      var grave, deck := List(View(), Zone(p, Grave)), List(View(), Zone(p, Deck));
      lists := lists[Zone(p, Grave) := deck][Zone(p, Deck) := []];
      SetLocationsKeys(cards, deck, Location(In(Grave), false));
      FileAll(deck, Location(In(Grave), false));
      FreshSameKeys(old(View()), View());
      ghost var start := View();
      var remaining: seq<Key> := [];
      assert grave[0..] == grave;
      for i := 0 to |grave|
        invariant Valid()
        invariant DealGrave(View(), p, grave[i..], remaining) == DealGrave(start, p, grave, [])
      {
        assert grave[i..][1..] == grave[i + 1..];
        ghost var before := View();
        var key := grave[i];
        if IsExtraDeckType(cards, key) {
          cards := SetPosition(cards, key, FACEDOWN);
          FreshSameKeys(before, View());
          AddCard(key, p, Location(In(Extra), false), 0);
        } else {
          cards := SetSequence(SetLocation(cards, key, Location(In(Deck), false)), key, AsU8(|remaining|));
          FreshSameKeys(before, View());
          remaining := remaining + [key];
        }
      }
      ghost var last := View();
      lists := lists[Zone(p, Deck) := remaining];
      FreshSameKeys(last, View());
    }

    method ReverseDeckOf(p: Player)
      requires Valid()
      modifies `cards, `lists
      ensures Valid() && View() == B.ReverseDeckOf(old(View()), p)
    {
      var list := Reverse(List(View(), Zone(p, Deck)));
      lists := lists[Zone(p, Deck) := list];
      ResetSequence(list);
    }

    method ReverseDeck()
      requires Valid()
      modifies `cards, `lists, `deckReversed
      ensures Valid() && View() == Step(old(View()), Message.ReverseDeck)
    {
      hide B.ReverseDeckOf, Fresh;
      ReverseDeckOf(First);
      ReverseDeckOf(Second);
      ghost var before := View();
      deckReversed := !deckReversed;
      FreshSameKeys(before, View());
    }

    /** The cards at `top`, `top - 1`, ... of a list take the codes reported, up to the bottom of the list. */
    method NameFromTop(list: seq<Key>, top: int, codes: seq<U32>, skipZero: bool)
      requires top < |list|
      modifies `cards
      ensures cards == B.NameFromTop(old(cards), list, top, codes, skipZero)
    {
      assert codes[0..] == codes;
      for offset := 0 to |codes|
        invariant B.NameFromTop(cards, list, top - offset, codes[offset..], skipZero) == B.NameFromTop(old(cards), list, top, codes, skipZero)
      {
        assert codes[offset..][1..] == codes[offset + 1..];
        if top - offset < 0 {
          UnsortedTop(cards, list, top - offset, codes[offset..], skipZero);
          return;
        }
        if !skipZero || codes[offset] != 0 {
          cards := SetCode(cards, list[top - offset], codes[offset]);
        }
      }
    }

    method ConfirmExtraTop(p: Player, codes: seq<U32>)
      requires Valid()
      modifies `cards
      ensures Valid() && View() == ConfirmExtraTopStep(old(View()), p, codes)
    {
      var list := List(View(), Zone(p, Extra));
      if PendulumCount(View(), p) < 0 { return; }
      NameKeys(cards, list, |list| - 1 - PendulumCount(View(), p), codes, true);
      NameFromTop(list, |list| - 1 - PendulumCount(View(), p), codes, true);
    }

    method Draw(p: Player, codes: seq<U32>)
      requires Valid()
      modifies `cards, `lists, `slots, `pendulum
      ensures Valid() && View() == DrawStep(old(View()), p, codes)
    {
      hide Fresh, B.AddCard, B.NameFromTop;
      var z := Zone(p, Deck);
      var deck := List(View(), z);
      NameKeys(cards, deck, |deck| - 1, codes, deckReversed);
      NameFromTop(deck, |deck| - 1, codes, deckReversed);
      FreshSameKeys(old(View()), View());
      ghost var start := View();
      for i := 0 to |codes|
        invariant Valid()
        invariant DrawCards(View(), p, |codes| - i) == DrawCards(start, p, |codes|)
      {
        ghost var before := View();
        var rest := List(View(), z);
        if rest == [] { return; }
        lists := lists[z := rest[..|rest| - 1]];
        FreshSameKeys(before, View());
        AddCard(rest[|rest| - 1], p, Location(In(Hand), false), 0);
      }
    }

    /** Both passes of the set-card shuffle: read and hide the selected cards, then swap them into place. */
    method ShuffleSetCard(where: Location, olds: seq<InfoLocation>, news: seq<InfoLocation>)
      requires Valid()
      modifies `cards, `slots
      ensures Valid() && View() == ShuffleSetCardStep(old(View()), where, olds, news)
    {
      hide Fresh, B.MoveSetCard;
      var kind := ShuffleKind(where);
      var selected := SelectAndHide(kind, olds);
      ghost var start := View();
      for i := 0 to |news|
        invariant Valid()
        invariant MoveSetCards(View(), kind, Rest(selected, i), news[i..]) == MoveSetCards(start, kind, selected, news)
      {
        assert news[i..][1..] == news[i + 1..] && Rest(selected, i + 1) == Rest(Rest(selected, i), 1);
        if news[i].location != LIMBO && i < |selected| && selected[i].Some? && selected[i].value in cards {
          MoveSetCard(kind, selected[i].value, news[i]);
        }
      }
    }

    method SelectAndHide(kind: Kind, olds: seq<InfoLocation>) returns (selected: seq<Option<Key>>)
      requires Valid() && IsSlots(kind)
      modifies `cards
      ensures Valid() && selected == Selected(old(View()), kind, olds)
      ensures View() == old(View()).(cards := HideSelected(old(cards), selected))
    {
      hide SetCode, Fresh, GetCard;
      ghost var all := Selected(View(), kind, olds);
      SelectedAt(View(), kind, olds);
      selected := [];
      for i := 0 to |olds|
        invariant selected == all[..i] && Valid()
        invariant HideSelected(cards, all[i..]) == HideSelected(old(cards), all)
      {
        assert all[i..][1..] == all[i + 1..];
        var key := SlotAt(View(), kind, olds[i]);
        if key.Some? {
          ghost var before := View();
          NameOneKeys(cards, key.value, 0);
          cards := SetCode(cards, key.value, 0);
          FreshSameKeys(before, View());
        }
        selected := selected + [key];
      }
    }

    method MoveSetCard(kind: Kind, key: Key, at: InfoLocation)
      requires Valid() && IsSlots(kind) && key in cards
      modifies `cards, `slots
      ensures Valid() && View() == B.MoveSetCard(old(View()), kind, key, at)
    {
      hide B.SetSlot;
      var z := Zone(at.controller, kind);
      var sequence := cards[key].sequence;
      var previous := Cell(View(), z, at.sequence);
      SetSlot(z, at.sequence, None);
      if previous.Some? {
        cards := SetSequence(cards, previous.value, sequence);
        SetSlot(z, sequence, previous);
      }
      SetSlot(z, at.sequence, Some(key));
      cards := SetSequence(cards, key, at.sequence);
    }

    // ---------- moves ----------

    method MoveIn(code: U32, current: InfoLocation)
      requires Valid()
      modifies this
      ensures Valid() && View() == B.MoveIn(old(View()), code, current)
    {
      hide B.AddCard;
      var key := CreateCard();
      cards := SetCode(SetPosition(cards, key, current.position), key, code);
      AddCard(key, current.controller, current.location, current.sequence);
    }

    method MoveOut(code: U32, previous: InfoLocation)
      requires Valid()
      modifies this
      ensures Valid() && View() == B.MoveOut(old(View()), code, previous)
    {
      hide B.RemoveCard, Destroy, ClearTargets, GetCard, SetCode;
      var key := GetInfo(View(), previous);
      if key.None? { return; }
      if code != 0 {
        NameOneKeys(cards, key.value, code);
        cards := SetCode(cards, key.value, code);
      }
      ClearTargetsKeys(cards, key.value);
      ClearCardTarget(key.value);
      RemoveCard(previous.controller, previous.location, previous.sequence);
      DestroyOnlyRemoves(cards, key.value);
      DestroyCard(key.value);
    }

    method MoveAcross(code: U32, previous: InfoLocation, current: InfoLocation)
      requires Valid()
      modifies this
      ensures Valid() && View() == B.MoveAcross(old(View()), code, previous, current)
    {
      hide B.AddCard, B.RemoveCard, ClearTargets, B.ReleaseEquip, GetCard, SetPosition;
      var key := GetCard(View(), previous.controller, previous.location, previous.sequence, 0);
      if key.None? { return; }
      var k := key.value;
      cards := Renamed(cards, k, code, current.location == Location(In(Extra), false));
      if current.location != previous.location {
        ClearTargetsKeys(cards, k);
        ClearCardTarget(k);
        ReleaseEquipKeys(cards, k);
        ReleaseEquip(k);
      }
      RemoveCard(previous.controller, previous.location, previous.sequence);
      SetPositionKeys(cards, k, current.position);
      cards := SetPosition(cards, k, current.position);
      AddCard(k, current.controller, current.location, current.sequence);
    }

    method MoveUnder(code: U32, previous: InfoLocation, current: InfoLocation)
      requires Valid()
      modifies this
      ensures Valid() && View() == B.MoveUnder(old(View()), code, previous, current)
    {
      hide B.RemoveCard, ClearTargets, B.ReleaseEquip, GetCard;
      var key := GetCard(View(), previous.controller, previous.location, previous.sequence, 0);
      if key.None? { return; }
      var k := key.value;
      if code != 0 {
        cards := SetCode(cards, k, code);
      }
      ClearTargetsKeys(cards, k);
      ClearCardTarget(k);
      ReleaseEquipKeys(cards, k);
      ReleaseEquip(k);
      var host := GetCard(View(), current.controller, ClearPlace(current), current.sequence, 0);
      if host.None? { return; }
      RemoveCard(previous.controller, previous.location, previous.sequence);
      if host.value !in cards { return; }
      cards := SetLocation(AttachMaterial(cards, host.value, k), k, OVERLAY);
    }

    method MoveFromUnder(previous: InfoLocation, current: InfoLocation)
      requires Valid()
      modifies this
      ensures Valid() && View() == B.MoveFromUnder(old(View()), previous, current)
    {
      hide B.AddCard, GetCard;
      var host := GetCard(View(), previous.controller, ClearPlace(previous), previous.sequence, 0);
      var key := Material(cards, host, previous.overlaySequence);
      if key.None? { return; }
      DetachMaterial(host.value, previous.overlaySequence);
      cards := SetPosition(SetOverlayTarget(cards, key.value, None), key.value, current.position);
      AddCard(key.value, current.controller, current.location, current.sequence);
    }

    method MoveBetween(previous: InfoLocation, current: InfoLocation)
      requires Valid()
      modifies this
      ensures Valid() && View() == B.MoveBetween(old(View()), previous, current)
    {
      hide GetCard;
      var before := GetCard(View(), previous.controller, ClearPlace(previous), previous.sequence, 0);
      var host := GetCard(View(), current.controller, ClearPlace(current), current.sequence, 0);
      var key := Material(cards, before, previous.overlaySequence);
      if host.None? || key.None? { return; }
      DetachMaterial(before.value, previous.overlaySequence);
      if host.value !in cards { return; }
      cards := AttachMaterial(cards, host.value, key.value);
    }

    method MoveCard(code: U32, previous: InfoLocation, current: InfoLocation)
      requires Valid()
      modifies this
      ensures Valid() && View() == MoveStep(old(View()), code, previous, current)
    {
      hide B.MoveIn, B.MoveOut, B.MoveAcross, B.MoveUnder, B.MoveFromUnder, B.MoveBetween;
      if previous.location == LIMBO {
        MoveIn(code, current);
      } else if current.location == LIMBO {
        MoveOut(code, previous);
      } else if !previous.location.overlay && !current.location.overlay {
        MoveAcross(code, previous, current);
      } else if !previous.location.overlay {
        MoveUnder(code, previous, current);
      } else if !current.location.overlay {
        MoveFromUnder(previous, current);
      } else {
        MoveBetween(previous, current);
      }
    }

    // ---------- other messages ----------

    method PositionChange(code: U32, at: CardPosition, before: bv8, after: bv8)
      requires Valid()
      modifies `cards
      ensures Valid() && View() == PositionChangeStep(old(View()), code, at, before, after)
    {
      hide ClearTargets, GetCard;
      var key := GetCard(View(), at.controller, at.location, at.sequence, 0);
      if key.None? { return; }
      if before & FACEUP != 0 && after & FACEDOWN != 0 {
        ClearTargetsKeys(cards, key.value);
        ClearCardTarget(key.value);
      }
      if code != 0 {
        cards := SetCode(cards, key.value, code);
      }
      cards := SetPosition(cards, key.value, after);
    }

    method Swap(at1: InfoLocation, at2: InfoLocation)
      requires Valid()
      modifies this
      ensures Valid() && View() == SwapStep(old(View()), at1, at2)
    {
      hide B.AddCard, B.RemoveCard, GetCard, Fresh;
      var first := GetInfo(View(), at1);
      var second := GetInfo(View(), at2);
      if first.None? || second.None? { return; }
      RemoveCard(at1.controller, at1.location, at1.sequence);
      RemoveCard(at2.controller, at2.location, at2.sequence);
      AddCard(first.value, at2.controller, at2.location, at2.sequence);
      AddCard(second.value, at1.controller, at1.location, at1.sequence);
    }

    method FlipSummoning(code: U32, at0: InfoLocation)
      requires Valid()
      modifies `cards
      ensures Valid() && View() == FlipStep(old(View()), code, at0)
    {
      var key := GetInfo(View(), at0);
      if key.None? { return; }
      cards := SetPosition(SetCode(cards, key.value, code), key.value, at0.position);
    }

    method Equip(at1: InfoLocation, at2: InfoLocation)
      requires Valid()
      modifies `cards
      ensures Valid() && View() == EquipStep(old(View()), at1, at2)
    {
      hide B.ReleaseEquip, GetCard;
      var key := GetInfo(View(), at1);
      var target := GetInfo(View(), at2);
      if key.None? || target.None? { return; }
      ReleaseEquipKeys(cards, key.value);
      ReleaseEquip(key.value);
      cards := SetEquipTarget(cards, key.value, target);
      cards := AddEquipped(cards, target.value, key.value);
    }

    method Unequip(at0: InfoLocation)
      requires Valid()
      modifies `cards
      ensures Valid() && View() == UnequipStep(old(View()), at0)
    {
      hide B.ReleaseEquip, GetCard;
      var key := GetInfo(View(), at0);
      if key.None? { return; }
      ReleaseEquipKeys(cards, key.value);
      ReleaseEquip(key.value);
    }

    method ChangeTarget(at1: InfoLocation, at2: InfoLocation, add: bool)
      requires Valid()
      modifies `cards
      ensures Valid() && View() == TargetStep(old(View()), at1, at2, add)
    {
      hide GetCard;
      var key := GetInfo(View(), at1);
      var target := GetInfo(View(), at2);
      if key.None? || target.None? { return; }
      if add {
        cards := AddTarget(cards, key.value, target.value);
      } else {
        cards := DropTarget(cards, key.value, target.value);
      }
    }

    // ---------- resizing and reloading ----------

    method Grow(z: Zone)
      requires Valid()
      modifies `cards, `next, `lists
      ensures Valid() && View() == B.Grow(old(View()), z)
    {
      var length := |List(View(), z)|;
      var key := CreateCard();
      cards := SetPlace(cards, key, z.player, Location(In(z.kind), false), AsU8(length));
      lists := lists[z := List(View(), z) + [key]];
    }

    /** One card more or less each round; `DestroyCard` leaves the lists alone, so the distance to `count` shrinks. */
    method ResizeZone(z: Zone, count: nat)
      requires Valid() && (z.kind.Deck? || z.kind.Hand? || z.kind.Extra?)
      modifies `cards, `next, `lists
      ensures Valid() && View() == B.ResizeZone(old(View()), z, count)
    {
      hide Destroy, B.Grow;
      while |List(View(), z)| != count
        invariant Valid()
        invariant B.ResizeZone(View(), z, count) == B.ResizeZone(old(View()), z, count)
        decreases Distance(|List(View(), z)|, count)
      {
        var list := List(View(), z);
        if |list| > count {
          DestroyOnlyRemoves(cards, list[|list| - 1]);
          lists := lists[z := list[..|list| - 1]];
          DestroyCard(list[|list| - 1]);
        } else {
          GrowsByOne(View(), z);
          Grow(z);
        }
      }
    }

    method NameList(list: seq<Key>, codes: seq<U32>)
      modifies `cards
      ensures cards == B.NameList(old(cards), list, codes)
    {
      assert list[0..] == list && codes[0..] == codes;
      var i := 0;
      while i < |list| && i < |codes|
        invariant i <= |list| && i <= |codes|
        invariant B.NameList(cards, list[i..], codes[i..]) == B.NameList(old(cards), list, codes)
      {
        assert list[i..][1..] == list[i + 1..] && codes[i..][1..] == codes[i + 1..];
        cards := SetCode(cards, list[i], codes[i]);
        i := i + 1;
      }
    }

    method TagSwap(p: Player, mainCount: U8, pendulumCount: U8, topCode: U32, hand: seq<U32>, extra: seq<U32>)
      requires Valid()
      modifies this
      ensures Valid() && View() == TagSwapStep(old(View()), p, mainCount, pendulumCount, topCode, hand, extra)
    {
      hide B.ResizeZone, Fresh, SetCode, B.NameList;
      ResizeZone(Zone(p, Deck), mainCount);
      ResizeZone(Zone(p, Hand), |hand|);
      ResizeZone(Zone(p, Extra), |extra|);
      ghost var resized := View();
      pendulum := pendulum[p := pendulumCount];
      var deck := List(View(), Zone(p, Deck));
      if deck != [] {
        NameOneKeys(cards, deck[|deck| - 1], topCode);
        cards := SetCode(cards, deck[|deck| - 1], topCode);
      }
      NameListKeys(cards, List(View(), Zone(p, Hand)), hand);
      NameList(List(View(), Zone(p, Hand)), hand);
      NameListKeys(cards, List(View(), Zone(p, Extra)), extra);
      NameList(List(View(), Zone(p, Extra)), extra);
      FreshSameKeys(resized, View());
    }

    method FillInitial(z: Zone, count: nat)
      requires Valid()
      modifies `cards, `next, `lists
      ensures Valid() && View() == B.FillInitial(old(View()), z, count)
    {
      for i := 0 to count
        invariant Valid()
        invariant B.FillInitial(View(), z, count - i) == B.FillInitial(old(View()), z, count)
      {
        var key := next;
        Grow(z);
        cards := SetPosition(cards, key, FACEDOWN_DEFENSE);
      }
    }

    method Start(deck1: U16, extra1: U16, deck2: U16, extra2: U16)
      modifies this
      ensures Valid() && View() == StartStep(deck1, extra1, deck2, extra2)
    {
      hide Fresh, B.FillInitial;
      Clear();
      FillInitial(Zone(First, Deck), deck1);
      FillInitial(Zone(First, Extra), extra1);
      FillInitial(Zone(Second, Deck), deck2);
      FillInitial(Zone(Second, Extra), extra2);
    }

    method CreateIn(z: Zone, sequence: U8) returns (key: Key)
      requires Valid()
      modifies this
      ensures Valid() && key == old(next) && View() == B.CreateIn(old(View()), z, sequence)
    {
      hide B.AddCard;
      key := CreateCard();
      AddCard(key, z.player, Location(In(z.kind), false), sequence);
    }

    method AddMaterials(host: Key, p: Player, count: nat)
      requires Valid() && host in cards
      modifies `cards, `next
      ensures Valid() && View() == B.AddMaterials(old(View()), host, p, count)
    {
      hide B.CreateMaterial;
      for i := 0 to count
        invariant Valid() && host in cards
        invariant B.AddMaterials(View(), host, p, count - i) == B.AddMaterials(old(View()), host, p, count)
      {
        CreateMaterialKeys(View(), host, Some(p));
        CreateMaterial(host, Some(p));
      }
    }

    method LoadMonsters(p: Player, mzone: MonsterRow)
      requires Valid()
      modifies this
      ensures Valid() && View() == B.LoadMonsters(old(View()), p, mzone, 0)
    {
      hide B.CreateIn, B.AddMaterials;
      for i := 0 to 7
        invariant Valid()
        invariant B.LoadMonsters(View(), p, mzone, i) == B.LoadMonsters(old(View()), p, mzone, 0)
      {
        if mzone[i].occupied {
          CreateInKeys(View(), Zone(p, MZone), i);
          var key := CreateIn(Zone(p, MZone), i);
          cards := SetPosition(cards, key, mzone[i].position);
          AddMaterials(key, p, mzone[i].xyzCount);
        }
      }
    }

    method LoadSpells(p: Player, szone: SpellRow)
      requires Valid()
      modifies this
      ensures Valid() && View() == B.LoadSpells(old(View()), p, szone, 0)
    {
      hide B.CreateIn;
      for i := 0 to 8
        invariant Valid()
        invariant B.LoadSpells(View(), p, szone, i) == B.LoadSpells(old(View()), p, szone, 0)
      {
        if szone[i].occupied {
          var key := CreateIn(Zone(p, SZone), i);
          cards := SetPosition(cards, key, szone[i].position);
        }
      }
    }

    method LoadList(z: Zone, count: U8)
      requires Valid()
      modifies this
      ensures Valid() && View() == B.LoadList(old(View()), z, count, 0)
    {
      hide B.CreateIn;
      for sequence := 0 to count
        invariant Valid()
        invariant B.LoadList(View(), z, count, sequence) == B.LoadList(old(View()), z, count, 0)
      {
        var key := CreateIn(z, sequence);
      }
    }

    method LoadPlayerField(p: Player, f: PlayerField)
      requires Valid()
      modifies this
      ensures Valid() && View() == LoadPlayer(old(View()), p, f)
    {
      hide Fresh, B.LoadMonsters, B.LoadSpells, B.LoadList, LoadLists;
      LoadMonsters(p, f.mzone);
      LoadSpells(p, f.szone);
      UnrollLists(View(), p, f);
      LoadList(Zone(p, Deck), f.mainCount);
      LoadList(Zone(p, Hand), f.handCount);
      LoadList(Zone(p, Grave), f.graveCount);
      LoadList(Zone(p, Removed), f.removeCount);
      LoadList(Zone(p, Extra), f.extraCount);
      ghost var loaded := View();
      pendulum := pendulum[p := f.pendulumCount];
      FreshSameKeys(loaded, View());
    }

    method ReloadField(player1: PlayerField, player2: PlayerField)
      modifies this
      ensures Valid() && View() == LoadPlayer(LoadPlayer(Empty(), First, player1), Second, player2)
    {
      hide Fresh, LoadPlayer;
      Clear();
      LoadPlayerField(First, player1);
      LoadPlayerField(Second, player2);
    }

    // ---------- evolution ----------

    /** Every message takes the field where `Step` says; a legal one keeps the invariant. */
    method Evolve(m: Message)
      requires Valid()
      modifies this
      ensures Valid() && View() == Step(old(View()), m)
      ensures old(Inv(View())) && Legal(old(View()), m) ==> Inv(View())
    {
      hide Fresh, InvLoose, Legal;
      if Inv(View()) && Legal(View(), m) { StepKeeps(View(), m); }
      Dispatch(m);
    }

    method Dispatch(m: Message)
      requires Valid()
      modifies this
      ensures Valid() && View() == Step(old(View()), m)
    {
      hide Fresh, StartStep, UpdateZone, B.UpdateCardInfo, SwapGraveDeckStep, ShuffleSetCardStep, B.ReverseDeckOf;
      hide ConfirmExtraTopStep, MoveStep, PositionChangeStep, SwapStep, FlipStep, DrawStep, EquipStep, UnequipStep;
      hide TargetStep, TagSwapStep, LoadPlayer, GetCard;
      match m
      case Start(deck1, extra1, deck2, extra2) => Start(deck1, extra1, deck2, extra2);
      case UpdateData(p, location, infos) => UpdateData(p, location, infos);
      case UpdateCard(at, info) =>
        var key := GetCard(View(), at.controller, at.location, at.sequence, 0);
        if key.Some? {
          UpdateCardInfo(key.value, info);
        }
      case SwapGraveDeck(p) => SwapGraveDeck(p);
      case ShuffleSetCard(where, olds, news) => ShuffleSetCard(where, olds, news);
      case ReverseDeck => ReverseDeck();
      case ConfirmExtraTop(p, codes) => ConfirmExtraTop(p, codes);
      case Move(code, previous, current) => MoveCard(code, previous, current);
      case PositionChange(code, at, before, after) => PositionChange(code, at, before, after);
      case Swap(at1, at2) => Swap(at1, at2);
      case FlipSummoning(code, at) => FlipSummoning(code, at);
      case Draw(p, codes) => Draw(p, codes);
      case Equip(at1, at2) => Equip(at1, at2);
      case Unequip(at) => Unequip(at);
      case CardTarget(at1, at2) => ChangeTarget(at1, at2, true);
      case CancelTarget(at1, at2) => ChangeTarget(at1, at2, false);
      case TagSwap(p, mainCount, pendulumCount, topCode, hand, extra) =>
        TagSwap(p, mainCount, pendulumCount, topCode, hand, extra);
      case ReloadField(player1, player2) => ReloadField(player1, player2);
    }
  }

  /** A new field that has taken any legal stream of messages satisfies the invariant. */
  method Replay(ms: seq<Message>) returns (field: Field)
    requires LegalRun(Empty(), ms)
    ensures fresh(field) && field.Valid() && field.View() == Run(Empty(), ms) && Inv(field.View())
  {
    hide Fresh, InvLoose, Step;
    EmptyKeeps();
    RunKeeps(Empty(), ms);
    field := new Field();
    assert ms[0..] == ms;
    for i := 0 to |ms|
      invariant field.Valid() && fresh(field)
      invariant Run(field.View(), ms[i..]) == Run(Empty(), ms)
    {
      assert ms[i..][1..] == ms[i + 1..];
      field.Evolve(ms[i]);
    }
  }
}
