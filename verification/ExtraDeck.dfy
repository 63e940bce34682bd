/**
The order of the extra deck: face-up pendulum cards on top, counted by
`extra_pendulum_count`, everything else below. It is what lets
`confirm_extra_top` address the top of the face-down part.
*/
module ExtraDeck {
  import opened Options
  import opened Board
  import opened Placement
  import opened Zoning
  import opened Evolution
  import opened Moves
  import opened Deals

  function ExtraList(b: Board, p: Player): seq<Key> { List(b, Zone(p, Extra)) }

  /** The top `extra_pendulum_count` cards are face-up pendulum cards, and no other card is. */
  ghost predicate ExtraSorted(b: Board, p: Player) {
    var list, n := ExtraList(b, p), PendulumCount(b, p);
    0 <= n <= |list| && forall i :: 0 <= i < |list| ==> (FaceupPendulumKey(b.cards, list[i]) <==> |list| - n <= i)
  }

  ghost predicate Sorted(b: Board) { forall p: Player :: ExtraSorted(b, p) }

  /** Outside `but`, no card disappears and none changes its type or position. */
  ghost predicate SameFaces(c: Arena, d: Arena, but: set<Key>) {
    forall k :: k in c && k !in but ==> k in d && c[k].cardType == d[k].cardType && c[k].position == d[k].position
  }

  ghost predicate NotInExtra(b: Board, gone: set<Key>) {
    forall p: Player, k :: k in gone ==> k !in ExtraList(b, p)
  }

  ghost predicate SameExtra(b: Board, r: Board) {
    forall p: Player :: ExtraList(r, p) == ExtraList(b, p) && PendulumCount(r, p) == PendulumCount(b, p)
  }

  ghost predicate StaysSorted(b: Board, r: Board) { Sorted(b) ==> Sorted(r) }

  lemma ExtraLive(b: Board, p: Player, loose: set<Key>)
    requires InvLoose(b, loose)
    ensures forall k :: k in ExtraList(b, p) ==> k in b.cards && k !in loose && b.cards[k].overlayTarget.None?
  {
    ListDistinct(b, Zone(p, Extra), loose);
    forall k | k in ExtraList(b, p) ensures k in b.cards && k !in loose && b.cards[k].overlayTarget.None? {
      var i :| 0 <= i < |ExtraList(b, p)| && ExtraList(b, p)[i] == k;
      assert k in KeysOf(ExtraList(b, p)) && FiledUnder(b.cards, ExtraList(b, p)[i], Zone(p, Extra));
    }
  }

  lemma LooseNotInExtra(b: Board, loose: set<Key>)
    requires InvLoose(b, loose)
    ensures NotInExtra(b, loose)
  {
    ExtraLive(b, First, loose);
    ExtraLive(b, Second, loose);
    hide InvLoose;
    forall p: Player, k | k in loose ensures k !in ExtraList(b, p) { assert p == First || p == Second; }
  }

  /** If neither the extra decks, their counts, nor the faces of their cards change, they stay sorted. */
  lemma UntouchedSorted(b: Board, r: Board, but: set<Key>, loose: set<Key>)
    requires InvLoose(b, loose) && SameExtra(b, r) && SameFaces(b.cards, r.cards, but) && NotInExtra(b, but)
    ensures StaysSorted(b, r)
  {
    if Sorted(b) {
      ExtraLive(b, First, loose);
      ExtraLive(b, Second, loose);
      hide InvLoose;
      forall p: Player ensures ExtraSorted(r, p) {
        assert p == First || p == Second;
        assert ExtraSorted(b, p);
      }
    }
  }

  // ---------- zone operations ----------

  lemma ClearTargetsFaces(cards: Arena, key: Key)
    ensures SameFaces(cards, ClearTargets(cards, key), {})
  {
  }

  lemma ReleaseEquipFaces(cards: Arena, key: Key)
    ensures SameFaces(cards, ReleaseEquip(cards, key), {})
  {
  }

  lemma {:induction false} ResetFaces(cards: Arena, list: seq<Key>)
    ensures SameFaces(cards, ResetSequence(cards, list, 0), {})
  {
    ResetSequenceFrame(cards, list, 0);
  }

  lemma FacesChain(c: Arena, d: Arena, e: Arena, but: set<Key>)
    requires SameFaces(c, d, {}) && SameFaces(d, e, but)
    ensures SameFaces(c, e, but)
  {
  }

  lemma SetterFaces(cards: Arena, key: Key, p: Player, location: Location, sequence: U8)
    ensures SameFaces(cards, SetPlace(cards, key, p, location, sequence), {})
    ensures SameFaces(cards, SetSequence(cards, key, sequence), {})
    ensures SameFaces(cards, ClearCard(cards, key), {key})
    ensures SameFaces(cards, cards, {})
  {
  }

  lemma {:induction false} DeckFaces(cards: Arena, list: seq<Key>, key: Key)
    ensures SameFaces(cards, ClearTargets(ClearCard(ResetSequence(cards, list, 0), key), key), {key})
  {
    var c := ResetSequence(cards, list, 0);
    ResetFaces(cards, list);
    SetterFaces(c, key, First, LIMBO, 0);
    ClearTargetsFaces(ClearCard(c, key), key);
    hide ResetSequence, SetType, ClearTargets;
    FacesChain(cards, c, ClearCard(c, key), {key});
  }

  /** Adding a card changes the face of no other card, and of itself only in a deck. */
  lemma AddCardFaces(b: Board, key: Key, p: Player, location: Location, sequence: U8)
    ensures SameFaces(b.cards, AddCard(b, key, p, location, sequence).cards, {key})
    ensures location != Location(In(Deck), false) ==> SameFaces(b.cards, AddCard(b, key, p, location, sequence).cards, {})
  {
    hide ResetSequence, SetPlace, SetSequence, ClearTargets, SetType, PutList, PutSlot, ExtraIndex, FaceupPendulumKey, SameFaces, InsertAt;
    var placed := b.(cards := SetPlace(b.cards, key, p, location, sequence));
    SetterFaces(b.cards, key, p, location, sequence);
    var r := AddCard(b, key, p, location, sequence).cards;
    if location.base.In? && !location.overlay {
      var z := Zone(p, location.base.kind);
      var list := List(b, z);
      match location.base.kind {
        case Deck =>
          DeckFaces(placed.cards, InsertAt(list, Min(sequence, |list|), key), key);
          FacesChain(b.cards, placed.cards, r, {key});
        case Hand => ResetFaces(placed.cards, InsertAt(list, |list|, key));
        case MZone => SetterFaces(placed.cards, key, p, location, sequence);
        case SZone => SetterFaces(placed.cards, key, p, location, sequence);
        case Grave => SetterFaces(placed.cards, key, p, location, AsU8(|list|));
        case Removed => SetterFaces(placed.cards, key, p, location, AsU8(|list|));
        case Extra =>
          ResetFaces(placed.cards, InsertAt(list, ExtraIndex(placed, p, FaceupPendulumKey(placed.cards, key)), key));
      }
      if !location.base.kind.Deck? { FacesChain(b.cards, placed.cards, r, {}); }
    }
    FacesWiden(b.cards, r, key);
  }

  lemma FacesWiden(c: Arena, d: Arena, key: Key)
    ensures SameFaces(c, d, {}) ==> SameFaces(c, d, {key})
  {
  }

  lemma AddElsewhere(b: Board, key: Key, p: Player, location: Location, sequence: U8)
    requires location.base.In? && !location.overlay && !location.base.kind.Extra?
    ensures SameExtra(b, AddCard(b, key, p, location, sequence))
  {
    AddCardOtherZones(b, key, p, location, sequence);
    hide ResetSequence, SetPlace, ClearTargets, PutList, PutSlot;
  }

  lemma InsertSorted(list: seq<Key>, i: nat, key: Key, n: nat, faceup: bool, before: Arena, after: Arena)
    requires n <= |list| && i == (if faceup || n == 0 then |list| else |list| - n)
    requires forall j :: 0 <= j < |list| ==> (FaceupPendulumKey(before, list[j]) <==> |list| - n <= j)
    requires forall j :: 0 <= j < |list| ==> FaceupPendulumKey(after, list[j]) == FaceupPendulumKey(before, list[j])
    requires FaceupPendulumKey(after, key) == faceup
    ensures var r := InsertAt(list, i, key);
      var n' := if faceup then n + 1 else n;
      forall j :: 0 <= j < |r| ==> (FaceupPendulumKey(after, r[j]) <==> |r| - n' <= j)
  {
    hide FaceupPendulumKey;
    var r := InsertAt(list, i, key);
    assert forall j :: 0 <= j < |r| ==> r[j] == if j < i then list[j] else if j == i then key else list[j - 1];
  }

  lemma LooseLives(b: Board, key: Key, loose: set<Key>)
    requires InvLoose(b, loose) && key in loose
    ensures key in b.cards
  {
  }

  lemma AddToExtraSorted(b: Board, key: Key, p: Player, sequence: U8, loose: set<Key>)
    requires InvLoose(b, loose) && key in loose && Sorted(b)
    ensures Sorted(AddCard(b, key, p, Location(In(Extra), false), sequence))
  {
    hide InvLoose, AddCard, FaceupPendulumKey, InsertAt;
    var location := Location(In(Extra), false);
    var r := AddCard(b, key, p, location, sequence);
    AddCardZones(b, key, p, location, sequence);
    AddCardOtherZones(b, key, p, location, sequence);
    AddCardFaces(b, key, p, location, sequence);
    AddToExtraCount(b, key, p, sequence);
    LooseLives(b, key, loose);
    FacesOfList(b.cards, r.cards, [key]);
    assert [key][0] == key;
    forall q: Player ensures ExtraSorted(r, q) {
      assert ExtraSorted(b, q);
      ExtraLive(b, q, loose);
      FacesOfList(b.cards, r.cards, ExtraList(b, q));
      if q == p {
        var list := ExtraList(b, p);
        var faceup := FaceupPendulumKey(b.cards, key);
        InsertSorted(list, ExtraIndex(b, p, faceup), key, PendulumCount(b, p), faceup, b.cards, r.cards);
      }
    }
  }

  lemma AddToExtraCount(b: Board, key: Key, p: Player, sequence: U8)
    ensures var r := AddCard(b, key, p, Location(In(Extra), false), sequence);
      var faceup := FaceupPendulumKey(b.cards, key);
      && PendulumCount(r, p) == PendulumCount(b, p) + (if faceup then 1 else 0)
      && forall q: Player :: q != p ==> PendulumCount(r, q) == PendulumCount(b, q)
  {
    hide ResetSequence, PutList, ExtraIndex;
  }

  lemma AddCardSorted(b: Board, key: Key, p: Player, location: Location, sequence: U8, loose: set<Key>)
    requires InvLoose(b, loose) && key in loose && Free(b, p, location, sequence)
    ensures StaysSorted(b, AddCard(b, key, p, location, sequence))
  {
    hide InvLoose, AddCard, Sorted, SameFaces, NotInExtra;
    if location.base.kind.Extra? {
      if Sorted(b) { AddToExtraSorted(b, key, p, sequence, loose); }
    } else {
      AddElsewhere(b, key, p, location, sequence);
      AddCardFaces(b, key, p, location, sequence);
      LooseNotInExtra(b, loose);
      OneNotInExtra(b, key, loose);
      UntouchedSorted(b, AddCard(b, key, p, location, sequence), {key}, loose);
    }
  }

  lemma OneNotInExtra(b: Board, key: Key, loose: set<Key>)
    requires NotInExtra(b, loose) && key in loose
    ensures NotInExtra(b, {key})
  {
  }

  lemma RemoveSorted(list: seq<Key>, i: nat, n: nat, before: Arena, after: Arena)
    requires i < |list| && n <= |list|
    requires forall j :: 0 <= j < |list| ==> (FaceupPendulumKey(before, list[j]) <==> |list| - n <= j)
    requires forall j :: 0 <= j < |list| && j != i ==> FaceupPendulumKey(after, list[j]) == FaceupPendulumKey(before, list[j])
    ensures var r := RemoveAt(list, i);
      var n' := if FaceupPendulumKey(before, list[i]) then n - 1 else n;
      0 <= n' <= |r| && forall j :: 0 <= j < |r| ==> (FaceupPendulumKey(after, r[j]) <==> |r| - n' <= j)
  {
    hide FaceupPendulumKey;
    var r := RemoveAt(list, i);
    assert forall j :: 0 <= j < |r| ==> r[j] == list[if j < i then j else j + 1];
  }

  /** What a removal does to faces and counts. */
  lemma RemoveCardFaces(b: Board, p: Player, location: Location, sequence: U8, key: Key)
    requires location.base.In? && !location.overlay && Cell(b, Zone(p, location.base.kind), sequence) == Some(key)
    ensures var r := RemoveCard(b, p, location, sequence);
      && SameFaces(b.cards, r.cards, {}) && r.cards.Keys == b.cards.Keys
      && (forall q: Player :: PendulumCount(r, q) ==
           if q == p && location.base.kind.Extra? && FaceupPendulumKey(b.cards, key)
           then PendulumCount(b, q) - 1 else PendulumCount(b, q))
  {
    var z := Zone(p, location.base.kind);
    if !IsSlots(z.kind) {
      ResetFaces(b.cards, RemoveAt(List(b, z), sequence));
    }
    hide ResetSequence, PutList, PutSlot;
  }

  lemma RemoveFromExtraSorted(b: Board, p: Player, sequence: U8, key: Key, loose: set<Key>)
    requires InvLoose(b, loose) && Cell(b, Zone(p, Extra), sequence) == Some(key) && Sorted(b)
    ensures Sorted(RemoveCard(b, p, Location(In(Extra), false), sequence))
  {
    hide InvLoose, RemoveCard, FaceupPendulumKey;
    var r := RemoveCard(b, p, Location(In(Extra), false), sequence);
    RemoveCardZones(b, p, Location(In(Extra), false), sequence, key);
    RemoveCardFaces(b, p, Location(In(Extra), false), sequence, key);
    forall q: Player ensures ExtraSorted(r, q) {
      assert ExtraSorted(b, q);
      ExtraLive(b, q, loose);
      FacesOfList(b.cards, r.cards, ExtraList(b, q));
      if q == p {
        RemoveSorted(ExtraList(b, p), sequence, PendulumCount(b, p), b.cards, r.cards);
      }
    }
  }

  lemma FacesOfList(c: Arena, d: Arena, list: seq<Key>)
    requires SameFaces(c, d, {}) && forall k :: k in list ==> k in c
    ensures forall i :: 0 <= i < |list| ==> FaceupPendulumKey(d, list[i]) == FaceupPendulumKey(c, list[i])
  {
  }

  lemma RemoveCardSorted(b: Board, p: Player, location: Location, sequence: U8, key: Key, loose: set<Key>)
    requires InvLoose(b, loose) && !location.overlay && GetCard(b, p, location, sequence, 0) == Some(key)
    ensures StaysSorted(b, RemoveCard(b, p, location, sequence))
  {
    hide InvLoose, RemoveCard, Sorted, FaceupPendulumKey, SameFaces;
    if location.base.kind.Extra? {
      if Sorted(b) { RemoveFromExtraSorted(b, p, sequence, key, loose); }
    } else {
      RemoveCardZones(b, p, location, sequence, key);
      RemoveCardFaces(b, p, location, sequence, key);
      UntouchedSorted(b, RemoveCard(b, p, location, sequence), {}, loose);
    }
  }

  /** An arena change that spares the faces of the cards in the extra decks. */
  lemma ArenaSorted(b: Board, c: Arena, but: set<Key>, loose: set<Key>)
    requires InvLoose(b, loose) && SameFaces(b.cards, c, but) && NotInExtra(b, but)
    ensures StaysSorted(b, b.(cards := c))
  {
    UntouchedSorted(b, b.(cards := c), but, loose);
  }

  lemma LooksSorted(b: Board, key: Key, code: U32, position: bv8, loose: set<Key>)
    requires InvLoose(b, loose)
    ensures StaysSorted(b, b.(cards := SetCode(b.cards, key, code)))
    ensures StaysSorted(b, b.(cards := ClearTargets(b.cards, key)))
    ensures StaysSorted(b, b.(cards := ReleaseEquip(b.cards, key)))
    ensures key in loose ==> StaysSorted(b, b.(cards := SetPosition(b.cards, key, position)))
  {
    assert SameFaces(b.cards, SetCode(b.cards, key, code), {});
    assert SameFaces(b.cards, SetPosition(b.cards, key, position), {key});
    ClearTargetsFaces(b.cards, key);
    ReleaseEquipFaces(b.cards, key);
    LooseNotInExtra(b, loose);
    hide InvLoose, SetCode, ClearTargets, ReleaseEquip, SetPosition, SameFaces, Sorted;
    assert NotInExtra(b, {});
    ArenaSorted(b, SetCode(b.cards, key, code), {}, loose);
    ArenaSorted(b, ClearTargets(b.cards, key), {}, loose);
    ArenaSorted(b, ReleaseEquip(b.cards, key), {}, loose);
    if key in loose { ArenaSorted(b, SetPosition(b.cards, key, position), {key}, loose); }
  }

  // ---------- moves ----------

  lemma PutDownSorted(b: Board, key: Key, current: InfoLocation)
    requires InvLoose(b, {key}) && Free(b, current.controller, current.location, current.sequence)
    ensures StaysSorted(b, AddCard(b.(cards := SetPosition(b.cards, key, current.position)), key,
      current.controller, current.location, current.sequence))
  {
    hide InvLoose, Sorted, AddCard, SetPosition;
    LooksSorted(b, key, 0, current.position, {key});
    SetPositionKeeps(b, key, current.position, {key});
    AddCardSorted(b.(cards := SetPosition(b.cards, key, current.position)), key,
      current.controller, current.location, current.sequence, {key});
  }

  lemma MoveInSorted(b: Board, code: U32, current: InfoLocation)
    requires Inv(b) && Room(b, None, current.controller, current.location, current.sequence)
    ensures StaysSorted(b, MoveIn(b, code, current))
  {
    hide InvLoose, Sorted, AddCard, SetPosition, SetCode;
    CreateSorted(b);
    CreateCardKeeps(b, {});
    assert {} + {b.next} == {b.next};
    var b1 := CreateCard(b);
    LooksSorted(b1, b.next, code, current.position, {b.next});
    SetPositionKeeps(b1, b.next, current.position, {b.next});
    var b2 := b1.(cards := SetPosition(b1.cards, b.next, current.position));
    LooksSorted(b2, b.next, code, current.position, {b.next});
    SetCodeKeeps(b2, b.next, code, {b.next});
    AddCardSorted(b2.(cards := SetCode(b2.cards, b.next, code)), b.next,
      current.controller, current.location, current.sequence, {b.next});
  }

  lemma CreateSorted(b: Board)
    requires Inv(b)
    ensures StaysSorted(b, CreateCard(b))
  {
    assert b.next !in b.cards;
    assert SameFaces(b.cards, CreateCard(b).cards, {});
    UntouchedSorted(b, CreateCard(b), {}, {});
    hide InvLoose;
  }

  lemma UnlinkSorted(b: Board, key: Key, loose: set<Key>)
    requires InvLoose(b, loose)
    ensures StaysSorted(b, b.(cards := Unlink(b.cards, key)))
  {
    hide InvLoose, Sorted, ClearTargets, ReleaseEquip;
    LooksSorted(b, key, 0, 0, loose);
    ClearTargetsKeep(b, key, loose);
    LooksSorted(b.(cards := ClearTargets(b.cards, key)), key, 0, 0, loose);
  }

  /** Renaming, unlinking and taking out the mover. */
  lemma TakeMoverSorted(b: Board, code: U32, rename: bool, p: Player, location: Location, sequence: U8, key: Key, unlink: bool)
    requires Inv(b) && !location.overlay && GetCard(b, p, location, sequence, 0) == Some(key)
    ensures var c := if rename then SetCode(b.cards, key, code) else b.cards;
      var b1 := b.(cards := if unlink then Unlink(c, key) else c);
      StaysSorted(b, b1) && StaysSorted(b, RemoveCard(b1, p, location, sequence))
  {
    hide InvLoose, Sorted, SetCode, Unlink, RemoveCard, GetCard, SameLinks;
    var c := if rename then SetCode(b.cards, key, code) else b.cards;
    RenameLinks(b.cards, key, code);
    SameLinksKeep(b, c, {});
    LooksSorted(b, key, code, 0, {});
    UnlinkSorted(b.(cards := c), key, {});
    var b1 := b.(cards := if unlink then Unlink(c, key) else c);
    TakeMover(b, c, p, location, sequence, key, unlink);
    GetZoneCard(b, b1.cards, p, location, sequence);
    RemoveCardSorted(b1, p, location, sequence, key, {});
  }

  lemma MoveAcrossSorted(b: Board, code: U32, previous: InfoLocation, current: InfoLocation)
    requires Inv(b) && !previous.location.overlay
    requires var mover := GetCard(b, previous.controller, previous.location, previous.sequence, 0);
      mover.Some? ==> Room(b, mover, current.controller, current.location, current.sequence)
    ensures StaysSorted(b, MoveAcross(b, code, previous, current))
  {
    hide InvLoose, Sorted, SetCode, Unlink, RemoveCard, GetCard, Room, SameLinks, AddCard, SetPosition;
    var p, location, sequence := previous.controller, previous.location, previous.sequence;
    var found := GetCard(b, p, location, sequence, 0);
    if found.Some? {
      var key := found.value;
      var c := Renamed(b.cards, key, code, current.location == Location(In(Extra), false));
      RenameLinks(b.cards, key, code);
      TakeMover(b, c, p, location, sequence, key, current.location != location);
      TakeMoverSorted(b, code, c != b.cards, p, location, sequence, key, current.location != location);
      var c1 := if current.location != location then Unlink(c, key) else c;
      var b2 := RemoveCard(b.(cards := c1), p, location, sequence);
      RoomIsFree(b, b2, p, location, sequence, key, current.controller, current.location, current.sequence);
      PutDownSorted(b2, key, current);
    }
  }

  lemma MoveUnderSorted(b: Board, code: U32, previous: InfoLocation, current: InfoLocation)
    requires Inv(b) && !previous.location.overlay
    ensures StaysSorted(b, MoveUnder(b, code, previous, current))
  {
    hide InvLoose, Sorted, SetCode, Unlink, RemoveCard, GetCard, SameLinks, AttachMaterial, SetLocation;
    var p, location, sequence := previous.controller, previous.location, previous.sequence;
    var found := GetCard(b, p, location, sequence, 0);
    if found.Some? {
      var key := found.value;
      var c := if code != 0 then SetCode(b.cards, key, code) else b.cards;
      var b1 := b.(cards := Unlink(c, key));
      RenameLinks(b.cards, key, code);
      TakeMoverSorted(b, code, code != 0, p, location, sequence, key, true);
      var host := GetCard(b1, current.controller, ClearPlace(current), current.sequence, 0);
      var b2 := RemoveCard(b1, p, location, sequence);
      if host.Some? && host.value in b2.cards {
        TakeMover(b, c, p, location, sequence, key, true);
        AttachFaces(b2.cards, host.value, key);
        ArenaSorted(b2, SetLocation(AttachMaterial(b2.cards, host.value, key), key, OVERLAY), {}, {key});
      }
    }
  }

  lemma AttachFaces(cards: Arena, host: Key, key: Key)
    requires host in cards
    ensures SameFaces(cards, AttachMaterial(cards, host, key), {})
    ensures SameFaces(cards, SetLocation(AttachMaterial(cards, host, key), key, OVERLAY), {})
  {
  }

  lemma DetachFaces(cards: Arena, host: Key, i: nat)
    requires host in cards && i < |cards[host].overlayed|
    ensures SameFaces(cards, DetachMaterial(cards, host, i), {})
    ensures SameFaces(cards, SetOverlayTarget(DetachMaterial(cards, host, i), cards[host].overlayed[i], None), {})
  {
    var rest := cards[host].overlayed[..i] + cards[host].overlayed[i + 1..];
    ResetFaces(cards[host := cards[host].(overlayed := [])], rest);
    hide ResetSequence;
  }

  lemma MoveFromUnderSorted(b: Board, previous: InfoLocation, current: InfoLocation)
    requires Inv(b)
    requires MovedMaterial(b, previous).Some? ==> Room(b, None, current.controller, current.location, current.sequence)
    ensures StaysSorted(b, MoveFromUnder(b, previous, current))
  {
    hide InvLoose, Sorted, SetPosition, AddCard, GetCard, IsMaterial, DetachMaterial, SetOverlayTarget;
    var found := MovedMaterial(b, previous);
    if found.Some? {
      var key := found.value;
      var host := GetCard(b, previous.controller, ClearPlace(previous), previous.sequence, 0).value;
      var i: nat := previous.overlaySequence;
      MovedMaterialFacts(b, previous, key, host);
      Lift(b, host, i);
      DetachFaces(b.cards, host, i);
      var b1 := b.(cards := SetOverlayTarget(DetachMaterial(b.cards, host, i), key, None));
      ArenaSorted(b, b1.cards, {}, {});
      PutDownSorted(b1, key, current);
    }
  }

  lemma MoveBetweenSorted(b: Board, previous: InfoLocation, current: InfoLocation)
    requires Inv(b)
    ensures StaysSorted(b, MoveBetween(b, previous, current))
  {
    hide InvLoose, Sorted, GetCard, IsMaterial, DetachMaterial, AttachMaterial;
    var found := MovedMaterial(b, previous);
    var found' := GetCard(b, current.controller, ClearPlace(current), current.sequence, 0);
    if found.Some? && found'.Some? {
      var host := GetCard(b, previous.controller, ClearPlace(previous), previous.sequence, 0).value;
      MovedMaterialFacts(b, previous, found.value, host);
      var c := DetachMaterial(b.cards, host, previous.overlaySequence);
      DetachFaces(b.cards, host, previous.overlaySequence);
      if found'.value in c {
        AttachFaces(c, found'.value, found.value);
        assert SameFaces(b.cards, AttachMaterial(c, found'.value, found.value), {});
        ArenaSorted(b, AttachMaterial(c, found'.value, found.value), {}, {});
      } else {
        ArenaSorted(b, c, {}, {});
      }
    }
  }

  lemma MoveOutSorted(b: Board, code: U32, previous: InfoLocation)
    requires Inv(b)
    ensures StaysSorted(b, MoveOut(b, code, previous))
  {
    hide InvLoose, Sorted, SetCode, ClearTargets, RemoveCard, Destroy;
    var found := GetInfo(b, previous);
    if found.Some? {
      var key := found.value;
      KnownKey(b, previous.controller, previous.location, previous.sequence, AsI8(previous.overlaySequence), key);
      var c := if code != 0 then SetCode(b.cards, key, code) else b.cards;
      SetCodeKeeps(b, key, code, {});
      LooksSorted(b, key, code, 0, {});
      ClearTargetsKeep(b.(cards := c), key, {});
      LooksSorted(b.(cards := c), key, code, 0, {});
      var b1 := b.(cards := ClearTargets(c, key));
      var b2 := RemoveCard(b1, previous.controller, previous.location, previous.sequence);
      if previous.location.overlay {
        NoRemoval(b1, previous.controller, previous.location, previous.sequence);
        DestroySorted(b2, key, {});
      } else {
        RemoveCardKeeps(b1, previous.controller, previous.location, previous.sequence, key, {});
        RemoveCardSorted(b1, previous.controller, previous.location, previous.sequence, key, {});
        assert {} + {key} == {key};
        DestroySorted(b2, key, {key});
      }
    }
  }

  lemma DestroySorted(b: Board, key: Key, loose: set<Key>)
    requires InvLoose(b, loose) && key in b.cards && (key in loose || b.cards[key].overlayTarget.Some?)
    ensures StaysSorted(b, b.(cards := Destroy(b.cards, key)))
  {
    var but := {key} + KeysOf(b.cards[key].overlayed);
    DestroyEffect(b.cards, key);
    ExtraLive(b, First, loose);
    ExtraLive(b, Second, loose);
    forall p: Player, k | k in but ensures k !in ExtraList(b, p) {
      assert p == First || p == Second;
      if k != key { assert IsMaterial(b.cards, k, key); }
    }
    hide InvLoose, Destroy;
    assert SameFaces(b.cards, Destroy(b.cards, key), but);
    ArenaSorted(b, Destroy(b.cards, key), but, loose);
  }

  lemma MoveSorted(b: Board, code: U32, previous: InfoLocation, current: InfoLocation)
    requires Inv(b) && LegalMove(b, previous, current)
    ensures StaysSorted(b, MoveStep(b, code, previous, current))
  {
    hide InvLoose, Sorted, MoveIn, MoveOut, MoveAcross, MoveUnder, MoveFromUnder, MoveBetween, Room, Bare;
    if previous.location == LIMBO {
      MoveInSorted(b, code, current);
    } else if current.location == LIMBO {
      MoveOutSorted(b, code, previous);
    } else if !previous.location.overlay && !current.location.overlay {
      MoveAcrossSorted(b, code, previous, current);
    } else if !previous.location.overlay {
      MoveUnderSorted(b, code, previous, current);
    } else if !current.location.overlay {
      MoveFromUnderSorted(b, previous, current);
    } else {
      MoveBetweenSorted(b, previous, current);
    }
  }
}
