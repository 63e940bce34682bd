/** The extra deck on whole runs. */
module ExtraRuns {
  // It stays in order exactly if every message of the run is safe for the order.

  import opened Options
  import opened Board
  import opened Placement
  import opened Zoning
  import opened Evolution
  import opened Moves
  import opened Updates
  import opened Deals
  import opened Reloads
  import opened Runs
  import opened Faces
  import opened ExtraDeck
  import opened ExtraExactness

  // ---------- draws, swaps and shuffles ----------

  lemma PopSorted(b: Board, z: Zone, loose: set<Key>)
    requires InvLoose(b, loose) && !IsSlots(z.kind) && !z.kind.Extra? && List(b, z) != []
    ensures StaysSorted(b, SetList(b, z, List(b, z)[..|List(b, z)| - 1]))
  {
    var r := SetList(b, z, List(b, z)[..|List(b, z)| - 1]);
    assert forall p: Player :: ExtraList(r, p) == ExtraList(b, p);
    UntouchedSorted(b, r, {}, loose);
    hide InvLoose;
  }

  lemma NamesSorted(b: Board, cards: Arena)
    requires Inv(b) && SameFaces(b.cards, cards, {})
    ensures StaysSorted(b, b.(cards := cards))
  {
    hide InvLoose, Sorted;
    ArenaSorted(b, cards, {}, {});
  }

  lemma {:induction false} NameFromTopFaces(cards: Arena, list: seq<Key>, top: int, codes: seq<U32>, skipZero: bool)
    requires top < |list|
    ensures SameFaces(cards, NameFromTop(cards, list, top, codes, skipZero), {})
    decreases codes
  {
    if codes == [] || (top < 0 && !(skipZero && codes[0] == 0)) {
    } else if skipZero && codes[0] == 0 {
      NameFromTopFaces(cards, list, top - 1, codes[1..], skipZero);
    } else {
      NameFromTopFaces(SetCode(cards, list[top], codes[0]), list, top - 1, codes[1..], skipZero);
    }
  }

  lemma {:induction false} DrawCardsSorted(b: Board, p: Player, count: nat)
    requires Inv(b)
    requires |List(b, Zone(p, Hand))| + Min(count, |List(b, Zone(p, Deck))|) <= NUMBERS
    ensures StaysSorted(b, DrawCards(b, p, count))
    decreases count
  {
    hide InvLoose, Sorted, AddCard;
    var deck := List(b, Zone(p, Deck));
    if count > 0 && deck != [] {
      var top := deck[|deck| - 1];
      var b1 := SetList(b, Zone(p, Deck), deck[..|deck| - 1]);
      PopSorted(b, Zone(p, Deck), {});
      PopKeeps(b, Zone(p, Deck), {});
      PutListCells(b.zones, Zone(p, Deck), deck[..|deck| - 1]);
      assert {} + {top} == {top} && {top} - {top} == {};
      assert List(b1, Zone(p, Hand)) == List(b, Zone(p, Hand));
      AddCardKeeps(b1, top, p, Location(In(Hand), false), 0, {top});
      AddCardSorted(b1, top, p, Location(In(Hand), false), 0, {top});
      AddCardOtherZones(b1, top, p, Location(In(Hand), false), 0);
      DrawCardsSorted(AddCard(b1, top, p, Location(In(Hand), false), 0), p, count - 1);
    }
  }

  lemma DrawSorted(b: Board, p: Player, codes: seq<U32>)
    requires Inv(b)
    requires |List(b, Zone(p, Hand))| + Min(|codes|, |List(b, Zone(p, Deck))|) <= NUMBERS
    ensures StaysSorted(b, DrawStep(b, p, codes))
  {
    hide InvLoose, Sorted, NameFromTop, DrawCards, SameFaces;
    var deck := List(b, Zone(p, Deck));
    var c := NameFromTop(b.cards, deck, |deck| - 1, codes, b.deckReversed);
    NameFromTopFrame(b.cards, deck, |deck| - 1, codes, b.deckReversed);
    NameFromTopFaces(b.cards, deck, |deck| - 1, codes, b.deckReversed);
    SameLinksKeep(b, c, {});
    NamesSorted(b, c);
    DrawCardsSorted(b.(cards := c), p, |codes|);
  }

  lemma SwapSorted(b: Board, at1: InfoLocation, at2: InfoLocation)
    requires Inv(b) && OccupiedSlot(b, at1) && OccupiedSlot(b, at2)
    ensures StaysSorted(b, SwapStep(b, at1, at2))
  {
    var r := SwapStep(b, at1, at2);
    var first, second := GetInfo(b, at1).value, GetInfo(b, at2).value;
    hide InvLoose, RemoveCard, AddCard, Sorted;
    var b1 := RemoveCard(b, at1.controller, at1.location, at1.sequence);
    RemoveCardFaces(b, at1.controller, at1.location, at1.sequence, first);
    RemoveCardZones(b, at1.controller, at1.location, at1.sequence, first);
    var b2 := RemoveCard(b1, at2.controller, at2.location, at2.sequence);
    RemoveSlotExtra(b1, at2.controller, at2.location, at2.sequence);
    var b3 := AddCard(b2, first, at2.controller, at2.location, at2.sequence);
    AddCardFaces(b2, first, at2.controller, at2.location, at2.sequence);
    AddElsewhere(b2, first, at2.controller, at2.location, at2.sequence);
    AddCardFaces(b3, second, at1.controller, at1.location, at1.sequence);
    AddElsewhere(b3, second, at1.controller, at1.location, at1.sequence);
    UntouchedSorted(b, r, {}, {});
  }

  lemma RemoveSlotExtra(b: Board, p: Player, location: Location, sequence: U8)
    requires location.base.In? && !location.overlay && IsSlots(location.base.kind)
    ensures SameExtra(b, RemoveCard(b, p, location, sequence))
    ensures SameFaces(b.cards, RemoveCard(b, p, location, sequence).cards, {})
  {
    var found := Cell(b, Zone(p, location.base.kind), sequence);
    if found.Some? {
      RemoveCardFaces(b, p, location, sequence, found.value);
      RemoveCardZones(b, p, location, sequence, found.value);
      hide RemoveCard;
    }
  }

  lemma ReverseSorted(b: Board, p: Player)
    requires Inv(b)
    ensures StaysSorted(b, ReverseDeckOf(b, p))
  {
    var list := Reverse(List(b, Zone(p, Deck)));
    ResetFaces(b.cards, list);
    hide InvLoose, ResetSequence, Sorted;
    UntouchedSorted(b, ReverseDeckOf(b, p), {}, {});
  }

  lemma {:induction false} HideFaces(cards: Arena, keys: seq<Option<Key>>)
    ensures SameFaces(cards, HideSelected(cards, keys), {})
    decreases keys
  {
    if keys != [] { HideFaces(if keys[0].Some? then SetCode(cards, keys[0].value, 0) else cards, keys[1..]); }
  }

  lemma MoveSetCardFaces(b: Board, kind: Kind, key: Key, at: InfoLocation)
    requires IsSlots(kind) && key in b.cards
    ensures SameFaces(b.cards, MoveSetCard(b, kind, key, at).cards, {}) && SameExtra(b, MoveSetCard(b, kind, key, at))
  {
    hide IsFaceupPendulum;
  }

  lemma {:induction false} MoveSetCardsFaces(b: Board, kind: Kind, keys: seq<Option<Key>>, news: seq<InfoLocation>)
    requires IsSlots(kind)
    ensures SameFaces(b.cards, MoveSetCards(b, kind, keys, news).cards, {}) && SameExtra(b, MoveSetCards(b, kind, keys, news))
    decreases |news|
  {
    hide MoveSetCard;
    if news != [] {
      var tail := if keys == [] then [] else keys[1..];
      if news[0].location == LIMBO || keys == [] || keys[0].None? || keys[0].value !in b.cards {
        MoveSetCardsFaces(b, kind, tail, news[1..]);
      } else {
        MoveSetCardFaces(b, kind, keys[0].value, news[0]);
        MoveSetCardsFaces(MoveSetCard(b, kind, keys[0].value, news[0]), kind, tail, news[1..]);
      }
    }
  }

  lemma ShuffleSorted(b: Board, where: Location, olds: seq<InfoLocation>, news: seq<InfoLocation>)
    requires Inv(b)
    ensures StaysSorted(b, ShuffleSetCardStep(b, where, olds, news))
  {
    hide InvLoose, MoveSetCards, HideSelected, Sorted;
    var kind := ShuffleKind(where);
    var keys := Selected(b, kind, olds);
    HideFaces(b.cards, keys);
    MoveSetCardsFaces(b.(cards := HideSelected(b.cards, keys)), kind, keys, news);
    UntouchedSorted(b, ShuffleSetCardStep(b, where, olds, news), {}, {});
  }

  // ---------- grave and deck ----------

  lemma {:induction false} DealSorted(b: Board, p: Player, source: seq<Key>, kept: seq<Key>)
    requires Dealing(b, p, source, kept)
    ensures StaysSorted(b, DealGrave(b, p, source, kept))
    decreases source
  {
    hide InvLoose, Sorted, AddCard, SetPosition, SetLocation, SetSequence, IsExtraDeckType, Distinct, At, ExtraTypes;
    var loose := KeysOf(source) + KeysOf(kept);
    if source == [] {
      var r := SetList(b, Zone(p, Deck), kept);
      assert SameExtra(b, r) && SameFaces(b.cards, r.cards, {});
      UntouchedSorted(b, r, {}, loose);
    } else if IsExtraDeckType(b.cards, source[0]) {
      DealToExtra(b, p, source, kept);
      DealExtraSorted(b, p, source, kept);
      var b1 := b.(cards := SetPosition(b.cards, source[0], FACEDOWN));
      DealSorted(AddCard(b1, source[0], p, Location(In(Extra), false), 0), p, source[1..], kept);
    } else {
      DealToDeck(b, p, source, kept);
      var c := SetSequence(SetLocation(b.cards, source[0], Location(In(Deck), false)), source[0], AsU8(|kept|));
      FiledFaces(b.cards, source[0], AsU8(|kept|));
      ArenaSorted(b, c, {}, loose);
      DealSorted(b.(cards := c), p, source[1..], kept + [source[0]]);
    }
  }

  lemma FiledFaces(cards: Arena, key: Key, sequence: U8)
    ensures SameFaces(cards, SetSequence(SetLocation(cards, key, Location(In(Deck), false)), key, sequence), {})
  {
  }

  lemma DealExtraSorted(b: Board, p: Player, source: seq<Key>, kept: seq<Key>)
    requires Dealing(b, p, source, kept) && source != [] && IsExtraDeckType(b.cards, source[0])
    ensures StaysSorted(b, AddCard(b.(cards := SetPosition(b.cards, source[0], FACEDOWN)), source[0], p, Location(In(Extra), false), 0))
  {
    var loose := KeysOf(source) + KeysOf(kept);
    var key := source[0];
    assert ExtraTypes(b.cards, source) >= 1;
    assert key in KeysOf(source);
    hide InvLoose, Sorted, AddCard, SetPosition, IsExtraDeckType, Distinct, At, ExtraTypes;
    LooksSorted(b, key, 0, FACEDOWN, loose);
    SetPositionKeeps(b, key, FACEDOWN, loose);
    AddCardSorted(b.(cards := SetPosition(b.cards, key, FACEDOWN)), key, p, Location(In(Extra), false), 0, loose);
  }

  lemma LocatedFaces(b: Board, p: Player)
    requires Inv(b)
    ensures var c := SetLocations(b.cards, List(b, Zone(p, Deck)), Location(In(Grave), false));
      var r := SetList(SetList(b, Zone(p, Grave), List(b, Zone(p, Deck))), Zone(p, Deck), []).(cards := c);
      SameExtra(b, r) && SameFaces(b.cards, c, {})
  {
    hide InvLoose, SetLocations;
    SetLocationsEffect(b.cards, List(b, Zone(p, Deck)), Location(In(Grave), false));
  }

  lemma SwapGraveDeckSorted(b: Board, p: Player)
    requires Inv(b)
    requires |List(b, Zone(p, Extra))| + ExtraTypes(b.cards, List(b, Zone(p, Grave))) <= NUMBERS
    ensures StaysSorted(b, SwapGraveDeckStep(b, p))
  {
    hide InvLoose, SetLocations, Sorted, DealGrave, IsFaceupPendulum, SameExtra, SameFaces;
    var grave, deck := List(b, Zone(p, Grave)), List(b, Zone(p, Deck));
    var c := SetLocations(b.cards, deck, Location(In(Grave), false));
    var r := SetList(SetList(b, Zone(p, Grave), deck), Zone(p, Deck), []).(cards := c);
    SwapPiles(b, p);
    ExtraTypesSame(b.cards, c, grave);
    LocatedFaces(b, p);
    assert KeysOf(grave) + KeysOf([]) == KeysOf(grave);
    UntouchedSorted(b, r, {}, {});
    DealSorted(r, p, grave, []);
  }

  // ---------- start ----------

  /** No card has a type and nothing is counted as pendulum. */
  ghost predicate Plain(b: Board) {
    (forall k :: k in b.cards ==> b.cards[k].cardType == NO_TYPE) && forall p: Player :: PendulumCount(b, p) == 0
  }

  lemma PlainSorted(b: Board)
    requires Plain(b)
    ensures Sorted(b)
  {
    assert forall k :: k in b.cards ==> !IsFaceupPendulum(b.cards[k]);
  }

  lemma {:induction false} FillPlain(b: Board, z: Zone, count: nat)
    requires Plain(b)
    ensures Plain(FillInitial(b, z, count))
    decreases count
  {
    if count > 0 {
      var b1 := Grow(b, z);
      var b2 := b1.(cards := SetPosition(b1.cards, b.next, FACEDOWN_DEFENSE));
      assert forall p: Player :: PendulumCount(b2, p) == PendulumCount(b, p);
      FillPlain(b2, z, count - 1);
    }
  }

  lemma StartSorted(deck1: U16, extra1: U16, deck2: U16, extra2: U16)
    ensures Plain(StartStep(deck1, extra1, deck2, extra2)) && Sorted(StartStep(deck1, extra1, deck2, extra2))
  {
    assert Plain(Empty());
    hide Plain, FillInitial, Sorted, Empty;
    FillPlain(Empty(), Zone(First, Deck), deck1);
    var b1 := FillInitial(Empty(), Zone(First, Deck), deck1);
    FillPlain(b1, Zone(First, Extra), extra1);
    var b2 := FillInitial(b1, Zone(First, Extra), extra1);
    FillPlain(b2, Zone(Second, Deck), deck2);
    FillPlain(FillInitial(b2, Zone(Second, Deck), deck2), Zone(Second, Extra), extra2);
    PlainSorted(StartStep(deck1, extra1, deck2, extra2));
  }

  // ---------- runs ----------

  /**
  What the order of the extra deck asks of a message: an update leaves every card of an extra deck on its side, a
  tag swap announces the count that fits the cards it leaves, and a reload announces none.
  */
  ghost predicate ExtraSafe(b: Board, m: Message) {
    match m
    case TagSwap(p, _, pendulumCount, _, _, extra) => CountFits(b, p, |extra|, pendulumCount)
    case ReloadField(player1, player2) => player1.pendulumCount == 0 && player2.pendulumCount == 0
    case _ => UpdatesCards(m) ==> KeepsSides(b, m)
  }

  ghost predicate Relates(m: Message) { m.Equip? || m.Unequip? || m.CardTarget? || m.CancelTarget? || m.ConfirmExtraTop? }

  lemma EquipFaces(cards: Arena, key: Key, target: Key)
    ensures SameFaces(cards, AddEquipped(SetEquipTarget(cards, key, Some(target)), target, key), {})
  {
  }

  lemma TargetFaces(cards: Arena, key: Key, target: Key)
    ensures SameFaces(cards, AddTarget(cards, key, target), {}) && SameFaces(cards, DropTarget(cards, key, target), {})
  {
  }

  lemma RelateFaces(b: Board, m: Message)
    requires Relates(m)
    ensures Step(b, m) == b.(cards := Step(b, m).cards) && SameFaces(b.cards, Step(b, m).cards, {})
  {
    hide GetCard, NameFromTop, SameFaces, AddEquipped, SetEquipTarget, ReleaseEquip, AddTarget, DropTarget;
    FacesSame(b.cards);
    match m {
      case Equip(at1, at2) =>
        var key, target := GetInfo(b, at1), GetInfo(b, at2);
        if key.Some? && target.Some? {
          ReleaseEquipFaces(b.cards, key.value);
          EquipFaces(ReleaseEquip(b.cards, key.value), key.value, target.value);
          FacesChain(b.cards, ReleaseEquip(b.cards, key.value), Step(b, m).cards, {});
        }
      case Unequip(at) =>
        if GetInfo(b, at).Some? { ReleaseEquipFaces(b.cards, GetInfo(b, at).value); }
      case CardTarget(at1, at2) =>
        if GetInfo(b, at1).Some? && GetInfo(b, at2).Some? { TargetFaces(b.cards, GetInfo(b, at1).value, GetInfo(b, at2).value); }
      case CancelTarget(at1, at2) =>
        if GetInfo(b, at1).Some? && GetInfo(b, at2).Some? { TargetFaces(b.cards, GetInfo(b, at1).value, GetInfo(b, at2).value); }
      case ConfirmExtraTop(p, codes) =>
        if PendulumCount(b, p) >= 0 {
          NameFromTopFaces(b.cards, ExtraList(b, p), |ExtraList(b, p)| - 1 - PendulumCount(b, p), codes, true);
        }
    }
  }

  lemma FacesSame(cards: Arena)
    ensures SameFaces(cards, cards, {})
  {
  }

  /** Every other legal message keeps the order whatever it says. */
  lemma StepSorted(b: Board, m: Message)
    requires Inv(b) && Legal(b, m) && !UpdatesCards(m) && !m.TagSwap? && !m.ReloadField?
    ensures StaysSorted(b, Step(b, m))
  {
    hide InvLoose, Sorted, SameFaces, LegalShuffle, LegalMove, OccupiedSlot, ExtraTypes, LegalInfo, GetCard;
    hide StartStep, UpdateZone, UpdateCardInfo, SwapGraveDeckStep, ShuffleSetCardStep, ReverseDeckOf, ConfirmExtraTopStep;
    hide MoveStep, PositionChangeStep, SwapStep, FlipStep, DrawStep, EquipStep, UnequipStep, TargetStep;
    if Relates(m) {
      RelateFaces(b, m);
      NamesSorted(b, Step(b, m).cards);
    } else {
      match m {
        case Start(deck1, extra1, deck2, extra2) => StartSorted(deck1, extra1, deck2, extra2);
        case SwapGraveDeck(p) => SwapGraveDeckSorted(b, p);
        case ShuffleSetCard(where, olds, news) => ShuffleSorted(b, where, olds, news);
        case ReverseDeck =>
          ReverseSorted(b, First);
          ReverseDeckKeeps(b, First);
          ReverseSorted(ReverseDeckOf(b, First), Second);
          FlagSorted(ReverseDeckOf(ReverseDeckOf(b, First), Second), !b.deckReversed);
        case Move(code, previous, current) => MoveSorted(b, code, previous, current);
        case Swap(at1, at2) => SwapSorted(b, at1, at2);
        case Draw(p, codes) => DrawSorted(b, p, codes);
      }
    }
  }

  /** A legal message keeps sorted extra decks sorted if and only if it is safe for them. */
  lemma StepSortedExactly(b: Board, m: Message)
    requires Inv(b) && Legal(b, m) && Sorted(b)
    ensures Sorted(Step(b, m)) <==> ExtraSafe(b, m)
  {
    hide InvLoose, Sorted, KeepsSides, CountFits, LegalShuffle, LegalMove, OccupiedSlot, ExtraTypes, LegalInfo;
    hide TagSwapStep, LoadPlayer, Step;
    if UpdatesCards(m) {
      UpdateSortedExactly(b, m);
    } else if m.TagSwap? {
      TagSwapSortedExactly(b, m.player, m.mainCount, m.pendulumCount, m.topCode, m.handCodes, m.extraCodes);
      TagSwapIsStep(b, m);
    } else if m.ReloadField? {
      ReloadSortedExactly(b, m.player1, m.player2);
    } else {
      StepSorted(b, m);
    }
  }

  lemma TagSwapIsStep(b: Board, m: Message)
    requires m.TagSwap?
    ensures Step(b, m) == TagSwapStep(b, m.player, m.mainCount, m.pendulumCount, m.topCode, m.handCodes, m.extraCodes)
  {
  }

  lemma FlagSorted(b: Board, flag: bool)
    ensures StaysSorted(b, b.(deckReversed := flag))
  {
    if Sorted(b) {
      forall p: Player ensures ExtraSorted(b.(deckReversed := flag), p) { assert ExtraSorted(b, p); }
    }
  }

  ghost predicate ExtraSafeRun(b: Board, ms: seq<Message>)
    decreases ms
  {
    ms == [] || (Legal(b, ms[0]) && ExtraSafe(b, ms[0]) && ExtraSafeRun(Step(b, ms[0]), ms[1..]))
  }

  lemma {:induction false} RunStaysSorted(b: Board, ms: seq<Message>)
    requires Inv(b) && Sorted(b) && ExtraSafeRun(b, ms)
    ensures Inv(Run(b, ms)) && Sorted(Run(b, ms))
    decreases ms
  {
    hide InvLoose, Sorted, Legal, ExtraSafe, Step;
    if ms != [] {
      StepKeeps(b, ms[0]);
      StepSortedExactly(b, ms[0]);
      RunStaysSorted(Step(b, ms[0]), ms[1..]);
    }
  }

  /** The extra decks are sorted at the start and after every message. */
  ghost predicate SortedThroughout(b: Board, ms: seq<Message>)
    decreases ms
  {
    Sorted(b) && (ms == [] || SortedThroughout(Step(b, ms[0]), ms[1..]))
  }

  /** On a legal run the extra decks are sorted all along if and only if every message of it is safe for them. */
  lemma {:induction false} RunSortedExactly(b: Board, ms: seq<Message>)
    requires Inv(b) && Sorted(b) && LegalRun(b, ms)
    ensures SortedThroughout(b, ms) <==> ExtraSafeRun(b, ms)
    decreases ms
  {
    hide InvLoose, Sorted, Legal, ExtraSafe, Step;
    if ms != [] {
      StepKeeps(b, ms[0]);
      StepSortedExactly(b, ms[0]);
      if Sorted(Step(b, ms[0])) { RunSortedExactly(Step(b, ms[0]), ms[1..]); }
    }
  }

  /** The extra deck is other cards first, then exactly `extra_pendulum_count` face-up pendulum cards. */
  lemma {:induction false} ExtraDeckOrder(ms: seq<Message>, p: Player)
    requires ExtraSafeRun(Empty(), ms)
    ensures var b := Run(Empty(), ms);
      var list, n := List(b, Zone(p, Extra)), PendulumCount(b, p);
      && 0 <= n <= |list|
      && forall i :: 0 <= i < |list| ==>
           list[i] in b.cards &&
           (b.cards[list[i]].position & 0x05 != 0 && b.cards[list[i]].cardType & 0x100_0000 != 0 <==> |list| - n <= i)
  {
    EmptyKeeps();
    assert Plain(Empty());
    PlainSorted(Empty());
    RunStaysSorted(Empty(), ms);
    var b := Run(Empty(), ms);
    assert ExtraSorted(b, p);
    ExtraLive(b, p, {});
    hide InvLoose, Run, ExtraSafeRun;
    forall i | 0 <= i < |ExtraList(b, p)| ensures ExtraList(b, p)[i] in b.cards {
      assert ExtraList(b, p)[i] in ExtraList(b, p);
    }
  }

  // ---------- what a confirmation names ----------

  /** The code reported for index `i` when `codes` name the cards from index `top` down; zero codes name nothing. */
  function ReportedCode(top: int, codes: seq<U32>, i: nat, code: U32): U32 {
    if i <= top && top - i < |codes| && codes[top - i] != 0 then codes[top - i] else code
  }

  lemma {:induction false} NamedFromTop(cards: Arena, list: seq<Key>, top: int, codes: seq<U32>, i: nat)
    requires top < |list| && Distinct(list) && i < |list| && list[i] in cards
    ensures var r := NameFromTop(cards, list, top, codes, true);
      && list[i] in r
      && r[list[i]] == cards[list[i]].(code := ReportedCode(top, codes, i, cards[list[i]].code))
    decreases codes
  {
    if codes == [] || (top < 0 && codes[0] != 0) {
    } else if codes[0] == 0 {
      NamedFromTop(cards, list, top - 1, codes[1..], i);
    } else {
      NamedFromTop(SetCode(cards, list[top], codes[0]), list, top - 1, codes[1..], i);
    }
  }

  lemma {:induction false} NotNamed(cards: Arena, list: seq<Key>, top: int, codes: seq<U32>, key: Key)
    requires top < |list| && key !in list && key in cards
    ensures key in NameFromTop(cards, list, top, codes, true) && NameFromTop(cards, list, top, codes, true)[key] == cards[key]
    decreases codes
  {
    if codes == [] || (top < 0 && codes[0] != 0) {
    } else if codes[0] == 0 {
      NotNamed(cards, list, top - 1, codes[1..], key);
    } else {
      NotNamed(SetCode(cards, list[top], codes[0]), list, top - 1, codes[1..], key);
    }
  }

  /**
  On a sorted extra deck a confirmation names exactly the top of the part below the face-up pendulum cards:
  with `m` cards in that part, the card at index `i < m` takes code `m - 1 - i` of the message if there is one
  and it is not zero; the pendulum cards above and all cards elsewhere stay as they are.
  */
  lemma ConfirmNamesTop(b: Board, p: Player, codes: seq<U32>, key: Key)
    requires Inv(b) && ExtraSorted(b, p) && key in b.cards
    ensures var list := List(b, Zone(p, Extra));
      var m := |list| - PendulumCount(b, p);
      var r := ConfirmExtraTopStep(b, p, codes);
      && 0 <= m <= |list| && r == b.(cards := r.cards) && key in r.cards
      && (key !in list ==> r.cards[key] == b.cards[key])
      && (IsFaceupPendulum(b.cards[key]) ==> r.cards[key] == b.cards[key])
      && (forall i :: 0 <= i < m && list[i] == key ==>
            r.cards[key].code == if m - 1 - i < |codes| && codes[m - 1 - i] != 0 then codes[m - 1 - i] else b.cards[key].code)
  {
    var list := ExtraList(b, p);
    var top := |list| - 1 - PendulumCount(b, p);
    ListDistinct(b, Zone(p, Extra), {});
    hide InvLoose, NameFromTop, IsFaceupPendulum;
    if key in list {
      var i :| 0 <= i < |list| && list[i] == key;
      NamedFromTop(b.cards, list, top, codes, i);
      assert FaceupPendulumKey(b.cards, list[i]) <==> top < i;
    } else {
      NotNamed(b.cards, list, top, codes, key);
    }
  }
}
