/** What holds of the field after every legal run of messages. */
module Runs {
  import opened Options
  import opened Board
  import opened Placement
  import opened Evolution
  import opened Moves
  import opened Updates
  import opened Deals
  import opened Reloads
  import opened SetCards

  /** No record re-targets a card that is equipped elsewhere. */
  ghost predicate EquipSafe(b: Board, m: Message) {
    match m
    case UpdateData(p, location, infos) => EquipSafeZone(b, p, location, infos, 0)
    case UpdateCard(at, info) =>
      var key := GetCard(b, at.controller, at.location, at.sequence, 0);
      key.Some? ==> EquipSafeInfo(b, key.value, info)
    case _ => true
  }

  /** No material moves straight out of the duel, and no host holds more than 256 materials. */
  ghost predicate NumberSafe(b: Board, m: Message) {
    match m
    case UpdateData(_, _, infos) => forall j :: 0 <= j < |infos| ==> NumberSafeInfo(infos[j])
    case UpdateCard(_, info) => NumberSafeInfo(info)
    case Move(_, previous, current) => NumberSafeMove(b, previous, current)
    case _ => true
  }

  /** Every legal message keeps the invariant. */
  lemma StepKeeps(b: Board, m: Message)
    requires Inv(b) && Legal(b, m)
    ensures Inv(Step(b, m))
    ensures EquipSafe(b, m) ==> StaysEquipped(b.cards, Step(b, m).cards)
    ensures NumberSafe(b, m) ==> StaysNumbered(b.cards, Step(b, m).cards)
  {
    hide InvLoose, Numbered, EquipsExact, LegalShuffle, LegalMove, OccupiedSlot, ExtraTypes, LegalInfo;
    hide StartStep, UpdateZone, UpdateCardInfo, SwapGraveDeckStep, ShuffleSetCardStep, ReverseDeckOf, ConfirmExtraTopStep;
    hide MoveStep, PositionChangeStep, SwapStep, FlipStep, DrawStep, EquipStep, UnequipStep, TargetStep, TagSwapStep, LoadPlayer;
    hide EquipSafeZone, EquipSafeInfo, NumberSafeInfo, NumberSafeMove, GetCard;
    match m {
      case Start(deck1, extra1, deck2, extra2) => StartKeeps(deck1, extra1, deck2, extra2);
      case UpdateData(p, location, infos) => UpdateZoneKeeps(b, p, location, infos, 0);
      case UpdateCard(at, info) =>
        var key := GetCard(b, at.controller, at.location, at.sequence, 0);
        if key.Some? { UpdateCardInfoKeeps(b, at.controller, at.location, at.sequence, key.value, info); }
      case SwapGraveDeck(p) => SwapGraveDeckKeeps(b, p);
      case ShuffleSetCard(where, olds, news) =>
        var p :| LegalShuffle(b, ShuffleKind(where), p, olds, news);
        ShuffleLands(b, where, p, olds, news);
      case ReverseDeck => ReverseDecksKeep(b);
      case ConfirmExtraTop(p, codes) => ConfirmExtraTopKeeps(b, p, codes);
      case Move(code, previous, current) => MoveKeeps(b, code, previous, current);
      case PositionChange(code, at, before, after) => PositionChangeKeeps(b, code, at, before, after);
      case Swap(at1, at2) => SwapKeeps(b, at1, at2);
      case FlipSummoning(code, at) => FlipKeeps(b, code, at);
      case Draw(p, codes) => DrawKeeps(b, p, codes);
      case Equip(at1, at2) => EquipStepKeeps(b, at1, at2);
      case Unequip(at) => UnequipKeeps(b, at);
      case CardTarget(at1, at2) => TargetStepKeeps(b, at1, at2, true);
      case CancelTarget(at1, at2) => TargetStepKeeps(b, at1, at2, false);
      case TagSwap(p, mainCount, pendulumCount, topCode, hand, extra) =>
        TagSwapKeeps(b, p, mainCount, pendulumCount, topCode, hand, extra);
      case ReloadField(player1, player2) => ReloadKeeps(player1, player2);
    }
  }

  lemma {:induction false} RunKeeps(b: Board, ms: seq<Message>)
    requires Inv(b) && LegalRun(b, ms)
    ensures Inv(Run(b, ms))
    decreases ms
  {
    hide InvLoose, Legal, Step;
    if ms != [] {
      StepKeeps(b, ms[0]);
      RunKeeps(Step(b, ms[0]), ms[1..]);
    }
  }

  // ---------- every card in exactly one place ----------

  datatype Spot = InZone(z: Zone, i: nat) | Under(host: Key, i: nat)

  /** The key stored at a spot of the board. */
  function Holds(b: Board, spot: Spot): Option<Key> {
    match spot
    case InZone(z, i) => Cell(b, z, i)
    case Under(host, i) => Material(b.cards, Some(host), i)
  }

  /** On every legal run each live card lies on exactly one spot, and every spot that is taken holds a live card. */
  lemma {:induction false} EachCardOnce(ms: seq<Message>, key: Key)
    requires LegalRun(Empty(), ms)
    ensures var b := Run(Empty(), ms);
      && (key in b.cards <==> exists spot :: Holds(b, spot) == Some(key))
      && (forall s, t :: Holds(b, s) == Some(key) && Holds(b, t) == Some(key) ==> s == t)
  {
    EmptyKeeps();
    RunKeeps(Empty(), ms);
    var b := Run(Empty(), ms);
    hide Run, LegalRun;
    if key in b.cards { HasSpot(b, key); }
    forall s | Holds(b, s) == Some(key) ensures key in b.cards { SpotIsLive(b, s, key); }
    forall s, t | Holds(b, s) == Some(key) && Holds(b, t) == Some(key) ensures s == t { OneSpot(b, s, t, key); }
  }

  lemma HasSpot(b: Board, key: Key)
    requires Inv(b) && key in b.cards
    ensures exists spot :: Holds(b, spot) == Some(key)
  {
    var c := b.cards[key];
    if c.overlayTarget.None? {
      assert Housed(b.cards, b.zones, key);
      assert Holds(b, InZone(Zone(c.controller.value, c.location.base.kind), c.sequence)) == Some(key);
    } else {
      var h := c.overlayTarget.value;
      assert key in b.cards[h].overlayed;
      var i :| 0 <= i < |b.cards[h].overlayed| && b.cards[h].overlayed[i] == key;
      assert Holds(b, Under(h, i)) == Some(key);
    }
  }

  lemma SpotIsLive(b: Board, spot: Spot, key: Key)
    requires Inv(b) && Holds(b, spot) == Some(key)
    ensures key in b.cards
    ensures spot.InZone? ==> At(b.cards[key], spot.z, spot.i)
    ensures spot.Under? ==> IsMaterial(b.cards, key, spot.host)
  {
  }

  lemma OneSpot(b: Board, s: Spot, t: Spot, key: Key)
    requires Inv(b) && Holds(b, s) == Some(key) && Holds(b, t) == Some(key)
    ensures s == t
  {
    SpotIsLive(b, s, key);
    SpotIsLive(b, t, key);
    if s.Under? && t.Under? { assert Distinct(b.cards[s.host].overlayed); }
  }

  /** On every legal run a card in a zone is found by its own stored address, and is no material. */
  lemma {:induction false} OwnAddress(ms: seq<Message>, z: Zone, i: nat)
    requires LegalRun(Empty(), ms) && Cell(Run(Empty(), ms), z, i).Some?
    ensures var b := Run(Empty(), ms);
      var key := Cell(b, z, i).value;
      && key in b.cards && b.cards[key].overlayTarget.None?
      && b.cards[key].controller == Some(z.player) && b.cards[key].location == Location(In(z.kind), false)
      && b.cards[key].sequence == i
      && GetCard(b, z.player, b.cards[key].location, b.cards[key].sequence, 0) == Some(key)
  {
    EmptyKeeps();
    RunKeeps(Empty(), ms);
    assert At(Run(Empty(), ms).cards[Cell(Run(Empty(), ms), z, i).value], z, i);
    hide Run, LegalRun;
  }

  /** On every legal run the three pointer relations are converse and mention live cards only. */
  lemma {:induction false} RelationsMatch(ms: seq<Message>)
    requires LegalRun(Empty(), ms)
    ensures var cards := Run(Empty(), ms).cards;
      && (forall a, c :: a in cards && c in cards[a].cardTarget ==> c in cards && a in cards[c].ownerTarget)
      && (forall a, c :: c in cards && a in cards[c].ownerTarget ==> a in cards && c in cards[a].cardTarget)
      && (forall h, o :: h in cards && o in cards[h].overlayed ==> o in cards && cards[o].overlayTarget == Some(h))
      && (forall o :: o in cards && cards[o].overlayTarget.Some? ==>
            cards[o].overlayTarget.value in cards && o in cards[cards[o].overlayTarget.value].overlayed)
      && (forall a :: a in cards && cards[a].equipTarget.Some? ==>
            cards[a].equipTarget.value in cards && a in cards[cards[a].equipTarget.value].equipped)
  {
    EmptyKeeps();
    RunKeeps(Empty(), ms);
    var cards := Run(Empty(), ms).cards;
    hide Run, LegalRun;
    TargetsMatch(cards);
    OverlaysMatch(cards);
    EquipsMatch(cards);
  }

  lemma TargetsMatch(cards: Arena)
    requires Targets(cards)
    ensures forall a, c :: a in cards && c in cards[a].cardTarget ==> c in cards && a in cards[c].ownerTarget
    ensures forall a, c :: c in cards && a in cards[c].ownerTarget ==> a in cards && c in cards[a].cardTarget
  {
  }

  lemma OverlaysMatch(cards: Arena)
    requires Overlays(cards)
    ensures forall h, o :: h in cards && o in cards[h].overlayed ==> o in cards && cards[o].overlayTarget == Some(h)
    ensures forall o :: o in cards && cards[o].overlayTarget.Some? ==>
      cards[o].overlayTarget.value in cards && o in cards[cards[o].overlayTarget.value].overlayed
  {
    forall h, o | h in cards && o in cards[h].overlayed ensures IsMaterial(cards, o, h) {
      var i :| 0 <= i < |cards[h].overlayed| && cards[h].overlayed[i] == o;
    }
  }

  lemma EquipsMatch(cards: Arena)
    requires Equips(cards)
    ensures forall a :: a in cards && cards[a].equipTarget.Some? ==>
      cards[a].equipTarget.value in cards && a in cards[cards[a].equipTarget.value].equipped
  {
  }

  // ---------- conservation ----------

  /** Messages that only rearrange cards. */
  predicate Rearranges(m: Message) {
    match m
    case Move(_, previous, current) => previous.location != LIMBO && current.location != LIMBO
    case SwapGraveDeck(_) => true
    case ShuffleSetCard(_, _, _) => true
    case ReverseDeck => true
    case ConfirmExtraTop(_, _) => true
    case PositionChange(_, _, _, _) => true
    case Swap(_, _) => true
    case FlipSummoning(_, _) => true
    case Draw(_, _) => true
    case Equip(_, _) => true
    case Unequip(_) => true
    case CardTarget(_, _) => true
    case CancelTarget(_, _) => true
    case _ => false
  }

  /**
  Cards are conserved: a message that only rearranges neither creates nor destroys one, a move out of Limbo
  creates exactly one, and a move into Limbo destroys exactly the card it addresses with its materials.
  */
  lemma CardsConserved(b: Board, m: Message)
    requires Inv(b) && Legal(b, m)
    ensures Rearranges(m) ==> Step(b, m).cards.Keys == b.cards.Keys
    ensures m.Move? && m.previous.location == LIMBO ==>
      b.next !in b.cards && Step(b, m).cards.Keys == b.cards.Keys + {b.next}
    ensures m.Move? && m.previous.location != LIMBO && m.current.location == LIMBO && GetInfo(b, m.previous).Some? ==>
      var key := GetInfo(b, m.previous).value;
      key in b.cards && Step(b, m).cards.Keys == b.cards.Keys - {key} - KeysOf(b.cards[key].overlayed)
  {
    hide InvLoose, Numbered, EquipsExact, LegalShuffle, OccupiedSlot, ExtraTypes, Room, Bare;
    hide SwapGraveDeckStep, ShuffleSetCardStep, ReverseDeckOf, ConfirmExtraTopStep, GetCard;
    hide MoveIn, MoveOut, MoveAcross, MoveUnder, MoveFromUnder, MoveBetween;
    hide PositionChangeStep, SwapStep, FlipStep, DrawStep, EquipStep, UnequipStep, TargetStep;
    match m {
      case SwapGraveDeck(p) => SwapGraveDeckKeeps(b, p);
      case ShuffleSetCard(where, olds, news) =>
        var p :| LegalShuffle(b, ShuffleKind(where), p, olds, news);
        ShuffleLands(b, where, p, olds, news);
      case ReverseDeck => ReverseDecksKeep(b);
      case ConfirmExtraTop(p, codes) => ConfirmExtraTopKeeps(b, p, codes);
      case Move(code, previous, current) =>
        if previous.location == LIMBO {
          MoveInKeeps(b, code, current);
        } else if current.location == LIMBO {
          MoveOutKeeps(b, code, previous);
        } else if !previous.location.overlay && !current.location.overlay {
          MoveAcrossKeeps(b, code, previous, current);
        } else if !previous.location.overlay {
          MoveUnderKeeps(b, code, previous, current);
        } else if !current.location.overlay {
          MoveFromUnderKeeps(b, previous, current);
        } else {
          MoveBetweenKeeps(b, previous, current);
        }
      case PositionChange(code, at, before, after) => PositionChangeKeeps(b, code, at, before, after);
      case Swap(at1, at2) => SwapKeeps(b, at1, at2);
      case FlipSummoning(code, at) => FlipKeeps(b, code, at);
      case Draw(p, codes) => DrawKeeps(b, p, codes);
      case Equip(at1, at2) => EquipStepKeeps(b, at1, at2);
      case Unequip(at) => UnequipKeeps(b, at);
      case CardTarget(at1, at2) => TargetStepKeeps(b, at1, at2, true);
      case CancelTarget(at1, at2) => TargetStepKeeps(b, at1, at2, false);
      case _ =>
    }
  }

  // ---------- the two conditional properties ----------

  ghost predicate EquipSafeRun(b: Board, ms: seq<Message>)
    decreases ms
  {
    ms == [] || (Legal(b, ms[0]) && EquipSafe(b, ms[0]) && EquipSafeRun(Step(b, ms[0]), ms[1..]))
  }

  ghost predicate NumberSafeRun(b: Board, ms: seq<Message>)
    decreases ms
  {
    ms == [] || (Legal(b, ms[0]) && NumberSafe(b, ms[0]) && NumberSafeRun(Step(b, ms[0]), ms[1..]))
  }

  lemma {:induction false} RunStaysEquipped(b: Board, ms: seq<Message>)
    requires Inv(b) && EquipSafeRun(b, ms) && EquipsExact(b.cards)
    ensures EquipsExact(Run(b, ms).cards)
    decreases ms
  {
    hide InvLoose, Legal, Step, EquipSafe, EquipsExact;
    if ms != [] {
      StepKeeps(b, ms[0]);
      RunStaysEquipped(Step(b, ms[0]), ms[1..]);
    }
  }

  lemma {:induction false} RunStaysNumbered(b: Board, ms: seq<Message>)
    requires Inv(b) && NumberSafeRun(b, ms) && Numbered(b.cards)
    ensures Numbered(Run(b, ms).cards)
    decreases ms
  {
    hide InvLoose, Legal, Step, NumberSafe, Numbered;
    if ms != [] {
      StepKeeps(b, ms[0]);
      RunStaysNumbered(Step(b, ms[0]), ms[1..]);
    }
  }

  /** If no query re-targets an equipped card, whatever is listed as equipped is live and equipped to its lister. */
  lemma {:induction false} EquippedMeansEquipped(ms: seq<Message>, t: Key, a: Key)
    requires EquipSafeRun(Empty(), ms)
    ensures var cards := Run(Empty(), ms).cards;
      t in cards && a in cards[t].equipped ==> a in cards && cards[a].equipTarget == Some(t)
  {
    EmptyKeeps();
    RunStaysEquipped(Empty(), ms);
  }

  /** If no material moves straight into Limbo, every material is numbered by its index under its host. */
  lemma {:induction false} MaterialsNumbered(ms: seq<Message>, h: Key, i: nat)
    requires NumberSafeRun(Empty(), ms)
    ensures var cards := Run(Empty(), ms).cards;
      h in cards && i < |cards[h].overlayed| ==>
        cards[h].overlayed[i] in cards && cards[cards[h].overlayed[i]].sequence == i
  {
    EmptyKeeps();
    RunStaysNumbered(Empty(), ms);
  }
}
