/**
Short legal runs after which the field is not what its fields are named for. Each run ends at a
message the conditions of `Exactness` and `ExtraExactness` do not hold for.
*/
module BrokenRuns {
  import opened Options
  import opened Board
  import opened Placement
  import opened Evolution
  import opened Updates
  import opened Reloads
  import opened Runs
  import opened Effects
  import opened Exactness
  import opened Faces
  import opened ExtraDeck
  import opened ExtraExactness
  import opened ExtraRuns

  const DECK := Location(In(Deck), false)

  function DeckCard(i: U8): InfoLocation { InfoLocation(First, DECK, i, ANY_POSITION, 0) }

  function DeckPosition(i: U8): CardPosition { CardPosition(First, DECK, i, 0) }

  // ---------- a deck to start from ----------

  lemma RunOne(m: Message)
    requires Legal(Empty(), m)
    ensures LegalRun(Empty(), [m]) && Run(Empty(), [m]) == Step(Empty(), m)
  {
    hide Legal, Step;
    assert [m][1..] == [];
  }

  lemma {:induction false} RunMore(b: Board, ms: seq<Message>, m: Message)
    requires LegalRun(b, ms) && Legal(Run(b, ms), m)
    ensures LegalRun(b, ms + [m]) && Run(b, ms + [m]) == Step(Run(b, ms), m)
    decreases ms
  {
    hide Legal, Step;
    if ms == [] {
      assert ms + [m] == [m] && [m][1..] == [];
    } else {
      assert (ms + [m])[1..] == ms[1..] + [m];
      RunMore(Step(b, ms[0]), ms[1..], m);
    }
  }

  /** After a start with a deck of `n` cards everything still holds. */
  lemma Started(n: U8)
    requires n > 0
    ensures var m := Message.Start(n, 0, 0, 0);
      var b := Step(Empty(), m);
      && Legal(Empty(), m) && LegalRun(Empty(), [m]) && Run(Empty(), [m]) == b
      && Inv(b) && Numbered(b.cards) && EquipsExact(b.cards) && |List(b, Zone(First, Deck))| == n
      && forall i: U8 :: i < n ==> GetInfo(b, DeckCard(i)) == Some(List(b, Zone(First, Deck))[i])
  {
    StartKeeps(n, 0, 0, 0);
    RunOne(Message.Start(n, 0, 0, 0));
    hide InvLoose, Numbered, EquipsExact, StartStep;
  }

  // ---------- swaps ----------

  /** Swapping the bottom card of a deck with the one above it leaves the indices of the cards wrong. */
  lemma SwapBreaks()
    ensures var ms := [Message.Start(2, 0, 0, 0)];
      var b := Run(Empty(), ms);
      LegalRun(Empty(), ms) && Inv(b) && SameList(b, DeckCard(0), DeckCard(1)) && !Inv(Step(b, Message.Swap(DeckCard(0), DeckCard(1))))
  {
    hide InvLoose, SwapStep, Step, GetInfo, EquipsExact, Numbered, Legal, LegalRun, Run;
    Started(2);
    var b := Step(Empty(), Message.Start(2, 0, 0, 0));
    SwapInListExactly(b, DeckCard(0), DeckCard(1));
    SwapIsStep(b, DeckCard(0), DeckCard(1));
  }

  lemma SwapIsStep(b: Board, at1: InfoLocation, at2: InfoLocation)
    ensures Step(b, Message.Swap(at1, at2)) == SwapStep(b, at1, at2)
  {
  }

  // ---------- equips ----------

  lemma DeckKeys(b: Board, i: U8, j: U8)
    requires Inv(b) && i < j < |List(b, Zone(First, Deck))|
    ensures var deck := List(b, Zone(First, Deck)); deck[i] != deck[j] && OnBoard(b, deck[i]) && OnBoard(b, deck[j])
  {
    CellOnBoard(b, Zone(First, Deck), i, List(b, Zone(First, Deck))[i]);
    CellOnBoard(b, Zone(First, Deck), j, List(b, Zone(First, Deck))[j]);
    hide InvLoose;
  }

  /** A card equipped to one card and then reported as equipped to another is still listed by the first. */
  lemma RetargetBreaks()
    ensures var ms := [Message.Start(3, 0, 0, 0), Equip(DeckCard(0), DeckCard(1)), UpdateCard(DeckPosition(0), Some([EquipCard(DeckPosition(2))]))];
      LegalRun(Empty(), ms) && !EquipsExact(Run(Empty(), ms).cards)
  {
    hide InvLoose, EquipStep, StartStep, EquipsExact, Numbered;
    var m1, m2 := Message.Start(3, 0, 0, 0), Equip(DeckCard(0), DeckCard(1));
    var m3 := UpdateCard(DeckPosition(0), Some([EquipCard(DeckPosition(2))]));
    Started(3);
    var b1 := Step(Empty(), m1);
    var b2 := Step(b1, m2);
    DeckKeys(b1, 0, 1);
    DeckKeys(b1, 0, 2);
    DeckKeys(b1, 1, 2);
    RunMore(Empty(), [m1], m2);
    StepKeeps(b1, m2);
    EquipMoves(b1, DeckCard(0), DeckCard(1));
    var deck := List(b1, Zone(First, Deck));
    assert List(b2, Zone(First, Deck)) == deck;
    DeckKeys(b2, 0, 2);
    EquipQueryExactly(b2, deck[0], DeckPosition(2));
    RunMore(Empty(), [m1, m2], m3);
    assert [m1] + [m2] == [m1, m2] && [m1, m2] + [m3] == [m1, m2, m3];
    OneQuery(b2, deck[0], EquipCard(DeckPosition(2)));
  }

  lemma {:induction false} OneQuery(b: Board, key: Key, query: Query)
    ensures ApplyQueries(b, key, [query]) == ApplyQuery(b, key, query)
  {
    hide ApplyQuery;
    assert [query][1..] == [];
  }

  // ---------- materials ----------

  /** Taking the first of two materials out of the duel leaves the second with number one at index zero. */
  lemma MaterialGoneBreaks()
    ensures var material := InfoLocation(First, Location(In(Deck), true), 0, ANY_POSITION, 0);
      var ms := [Message.Start(1, 0, 0, 0), UpdateCard(DeckPosition(0), Some([OverlayCard([1, 2])])), Move(0, material, DeckCard(0).(location := LIMBO))];
      LegalRun(Empty(), ms) && !Numbered(Run(Empty(), ms).cards)
  {
    hide InvLoose, StartStep, EquipsExact, UpdateOverlayCards, MoveStep;
    var material := InfoLocation(First, Location(In(Deck), true), 0, ANY_POSITION, 0);
    var m1, m2 := Message.Start(1, 0, 0, 0), UpdateCard(DeckPosition(0), Some([OverlayCard([1, 2])]));
    var m3 := Move(0, material, DeckCard(0).(location := LIMBO));
    Started(1);
    var b1 := Step(Empty(), m1);
    var deck := List(b1, Zone(First, Deck));
    CellOnBoard(b1, Zone(First, Deck), 0, deck[0]);
    RunMore(Empty(), [m1], m2);
    StepKeeps(b1, m2);
    OneQuery(b1, deck[0], OverlayCard([1, 2]));
    OverlayQueryNames(b1, deck[0], [1, 2]);
    OverlayQueryNumbersExactly(b1, deck[0], [1, 2]);
    UpdateKeepsZones(b1, m2);
    var b2 := Step(b1, m2);
    assert List(b2, Zone(First, Deck)) == deck;
    FirstMaterial(b2, deck[0]);
    RunMore(Empty(), [m1, m2], m3);
    assert [m1] + [m2] == [m1, m2] && [m1, m2] + [m3] == [m1, m2, m3];
    MoveNumbersExactly(b2, 0, material, DeckCard(0).(location := LIMBO));
  }

  lemma FirstMaterial(b: Board, host: Key)
    requires Inv(b) && Numbered(b.cards) && host in b.cards && |b.cards[host].overlayed| == 2
    ensures var o := b.cards[host].overlayed[0];
      o in b.cards && b.cards[o].overlayTarget == Some(host) && b.cards[o].sequence == 0
  {
    MaterialAt(b.cards, host, 0);
  }

  /** More materials than eight bits can number. */
  lemma CrowdBreaks()
    ensures var ms := [Message.Start(1, 0, 0, 0), UpdateCard(DeckPosition(0), Some([OverlayCard(seq(257, _ => 1))]))];
      LegalRun(Empty(), ms) && !Numbered(Run(Empty(), ms).cards)
  {
    hide InvLoose, StartStep, EquipsExact, UpdateOverlayCards, Numbered;
    var codes: seq<U32> := seq(257, _ => 1);
    var m1, m2 := Message.Start(1, 0, 0, 0), UpdateCard(DeckPosition(0), Some([OverlayCard(codes)]));
    Started(1);
    var b1 := Step(Empty(), m1);
    var deck := List(b1, Zone(First, Deck));
    CellOnBoard(b1, Zone(First, Deck), 0, deck[0]);
    RunMore(Empty(), [m1], m2);
    OneQuery(b1, deck[0], OverlayCard(codes));
    OverlayQueryNumbersExactly(b1, deck[0], codes);
    assert [m1] + [m2] == [m1, m2];
  }

  // ---------- the extra deck ----------

  /** A card of the extra deck reported as a face-up pendulum card is not counted. */
  lemma FlipBreaksOrder()
    ensures var at := CardPosition(First, Location(In(Extra), false), 0, 0);
      var ms := [Message.Start(0, 1, 0, 0), UpdateCard(at, Some([Position(FACEUP), Type(PENDULUM)]))];
      LegalRun(Empty(), ms) && Sorted(Run(Empty(), ms[..1])) && !Sorted(Run(Empty(), ms))
  {
    hide InvLoose, Sorted, StartStep;
    var at := CardPosition(First, Location(In(Extra), false), 0, 0);
    var m1, m2 := Message.Start(0, 1, 0, 0), UpdateCard(at, Some([Position(FACEUP), Type(PENDULUM)]));
    StartKeeps(0, 1, 0, 0);
    StartSorted(0, 1, 0, 0);
    RunOne(m1);
    var b1 := Step(Empty(), m1);
    RunMore(Empty(), [m1], m2);
    UpdateSortedExactly(b1, m2);
    TurnsPendulum(b1, at);
    assert [m1] + [m2] == [m1, m2] && [m1, m2][..1] == [m1];
  }

  lemma TurnsPendulum(b: Board, at: CardPosition)
    requires Inv(b) && Sorted(b) && |ExtraList(b, First)| == 1 && PendulumCount(b, First) == 0
    requires at == CardPosition(First, Location(In(Extra), false), 0, 0)
    ensures !KeepsSides(b, UpdateCard(at, Some([Position(FACEUP), Type(PENDULUM)])))
  {
    var key := ExtraList(b, First)[0];
    ExtraLive(b, First, {});
    assert key in ExtraList(b, First);
    assert ExtraSorted(b, First);
    hide InvLoose;
    var queries := [Position(FACEUP), Type(PENDULUM)];
    assert queries[1..] == [Type(PENDULUM)] && queries[1..][1..] == [];
    var f := FaceOf(b.cards[key]);
    assert FaceAfterQueries(f, queries) == FaceAfterQueries(f.(position := FACEUP), [Type(PENDULUM)]);
    LastFace(f.(position := FACEUP), Type(PENDULUM));
    assert FaceupPendulum(Face(f.code, FACEUP, PENDULUM));
  }

  lemma {:induction false} LastFace(f: Face, query: Query)
    ensures FaceAfterQueries(f, [query]) == FaceAfterQuery(f, query)
  {
    assert [query][1..] == [];
    assert FaceAfterQueries(FaceAfterQuery(f, query), []) == FaceAfterQuery(f, query);
  }

  /** A tag swap or a reload that announces a count for an extra deck without face-up pendulum cards. */
  lemma CountBreaksOrder(f: PlayerField)
    requires f.pendulumCount > 0
    ensures LegalRun(Empty(), [TagSwap(First, 0, 1, 0, [], [])]) && !Sorted(Run(Empty(), [TagSwap(First, 0, 1, 0, [], [])]))
    ensures LegalRun(Empty(), [ReloadField(f, f)]) && !Sorted(Run(Empty(), [ReloadField(f, f)]))
  {
    hide InvLoose, Sorted, TagSwapStep, LoadPlayer;
    EmptyIsSorted();
    RunOne(TagSwap(First, 0, 1, 0, [], []));
    TagSwapSortedExactly(Empty(), First, 0, 1, 0, [], []);
    RunOne(ReloadField(f, f));
    ReloadSortedExactly(Empty(), f, f);
  }

  lemma EmptyIsSorted()
    ensures Inv(Empty()) && Sorted(Empty())
  {
    EmptyKeeps();
    PlainSorted(Empty());
  }
}
