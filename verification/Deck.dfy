/** Decks (`ygopro-data/src/data/deck.rs`): loading and checking the sections. */
module Decks {
  import opened Options

  datatype Deck = Deck(main: seq<U32>, side: seq<U32>, extra: seq<U32>)

  type CardType = bv32

  const NO_TYPE: CardType := 0
  const TOKEN: CardType := 0x4000
  const EXTRA_TYPE: CardType := 0x480_2040

  const DECK_MIN := 40
  const DECK_MAX := 60
  const EXTRA_MAX := 15
  const SIDE_MAX := 15

  /** What a card database knows of a code: the card's type, availability and the code it counts as. */
  datatype Card = Card(cardType: CardType, availability: bv8, duelCode: U32)

  type CardDb = U32 -> Option<Card>

  function TypeOf(db: CardDb, code: U32): CardType { if db(code).Some? then db(code).value.cardType else NO_TYPE }

  predicate IsToken(t: CardType) { t & TOKEN == TOKEN }

  predicate IsExtra(t: CardType) { t & EXTRA_TYPE != 0 }

  /** A card a deck may hold: known and no token. */
  predicate IsKept(db: CardDb, code: U32) { db(code).Some? && !IsToken(db(code).value.cardType) }

  predicate GoesExtra(db: CardDb, code: U32) { IsExtra(TypeOf(db, code)) }

  datatype ErrorKind = Lflist | OcgOnly | TcgOnly | UnknownCard | CardCount | MainCount | ExtraCount | SideCount | NotAvailable

  datatype DeckError = DeckError(kind: ErrorKind, code: nat)

  // The filters, as the closures the source passes.

  function Kept(db: CardDb): U32 -> bool { (c: U32) => IsKept(db, c) }

  function Dropped(db: CardDb): U32 -> bool { (c: U32) => !IsKept(db, c) }

  function Extra(db: CardDb): U32 -> bool { (c: U32) => GoesExtra(db, c) }

  function NotExtra(db: CardDb): U32 -> bool { (c: U32) => !GoesExtra(db, c) }

  function KeptExtra(db: CardDb): U32 -> bool { (c: U32) => IsKept(db, c) && GoesExtra(db, c) }

  function KeptMain(db: CardDb): U32 -> bool { (c: U32) => IsKept(db, c) && !GoesExtra(db, c) }

  /** The elements that pass, in order. */
  function Filter(s: seq<U32>, keep: U32 -> bool): (r: seq<U32>)
    ensures |r| <= |s| && forall i :: 0 <= i < |r| ==> r[i] in s && keep(r[i])
  {
    if s == [] then [] else (if keep(s[0]) then [s[0]] else []) + Filter(s[1..], keep)
  }

  lemma {:induction false} FilterAppend(a: seq<U32>, b: seq<U32>, keep: U32 -> bool)
    ensures Filter(a + b, keep) == Filter(a, keep) + Filter(b, keep)
    decreases a
  {
    if a == [] {
      assert a + b == b;
    } else {
      assert (a + b)[1..] == a[1..] + b;
      FilterAppend(a[1..], b, keep);
    }
  }

  lemma FilterOne(s: seq<U32>, i: nat, keep: U32 -> bool)
    requires i < |s|
    ensures Filter(s[..i + 1], keep) == Filter(s[..i], keep) + if keep(s[i]) then [s[i]] else []
  {
    assert s[..i + 1] == s[..i] + [s[i]];
    FilterAppend(s[..i], [s[i]], keep);
    assert Filter([s[i]], keep) == if keep(s[i]) then [s[i]] else [];
  }

  lemma {:induction false} ConsFilter(s: seq<U32>, p: U32 -> bool)
    requires s != []
    ensures multiset(Filter(s, p)) == (if p(s[0]) then multiset{s[0]} else multiset{}) + multiset(Filter(s[1..], p))
  {
    var rest := Filter(s[1..], p);
    if p(s[0]) {
      ConsBag([s[0]] + rest);
      assert ([s[0]] + rest)[1..] == rest;
    } else {
      assert [] + rest == rest;
    }
  }

  /** What passes and what does not is all there is. */
  lemma {:induction false} FilterParts(s: seq<U32>, p: U32 -> bool, q: U32 -> bool)
    requires forall x: U32 :: q(x) <==> !p(x)
    ensures multiset(s) == multiset(Filter(s, p)) + multiset(Filter(s, q))
    decreases s
  {
    if s == [] {
      assert Filter(s, p) == [] && Filter(s, q) == [];
    } else {
      FilterParts(s[1..], p, q);
      ConsFilter(s, p);
      ConsFilter(s, q);
      ConsBag(s);
      hide Filter;
    }
  }

  lemma ConsBag(s: seq<U32>)
    requires s != []
    ensures multiset(s) == multiset{s[0]} + multiset(s[1..])
  {
    assert s == [s[0]] + s[1..];
  }

  lemma {:induction false} FilterTwice(s: seq<U32>, p: U32 -> bool, q: U32 -> bool, both: U32 -> bool)
    requires forall x: U32 :: both(x) <==> p(x) && q(x)
    ensures Filter(Filter(s, p), q) == Filter(s, both)
    decreases s
  {
    if s != [] {
      FilterTwice(s[1..], p, q, both);
      if p(s[0]) {
        FilterAppend([s[0]], Filter(s[1..], p), q);
        assert Filter([s[0]], q) == if q(s[0]) then [s[0]] else [];
      } else {
        assert [] + Filter(s[1..], p) == Filter(s[1..], p);
      }
    }
  }

  function Take<T>(s: seq<T>, n: int): seq<T> { if n <= 0 then [] else if |s| < n then s else s[..n] }

  lemma TakeOne<T>(s: seq<T>, x: T, n: int)
    ensures Take(s + [x], n) == Take(s, n) + if |s| < n then [x] else []
  {
  }

  lemma TakeLength<T>(s: seq<T>, n: int)
    ensures |Take(s, n)| == if n <= 0 then 0 else if |s| < n then |s| else n
  {
  }

  lemma TakeNone<T>(n: int)
    ensures Take<T>([], n) == []
  {
  }

  /** The last code that does not pass, the one an error reports. */
  function LastRemoved(s: seq<U32>, keep: U32 -> bool): Option<U32>
    decreases |s|
  {
    if s == [] then None else if !keep(s[|s| - 1]) then Some(s[|s| - 1]) else LastRemoved(s[..|s| - 1], keep)
  }

  lemma {:induction false} LastRemovedIs(s: seq<U32>, keep: U32 -> bool)
    ensures LastRemoved(s, keep).None? <==> forall i :: 0 <= i < |s| ==> keep(s[i])
    ensures LastRemoved(s, keep).Some? <==>
      exists i :: 0 <= i < |s| && LastRemoved(s, keep) == Some(s[i]) && !keep(s[i]) && forall j :: i < j < |s| ==> keep(s[j])
    decreases s
  {
    if s != [] {
      var n := |s| - 1;
      LastRemovedIs(s[..n], keep);
      if keep(s[n]) && LastRemoved(s[..n], keep).Some? {
        var i :| 0 <= i < n && LastRemoved(s[..n], keep) == Some(s[..n][i]) && !keep(s[..n][i]) && forall j :: i < j < n ==> keep(s[..n][j]);
        forall j | i < j < n ensures keep(s[j]) { assert s[..n][j] == s[j]; }
        assert s[i] == s[..n][i];
      }
    }
  }

  // ---------- loading ----------

  /** The main deck keeps what is no extra deck card; the extra deck takes those, up to fifteen cards in all. */
  function Separated(db: CardDb, d: Deck): Deck {
    d.(main := Filter(d.main, NotExtra(db)),
       extra := d.extra + Take(Filter(d.main, Extra(db)), EXTRA_MAX - |d.extra|))
  }

  function Cleaned(db: CardDb, d: Deck): Deck {
    d.(main := Filter(d.main, Kept(db)), side := Filter(d.side, Kept(db)))
  }

  function Loaded(db: CardDb, d: Deck): Deck { Separated(db, Cleaned(db, d)) }

  function LoadError(db: CardDb, d: Deck): Option<U32> {
    var main := LastRemoved(d.main, Kept(db));
    if main.Some? then main else LastRemoved(d.side, Kept(db))
  }

  /**
  The code that loading reports is that of the last unknown card or token of the main deck, or of the side deck if
  the main deck has none.
  */
  lemma LoadReports(db: CardDb, d: Deck)
    ensures LoadError(db, d).None? <==> forall c :: c in d.main + d.side ==> db(c).Some? && db(c).value.cardType & 0x4000 == 0
    ensures LoadError(db, d).Some? ==>
      var s := if exists c :: c in d.main && IsLost(db, c) then d.main else d.side;
      exists i :: 0 <= i < |s| && LoadError(db, d) == Some(s[i]) && IsLost(db, s[i]) && forall j :: i < j < |s| ==> !IsLost(db, s[j])
  {
    LastRemovedIs(d.main, Kept(db));
    LastRemovedIs(d.side, Kept(db));
    hide LastRemoved;
    forall c: U32 ensures IsLost(db, c) <==> !Kept(db)(c) { }
    assert forall c :: c in d.main + d.side <==> c in d.main || c in d.side;
    if forall c :: c in d.main + d.side ==> !IsLost(db, c) {
      forall i | 0 <= i < |d.main| ensures Kept(db)(d.main[i]) { assert d.main[i] in d.main + d.side; }
      forall i | 0 <= i < |d.side| ensures Kept(db)(d.side[i]) { assert d.side[i] in d.main + d.side; }
    }
    if exists c :: c in d.main && IsLost(db, c) {
      var c :| c in d.main && IsLost(db, c);
      var i :| 0 <= i < |d.main| && d.main[i] == c;
      assert !Kept(db)(d.main[i]);
    }
  }

  /** Nothing a deck may hold: unknown, or a token. */
  ghost predicate IsLost(db: CardDb, code: U32) { db(code).Some? ==> db(code).value.cardType & 0x4000 != 0 }

  class PlayerDeck {
    var main: seq<U32>
    var side: seq<U32>
    var extra: seq<U32>

    constructor (d: Deck)
      ensures View() == d
    {
      main, side, extra := d.main, d.side, d.extra;
    }

    function View(): Deck
      reads this
    {
      Deck(main, side, extra)
    }

    /** Drops unknown and token cards from a section and reports the last one dropped. */
    static method RemoveUnknownCards(cards: seq<U32>, db: CardDb) returns (kept: seq<U32>, removed: Option<U32>)
      ensures kept == Filter(cards, Kept(db)) && removed == LastRemoved(cards, Kept(db))
    {
      kept, removed := [], None;
      for i := 0 to |cards|
        invariant kept == Filter(cards[..i], Kept(db)) && removed == LastRemoved(cards[..i], Kept(db))
      {
        FilterOne(cards, i, Kept(db));
        assert cards[..i + 1][..i] == cards[..i];
        if IsKept(db, cards[i]) {
          kept := kept + [cards[i]];
        } else {
          removed := Some(cards[i]);
        }
      }
      assert cards[..|cards|] == cards;
    }

    method Separate(db: CardDb)
      modifies this
      ensures View() == Separated(db, old(View()))
    {
      hide Filter, Take;
      TakeNone<U32>(EXTRA_MAX - |extra|);
      var kept: seq<U32> := [];
      ghost var moved: seq<U32> := [];
      for i := 0 to |main|
        invariant main == old(main) && side == old(side)
        invariant kept == Filter(main[..i], NotExtra(db))
        invariant extra == old(extra) + moved && moved == Take(Filter(main[..i], Extra(db)), EXTRA_MAX - |old(extra)|)
      {
        assert Filter(main[..i], Extra(db)) + [] == Filter(main[..i], Extra(db)) && moved + [] == moved;
        assert kept + [] == kept;
        FilterOne(main, i, NotExtra(db));
        FilterOne(main, i, Extra(db));
        TakeOne(Filter(main[..i], Extra(db)), main[i], EXTRA_MAX - |old(extra)|);
        if GoesExtra(db, main[i]) {
          TakeLength(Filter(main[..i], Extra(db)), EXTRA_MAX - |old(extra)|);
          if |extra| < EXTRA_MAX {
            extra := extra + [main[i]];
            moved := moved + [main[i]];
          }
        } else {
          kept := kept + [main[i]];
        }
      }
      assert main[..|main|] == main;
      main := kept;
    }

    method Load(db: CardDb) returns (removed: Option<U32>)
      modifies this
      ensures View() == Loaded(db, old(View())) && removed == LoadError(db, old(View()))
    {
      var fromMain, fromSide: Option<U32>;
      main, fromMain := RemoveUnknownCards(main, db);
      side, fromSide := RemoveUnknownCards(side, db);
      Separate(db);
      removed := if fromMain.Some? then fromMain else fromSide;
    }
  }

  // ---------- the checks ----------

  function CheckLength(d: Deck): Option<DeckError> {
    if |d.main| < DECK_MIN || |d.main| > DECK_MAX then Some(DeckError(MainCount, |d.main|))
    else if |d.extra| > EXTRA_MAX then Some(DeckError(ExtraCount, |d.extra|))
    else if |d.side| > SIDE_MAX then Some(DeckError(SideCount, |d.side|))
    else None
  }

  /** The main deck is counted first, then the extra deck, then the side deck; the report says how many there were. */
  lemma LengthReports(d: Deck)
    ensures 40 <= |d.main| <= 60 && |d.extra| <= 15 && |d.side| <= 15 ==> CheckLength(d) == None
    ensures |d.main| < 40 || 60 < |d.main| ==> CheckLength(d) == Some(DeckError(MainCount, |d.main|))
    ensures 40 <= |d.main| <= 60 && 15 < |d.extra| ==> CheckLength(d) == Some(DeckError(ExtraCount, |d.extra|))
    ensures 40 <= |d.main| <= 60 && |d.extra| <= 15 < |d.side| ==> CheckLength(d) == Some(DeckError(SideCount, |d.side|))
  {
  }

  predicate BelongsInMain(db: CardDb, code: U32) { !IsToken(TypeOf(db, code)) && !IsExtra(TypeOf(db, code)) }

  predicate BelongsInSide(db: CardDb, code: U32) { !IsToken(TypeOf(db, code)) }

  predicate BelongsInExtra(db: CardDb, code: U32) { !IsToken(TypeOf(db, code)) && IsExtra(TypeOf(db, code)) }

  function CheckIllegal(db: CardDb, d: Deck): Option<DeckError> {
    if exists c :: c in d.main && !BelongsInMain(db, c) then Some(DeckError(MainCount, 0))
    else if exists c :: c in d.side && !BelongsInSide(db, c) then Some(DeckError(SideCount, 0))
    else if exists c :: c in d.extra && !BelongsInExtra(db, c) then Some(DeckError(ExtraCount, 0))
    else None
  }

  /** The first section with a card that does not belong there is reported, main before side before extra, without a code. */
  lemma IllegalReports(db: CardDb, d: Deck)
    ensures var main := exists c :: c in d.main && db(c).Some? && (db(c).value.cardType & 0x4000 != 0 || db(c).value.cardType & 0x480_2040 != 0);
      var side := exists c :: c in d.side && db(c).Some? && db(c).value.cardType & 0x4000 != 0;
      var extra := exists c :: c in d.extra && (db(c).Some? ==> db(c).value.cardType & 0x4000 != 0 || db(c).value.cardType & 0x480_2040 == 0);
      CheckIllegal(db, d) == (
        if main then Some(DeckError(MainCount, 0)) else if side then Some(DeckError(SideCount, 0))
        else if extra then Some(DeckError(ExtraCount, 0)) else None)
  {
    forall c: U32 ensures BelongsInMain(db, c) <==> !(db(c).Some? && (db(c).value.cardType & 0x4000 != 0 || db(c).value.cardType & 0x480_2040 != 0)) {
      MisplacedMeans(db, c);
    }
    forall c: U32 ensures BelongsInSide(db, c) <==> !(db(c).Some? && db(c).value.cardType & 0x4000 != 0) { MisplacedMeans(db, c); }
    forall c: U32
      ensures BelongsInExtra(db, c) <==> !(db(c).Some? ==> db(c).value.cardType & 0x4000 != 0 || db(c).value.cardType & 0x480_2040 == 0)
    {
      MisplacedMeans(db, c);
    }
    hide BelongsInMain, BelongsInSide, BelongsInExtra;
  }

  lemma MisplacedMeans(db: CardDb, c: U32)
    ensures BelongsInMain(db, c) <==> (db(c).Some? ==> db(c).value.cardType & 0x4000 == 0 && db(c).value.cardType & 0x480_2040 == 0)
    ensures BelongsInSide(db, c) <==> (db(c).Some? ==> db(c).value.cardType & 0x4000 == 0)
    ensures BelongsInExtra(db, c) <==> db(c).Some? && db(c).value.cardType & 0x4000 == 0 && db(c).value.cardType & 0x480_2040 != 0
  {
  }

  method CheckIllegalCards(db: CardDb, d: Deck) returns (error: Option<DeckError>)
    ensures error == CheckIllegal(db, d)
  {
    for i := 0 to |d.main|
      invariant forall c :: c in d.main[..i] ==> BelongsInMain(db, c)
    {
      assert d.main[i] in d.main && d.main[..i + 1] == d.main[..i] + [d.main[i]];
      if !BelongsInMain(db, d.main[i]) { return Some(DeckError(MainCount, 0)); }
    }
    assert d.main[..|d.main|] == d.main;
    for i := 0 to |d.side|
      invariant forall c :: c in d.side[..i] ==> BelongsInSide(db, c)
    {
      assert d.side[i] in d.side && d.side[..i + 1] == d.side[..i] + [d.side[i]];
      if !BelongsInSide(db, d.side[i]) { return Some(DeckError(SideCount, 0)); }
    }
    assert d.side[..|d.side|] == d.side;
    for i := 0 to |d.extra|
      invariant forall c :: c in d.extra[..i] ==> BelongsInExtra(db, c)
    {
      assert d.extra[i] in d.extra && d.extra[..i + 1] == d.extra[..i] + [d.extra[i]];
      if !BelongsInExtra(db, d.extra[i]) { return Some(DeckError(ExtraCount, 0)); }
    }
    assert d.extra[..|d.extra|] == d.extra;
    error := None;
  }

  /**
  After loading, the illegal-card check succeeds if and only if the extra deck the deck arrived with held extra deck
  cards only, and the extra deck is too long only if it arrived too long; so a deck that arrives with an empty extra
  deck always passes and never counts too many.
  */
  lemma LoadedIsLegal(db: CardDb, d: Deck)
    ensures CheckIllegal(db, Loaded(db, d)).None? <==> forall c :: c in d.extra ==> BelongsInExtra(db, c)
    ensures |Loaded(db, d).extra| > EXTRA_MAX <==> |d.extra| > EXTRA_MAX
    ensures d.extra == [] ==> CheckIllegal(db, Loaded(db, d)).None?
    ensures d.extra == [] ==> CheckLength(Loaded(db, d)).None? || CheckLength(Loaded(db, d)).value.kind != ExtraCount
  {
    hide Filter;
    var r := Loaded(db, d);
    var kept := Cleaned(db, d).main;
    forall c | c in r.main ensures BelongsInMain(db, c) { KeptIsKept(db, d.main, c); }
    forall c | c in r.side ensures BelongsInSide(db, c) { KeptIsKept(db, d.side, c); }
    var moved := Take(Filter(kept, Extra(db)), EXTRA_MAX - |d.extra|);
    forall c | c in moved ensures BelongsInExtra(db, c) { KeptIsKept(db, d.main, c); }
    assert r.extra == d.extra + moved;
    forall c | c in d.extra ensures c in r.extra {
      var i :| 0 <= i < |d.extra| && d.extra[i] == c;
      assert r.extra[i] == c;
    }
    assert forall c :: c in r.extra ==> c in d.extra || c in moved;
  }

  lemma {:induction false} KeptIsKept(db: CardDb, s: seq<U32>, c: U32)
    ensures c in Filter(s, Kept(db)) ==> IsKept(db, c)
  {
  }

  /** Where the cards of a deck without an extra deck go; each section keeps the order of its cards. */
  lemma LoadedSections(db: CardDb, d: Deck)
    requires d.extra == []
    ensures var r := Loaded(db, d);
      && r.main == Filter(d.main, KeptMain(db))
      && r.extra == Take(Filter(d.main, KeptExtra(db)), EXTRA_MAX)
      && r.side == Filter(d.side, Kept(db))
  {
    hide Filter, Take;
    FilterTwice(d.main, Kept(db), Extra(db), KeptExtra(db));
    FilterTwice(d.main, Kept(db), NotExtra(db), KeptMain(db));
    assert [] + Take(Filter(d.main, KeptExtra(db)), EXTRA_MAX) == Take(Filter(d.main, KeptExtra(db)), EXTRA_MAX);
  }

  /** Loading loses unknown cards, tokens and extra deck cards beyond the fifteenth, and nothing else. */
  lemma LoadKeepsTheRest(db: CardDb, d: Deck)
    requires d.extra == []
    ensures var r := Loaded(db, d);
      var extras := Filter(d.main, KeptExtra(db));
      && r.extra <= extras && (|extras| <= EXTRA_MAX ==> r.extra == extras)
      && multiset(d.main) == multiset(r.main) + multiset(r.extra) + multiset(extras[|r.extra|..]) + multiset(Filter(d.main, Dropped(db)))
      && multiset(d.side) == multiset(r.side) + multiset(Filter(d.side, Dropped(db)))
  {
    hide Filter, Loaded, Take;
    LoadedSections(db, d);
    FilterParts(d.main, Kept(db), Dropped(db));
    FilterParts(d.side, Kept(db), Dropped(db));
    SplitKept(db, d.main);
    var extras := Filter(d.main, KeptExtra(db));
    TakeSplits(extras, EXTRA_MAX);
  }

  lemma {:induction false} SplitKept(db: CardDb, s: seq<U32>)
    ensures multiset(Filter(s, Kept(db))) == multiset(Filter(s, KeptExtra(db))) + multiset(Filter(s, KeptMain(db)))
  {
    FilterTwice(s, Kept(db), Extra(db), KeptExtra(db));
    FilterTwice(s, Kept(db), NotExtra(db), KeptMain(db));
    FilterParts(Filter(s, Kept(db)), Extra(db), NotExtra(db));
  }

  lemma TakeSplits(s: seq<U32>, n: nat)
    ensures var t := Take(s, n);
      && t <= s && (|s| <= n ==> t == s) && multiset(s) == multiset(t) + multiset(s[|t|..])
  {
    var t := Take(s, n);
    assert s == t + s[|t|..];
  }
}
