/** A player's answer to a prompt, on the wire (`ygopro-data/src/data/response.rs`). */
module Response {
  // The bytes of an answer only mean something together with the prompt; the codecs here are shown
  // to be inverse exactly where that is so.

  import opened Options
  import opened Wire

  // Enumerations with a fixed wire representation.
  type IdleCommand = x: U16 | x <= 8
  type BattleCommand = x: U16 | x <= 3

  const FIRST_ATTACK_PLAYER: CorePlayer := 0
  const LIMBO: U8 := 0
  const MINUS_ONE: Bytes := [0xff, 0xff, 0xff, 0xff]

  datatype Response =
    | Cancel
    | SelectIdleCommand(idle: IdleCommand, card: U16)
    | SelectBattleCommand(battle: BattleCommand, card: U16)
    | SelectYesNo(yes: bool)
    | SelectOption(index: U8)
    | SelectChain(index: U8)
    | DeclineChain
    | SelectPosition(position: U8)
    | SelectCards(cards: seq<U16>)
    | SelectUnselectCards(card: U16)
    | SelectTribute(cards: seq<U16>)
    | SelectSum(cards: seq<U16>)
    | SelectCounter(counts: seq<U16>)
    | SelectPlace(player: CorePlayer, location: U8, sequence: U8)
    | DeclinePlace
    | SortCards(order: seq<U16>)
    | KeepCardOrder
    | AnnounceRace(races: U32)
    | AnnounceAttribute(attributes: U32)
    | AnnounceCard(code: U32)
    | Unknown(raw: Bytes)

  /** The message types that prompt for an answer, and all others. */
  datatype Prompt =
    | IdleCommandPrompt | BattleCommandPrompt | EffectYesNoPrompt | YesNoPrompt | OptionPrompt | NumberPrompt
    | PositionPrompt | CounterPrompt | RacePrompt | AttributePrompt | CardNamePrompt | ChainPrompt | CardPrompt
    | UnselectCardPrompt | TributePrompt | SumPrompt | PlacePrompt | DisableFieldPrompt | SortPrompt | NoPrompt

  datatype Parsed = Ok(response: Response) | Err(error: Error)

  // ---------- writing ----------

  function Counted(list: seq<U16>): Bytes { [|list| % 0x100] + Words16(list) }

  function Encode(r: Response): Bytes {
    match r
    case Cancel => MINUS_ONE
    case SelectIdleCommand(command, card) => Le16(command) + Le16(card)
    case SelectBattleCommand(command, card) => Le16(command) + Le16(card)
    case SelectYesNo(yes) => [if yes then 1 else 0]
    case SelectOption(index) => [index]
    case SelectChain(index) => [index]
    case DeclineChain => MINUS_ONE
    case SelectPosition(position) => [position]
    case SelectCards(cards) => Counted(cards)
    case SelectUnselectCards(card) => [1] + Le16(card)
    case SelectTribute(cards) => Counted(cards)
    case SelectSum(cards) => Counted(cards)
    case SelectCounter(counts) => Words16(counts)
    case SelectPlace(player, location, sequence) => [player, location, sequence]
    case DeclinePlace => [0, 0, 0]
    case SortCards(order) => Words16(order)
    case KeepCardOrder => [0xff]
    case AnnounceRace(races) => Le32(races)
    case AnnounceAttribute(attributes) => Le32(attributes)
    case AnnounceCard(code) => Le32(code)
    case Unknown(raw) => raw
  }

  function Len(r: Response): nat {
    match r
    case Cancel => 4
    case SelectIdleCommand(_, _) => 4
    case SelectBattleCommand(_, _) => 4
    case SelectYesNo(_) => 1
    case SelectOption(_) => 1
    case SelectChain(_) => 1
    case DeclineChain => 4
    case SelectPosition(_) => 1
    case SelectCards(cards) => 1 + |cards| * 2
    case SelectUnselectCards(_) => 3
    case SelectTribute(cards) => 1 + |cards| * 2
    case SelectSum(cards) => 1 + |cards| * 2
    case SelectCounter(counts) => |counts| * 2
    case SelectPlace(_, _, _) => 3
    case DeclinePlace => 3
    case SortCards(order) => |order| * 2
    case KeepCardOrder => 1
    case AnnounceRace(_) => 4
    case AnnounceAttribute(_) => 4
    case AnnounceCard(_) => 4
    case Unknown(raw) => |raw|
  }

  /** The announced length is the length written, for every response. */
  lemma LenIsLength(r: Response)
    ensures Len(r) == |Encode(r)|
  {
    match r
    case SelectCards(cards) => WordsLength16(cards);
    case SelectTribute(cards) => WordsLength16(cards);
    case SelectSum(cards) => WordsLength16(cards);
    case SelectCounter(counts) => WordsLength16(counts);
    case SortCards(order) => WordsLength16(order);
    case _ =>
  }

  // ---------- parsing ----------

  function TakeCounted(s: Bytes): Read<seq<U16>> {
    match TakeU8(s)
    case Failed(error) => Failed(error)
    case Got(count, rest) => TakeWords16(rest, count)
  }

  function TakePair(s: Bytes, limit: U16): Read<(U16, U16)> {
    match TakeU16(s)
    case Failed(error) => Failed(error)
    case Got(first, rest) =>
      if first > limit then Failed(NoVariant)
      else
        match TakeU16(rest)
        case Failed(error) => Failed(error)
        case Got(second, left) => Got((first, second), left)
  }

  function TakePlace(s: Bytes): Read<(CorePlayer, U8, U8)> {
    match TakeCorePlayer(s)
    case Failed(error) => Failed(error)
    case Got(player, rest) => if |rest| < 2 then Failed(Eof) else Got((player, rest[0], rest[1]), rest[2..])
  }

  function Decode(prompt: Prompt, s: Bytes): Parsed {
    match prompt
    case IdleCommandPrompt =>
      var r := TakePair(s, 8); if r.Failed? then Err(r.error) else Ok(SelectIdleCommand(r.value.0, r.value.1))
    case BattleCommandPrompt =>
      var r := TakePair(s, 3); if r.Failed? then Err(r.error) else Ok(SelectBattleCommand(r.value.0, r.value.1))
    case EffectYesNoPrompt | YesNoPrompt =>
      var r := TakeU8(s); if r.Failed? then Err(r.error) else Ok(SelectYesNo(r.value != 0))
    case OptionPrompt | NumberPrompt => var r := TakeU8(s); if r.Failed? then Err(r.error) else Ok(SelectOption(r.value))
    case PositionPrompt => var r := TakeU8(s); if r.Failed? then Err(r.error) else Ok(SelectPosition(r.value))
    case CounterPrompt => Ok(SelectCounter(AllWords16(s)))
    case RacePrompt => var r := TakeU32(s); if r.Failed? then Err(r.error) else Ok(AnnounceRace(r.value))
    case AttributePrompt => var r := TakeU32(s); if r.Failed? then Err(r.error) else Ok(AnnounceAttribute(r.value))
    case CardNamePrompt => var r := TakeU32(s); if r.Failed? then Err(r.error) else Ok(AnnounceCard(r.value))
    case ChainPrompt =>
      if s == MINUS_ONE then Ok(DeclineChain)
      else var r := TakeU8(s); if r.Failed? then Err(r.error) else Ok(SelectChain(r.value))
    case CardPrompt =>
      if s == MINUS_ONE then Ok(Cancel)
      else var r := TakeCounted(s); if r.Failed? then Err(r.error) else Ok(SelectCards(r.value))
    case UnselectCardPrompt =>
      if s == MINUS_ONE then Ok(Cancel)
      else
        var marker := TakeU8(s);
        if marker.Failed? then Err(marker.error)
        else if marker.value != 1 then Err(NoVariant)
        else var r := TakeU16(marker.rest); if r.Failed? then Err(r.error) else Ok(SelectUnselectCards(r.value))
    case TributePrompt =>
      if s == MINUS_ONE then Ok(Cancel)
      else var r := TakeCounted(s); if r.Failed? then Err(r.error) else Ok(SelectTribute(r.value))
    case SumPrompt => var r := TakeCounted(s); if r.Failed? then Err(r.error) else Ok(SelectSum(r.value))
    case PlacePrompt | DisableFieldPrompt =>
      var r := TakePlace(s);
      if r.Failed? then Err(r.error)
      else
        var (player, location, sequence) := r.value;
        if player == FIRST_ATTACK_PLAYER && location == LIMBO && sequence == 0 then Ok(DeclinePlace)
        else Ok(SelectPlace(player, location, sequence))
    case SortPrompt => if s == [0xff] then Ok(KeepCardOrder) else Ok(SortCards(AllWords16(s)))
    case NoPrompt => Err(NoVariant)
  }

  /** `resolve`: raw bytes are parsed, anything else stays. */
  function Resolved(r: Response, prompt: Prompt): Parsed {
    if r.Unknown? then Decode(prompt, r.raw) else Ok(r)
  }

  // ---------- the round trip ----------

  /** The prompts each response is documented to answer. */
  predicate Answers(r: Response, prompt: Prompt) {
    match r
    case Cancel => prompt.CardPrompt? || prompt.UnselectCardPrompt? || prompt.TributePrompt?
    case SelectIdleCommand(_, _) => prompt.IdleCommandPrompt?
    case SelectBattleCommand(_, _) => prompt.BattleCommandPrompt?
    case SelectYesNo(_) => prompt.YesNoPrompt? || prompt.EffectYesNoPrompt?
    case SelectOption(_) => prompt.OptionPrompt? || prompt.NumberPrompt?
    case SelectChain(_) => prompt.ChainPrompt?
    case DeclineChain => prompt.ChainPrompt?
    case SelectPosition(_) => prompt.PositionPrompt?
    case SelectCards(_) => prompt.CardPrompt?
    case SelectUnselectCards(_) => prompt.UnselectCardPrompt?
    case SelectTribute(_) => prompt.TributePrompt?
    case SelectSum(_) => prompt.SumPrompt?
    case SelectCounter(_) => prompt.CounterPrompt?
    case SelectPlace(_, _, _) => prompt.PlacePrompt? || prompt.DisableFieldPrompt?
    case DeclinePlace => prompt.PlacePrompt? || prompt.DisableFieldPrompt?
    case SortCards(_) => prompt.SortPrompt?
    case KeepCardOrder => prompt.SortPrompt?
    case AnnounceRace(_) => prompt.RacePrompt?
    case AnnounceAttribute(_) => prompt.AttributePrompt?
    case AnnounceCard(_) => prompt.CardNamePrompt?
    case Unknown(_) => false
  }

  /** A counted list whose length fits its one-byte count. */
  predicate Fits(r: Response) {
    match r
    case SelectCards(cards) => |cards| < 0x100
    case SelectTribute(cards) => |cards| < 0x100
    case SelectSum(cards) => |cards| < 0x100
    case _ => true
  }

  const NO_PLACE := SelectPlace(FIRST_ATTACK_PLAYER, LIMBO, 0)

  /**
  Reading back an answer under a prompt it answers gives the same answer if and only if its list fits the count
  byte and it is not the one place that is written like a declined one.
  */
  lemma RoundTrip(r: Response, prompt: Prompt)
    requires Answers(r, prompt)
    ensures Decode(prompt, Encode(r)) == Ok(r) <==> Fits(r) && r != NO_PLACE
    ensures r == NO_PLACE ==> Decode(prompt, Encode(r)) == Ok(DeclinePlace)
  {
    hide Decode, Encode, Answers;
    match r
    case SelectCards(_) => ListTrip(r, prompt);
    case SelectTribute(_) => ListTrip(r, prompt);
    case SelectSum(_) => ListTrip(r, prompt);
    case SelectCounter(_) => OpenListTrip(r, prompt);
    case SortCards(_) => OpenListTrip(r, prompt);
    case SelectPlace(_, _, _) => PlaceTrip(r, prompt);
    case DeclinePlace => PlaceTrip(r, prompt);
    case Cancel => DeclineTrip(r, prompt);
    case DeclineChain => DeclineTrip(r, prompt);
    case KeepCardOrder => DeclineTrip(r, prompt);
    case _ => FixedTrip(r, prompt);
  }

  lemma ListTrip(r: Response, prompt: Prompt)
    requires Answers(r, prompt) && (r.SelectCards? || r.SelectTribute? || r.SelectSum?)
    ensures Decode(prompt, Encode(r)) == Ok(r) <==> Fits(r)
  {
    hide TakeCounted, Counted;
    match r
    case SelectCards(cards) => CountedBack(cards);
    case SelectTribute(cards) => CountedBack(cards);
    case SelectSum(cards) => CountedBack(cards);
  }

  lemma OpenListTrip(r: Response, prompt: Prompt)
    requires Answers(r, prompt) && (r.SelectCounter? || r.SortCards?)
    ensures Decode(prompt, Encode(r)) == Ok(r)
  {
    var list := if r.SelectCounter? then r.counts else r.order;
    AllWordsBack16(list);
    WordsLength16(list);
    hide AllWords16, Words16;
  }

  lemma PlaceTrip(r: Response, prompt: Prompt)
    requires Answers(r, prompt) && (r.SelectPlace? || r.DeclinePlace?)
    ensures Decode(prompt, Encode(r)) == if r == NO_PLACE then Ok(DeclinePlace) else Ok(r)
  {
  }

  lemma DeclineTrip(r: Response, prompt: Prompt)
    requires Answers(r, prompt) && (r.Cancel? || r.DeclineChain? || r.KeepCardOrder?)
    ensures Decode(prompt, Encode(r)) == Ok(r)
  {
  }

  lemma FixedTrip(r: Response, prompt: Prompt)
    requires Answers(r, prompt) && Fits(r) && !r.SelectCards? && !r.SelectTribute? && !r.SelectSum?
    requires !r.SelectCounter? && !r.SortCards? && !r.SelectPlace? && !r.Cancel? && !r.DeclineChain? && !r.KeepCardOrder? && !r.DeclinePlace?
    ensures Decode(prompt, Encode(r)) == Ok(r)
  {
    hide TakePair, TakeU32, Le32, TakeU16, Le16;
    match r
    case SelectIdleCommand(command, card) => PairBack(command, card, 8);
    case SelectBattleCommand(command, card) => PairBack(command, card, 3);
    case SelectUnselectCards(card) => UnselectBack(card);
    case AnnounceRace(races) => WordBack(races);
    case AnnounceAttribute(attributes) => WordBack(attributes);
    case AnnounceCard(code) => WordBack(code);
    case _ =>
  }

  lemma UnselectBack(card: U16)
    ensures var s := [1] + Le16(card); s != MINUS_ONE && TakeU8(s) == Got(1, Le16(card)) && TakeU16(Le16(card)) == Got(card, [])
  {
    TakeBack16(card, []);
    assert Le16(card) + [] == Le16(card);
  }

  lemma WordBack(x: U32)
    ensures TakeU32(Le32(x)) == Got(x, [])
  {
    TakeBack32(x, []);
    assert Le32(x) + [] == Le32(x);
  }

  lemma PairBack(first: U16, second: U16, limit: U16)
    requires first <= limit
    ensures TakePair(Le16(first) + Le16(second), limit) == Got((first, second), [])
  {
    TakeBack16(first, Le16(second));
    TakeBack16(second, []);
    assert Le16(second) + [] == Le16(second);
  }

  /** A counted list is never read as minus one, and comes back cut to the length its count byte holds. */
  lemma CountedBack(list: seq<U16>)
    ensures Counted(list) != MINUS_ONE
    ensures TakeCounted(Counted(list)).Got? && TakeCounted(Counted(list)).value == list[..|list| % 0x100]
    ensures TakeCounted(Counted(list)).value == list <==> |list| < 0x100
  {
    WordsLength16(list);
    var count := |list| % 0x100;
    TakeBack8(count, Words16(list));
    TakeWordsBack16(list, count, []);
    assert Words16(list) + [] == Words16(list);
    assert |list| < 0x100 ==> list[..count] == list;
  }

  /** No two answers to one prompt share their bytes, whatever their length, apart from the place that reads as a declined one. */
  lemma Unambiguous(r: Response, s: Response, prompt: Prompt)
    requires Answers(r, prompt) && Answers(s, prompt) && r != NO_PLACE && s != NO_PLACE
    requires Encode(r) == Encode(s)
    ensures r == s
  {
    RoundTrip(r, prompt);
    RoundTrip(s, prompt);
    if !Fits(r) {
      ListsOnce(r, s, prompt);
    } else if !Fits(s) {
      ListsOnce(s, r, prompt);
    }
    hide Decode, Encode, Answers;
  }

  lemma ListsOnce(r: Response, s: Response, prompt: Prompt)
    requires Answers(r, prompt) && Answers(s, prompt) && Encode(r) == Encode(s) && !Fits(r)
    ensures r == s
  {
    hide Counted;
    match r
    case SelectCards(cards) =>
      CountedBack(cards);
      if s.SelectCards? { CountedOnce(cards, s.cards); }
    case SelectTribute(cards) =>
      CountedBack(cards);
      if s.SelectTribute? { CountedOnce(cards, s.cards); }
    case SelectSum(cards) => CountedOnce(cards, s.cards);
  }

  /** Two counted lists with the same bytes are the same list, also when the count byte is cut. */
  lemma CountedOnce(a: seq<U16>, b: seq<U16>)
    requires Counted(a) == Counted(b)
    ensures a == b
  {
    assert Counted(a)[1..] == Words16(a) && Counted(b)[1..] == Words16(b);
    AllWordsBack16(a);
    AllWordsBack16(b);
    hide AllWords16, Words16;
  }

  // ---------- through a cursor ----------

  method WriteWords(list: seq<U16>, w: Cursor)
    requires w.pos <= |w.data|
    modifies w
    ensures w.data == Overwrite(old(w.data), old(w.pos), Words16(list)) && w.pos == old(w.pos) + |Words16(list)|
  {
    for i := 0 to |list|
      invariant w.pos <= |w.data|
      invariant w.data == Overwrite(old(w.data), old(w.pos), Words16(list[..i])) && w.pos == old(w.pos) + |Words16(list[..i])|
    {
      WordsAppend16(list[..i], list[i]);
      assert list[..i] + [list[i]] == list[..i + 1];
      OverwriteTwice(old(w.data), old(w.pos), Words16(list[..i]), Le16(list[i]));
      w.Write(Le16(list[i]));
    }
    assert list[..|list|] == list;
  }

  method WriteCounted(list: seq<U16>, w: Cursor)
    requires w.pos <= |w.data|
    modifies w
    ensures w.data == Overwrite(old(w.data), old(w.pos), Counted(list)) && w.pos == old(w.pos) + |Counted(list)|
  {
    OverwriteTwice(w.data, w.pos, [|list| % 0x100], Words16(list));
    w.Write([|list| % 0x100]);
    WriteWords(list, w);
  }

  method WritePair(first: Bytes, second: Bytes, w: Cursor)
    requires w.pos <= |w.data|
    modifies w
    ensures w.data == Overwrite(old(w.data), old(w.pos), first + second) && w.pos == old(w.pos) + |first + second|
  {
    OverwriteTwice(w.data, w.pos, first, second);
    w.Write(first);
    w.Write(second);
  }

  method WriteResponse(r: Response, w: Cursor)
    requires w.pos <= |w.data|
    modifies w
    ensures w.data == Overwrite(old(w.data), old(w.pos), Encode(r)) && w.pos == old(w.pos) + Len(r)
  {
    LenIsLength(r);
    hide Overwrite;
    match r
    case Cancel => w.Write(MINUS_ONE);
    case SelectIdleCommand(command, card) => WritePair(Le16(command), Le16(card), w);
    case SelectBattleCommand(command, card) => WritePair(Le16(command), Le16(card), w);
    case SelectYesNo(yes) => w.Write([if yes then 1 else 0]);
    case SelectOption(index) => w.Write([index]);
    case SelectChain(index) => w.Write([index]);
    case DeclineChain => w.Write(MINUS_ONE);
    case SelectPosition(position) => w.Write([position]);
    case SelectCards(cards) => WriteCounted(cards, w);
    case SelectUnselectCards(card) => WritePair([1], Le16(card), w);
    case SelectTribute(cards) => WriteCounted(cards, w);
    case SelectSum(cards) => WriteCounted(cards, w);
    case SelectCounter(counts) => WriteWords(counts, w);
    case SelectPlace(player, location, sequence) => w.Write([player, location, sequence]);
    case DeclinePlace => w.Write([0, 0, 0]);
    case SortCards(order) => WriteWords(order, w);
    case KeepCardOrder => w.Write([0xff]);
    case AnnounceRace(races) => w.Write(Le32(races));
    case AnnounceAttribute(attributes) => w.Write(Le32(attributes));
    case AnnounceCard(code) => w.Write(Le32(code));
    case Unknown(raw) => w.Write(raw);
  }

  method ReadWords(count: nat, r: Cursor) returns (words: Read<seq<U16>>)
    modifies r`pos
    ensures words == TakeWords16(old(r.Rest()), count)
    ensures words.Got? ==> r.Rest() == words.rest
  {
    var list: seq<U16> := [];
    PrependNone(TakeWords16(r.Rest(), count));
    for i := 0 to count
      invariant |list| == i
      invariant TakeWords16(old(r.Rest()), count) == Prepend(list, TakeWords16(r.Rest(), count - i))
    {
      var word := r.ReadU16();
      if word.Failed? {
        assert TakeWords16(old(r.Rest()), count) == Failed(word.error);
        return Failed(word.error);
      }
      PrependOne(list, word.value, TakeWords16(word.rest, count - i - 1));
      list := list + [word.value];
    }
    assert list + [] == list;
    words := Got(list, r.Rest());
  }

  method ReadCounted(r: Cursor) returns (words: Read<seq<U16>>)
    modifies r`pos
    ensures words == TakeCounted(old(r.Rest()))
  {
    var count := r.ReadU8();
    if count.Failed? { return Failed(count.error); }
    words := ReadWords(count.value, r);
  }

  lemma {:induction false} WordByWord(s: Bytes)
    ensures match TakeU16(s)
            case Failed(_) => AllWords16(s) == []
            case Got(x, rest) => AllWords16(s) == [x] + AllWords16(rest) && |rest| < |s|
  {
  }

  method ReadAllWords(r: Cursor) returns (list: seq<U16>)
    modifies r`pos
    ensures list == AllWords16(old(r.Rest()))
  {
    hide AllWords16, TakeU16;
    list := [];
    var done := false;
    while !done
      invariant AllWords16(old(r.Rest())) == list + if done then [] else AllWords16(r.Rest())
      decreases !done, |r.Rest()|
    {
      WordByWord(r.Rest());
      var word := r.ReadU16();
      if word.Failed? {
        done := true;
      } else {
        list := list + [word.value];
      }
    }
  }

  method ReadPair(limit: U16, r: Cursor) returns (pair: Read<(U16, U16)>)
    modifies r`pos
    ensures pair == TakePair(old(r.Rest()), limit)
  {
    var first := r.ReadU16();
    if first.Failed? { return Failed(first.error); }
    if first.value > limit { return Failed(NoVariant); }
    var second := r.ReadU16();
    if second.Failed? { return Failed(second.error); }
    pair := Got((first.value, second.value), second.rest);
  }

  method ReadPlace(r: Cursor) returns (place: Read<(CorePlayer, U8, U8)>)
    modifies r`pos
    ensures place == TakePlace(old(r.Rest()))
  {
    var player := r.ReadCorePlayer();
    if player.Failed? { return Failed(player.error); }
    var location := r.ReadU8();
    if location.Failed? { return Failed(location.error); }
    var sequence := r.ReadU8();
    if sequence.Failed? { return Failed(sequence.error); }
    place := Got((player.value, location.value, sequence.value), sequence.rest);
  }

  /** Prompts whose answer may also be four bytes of minus one. */
  function DeclinedAs(prompt: Prompt): Option<Response> {
    match prompt
    case ChainPrompt => Some(DeclineChain)
    case CardPrompt | UnselectCardPrompt | TributePrompt => Some(Cancel)
    case _ => None
  }

  method Parse(r: Cursor, prompt: Prompt) returns (parsed: Parsed)
    modifies r`pos
    ensures parsed == Decode(prompt, old(r.Rest()))
  {
    match prompt {
      case ChainPrompt | CardPrompt | UnselectCardPrompt | TributePrompt =>
        var rest := r.ReadAllRemaining();
        if rest == MINUS_ONE { return Ok(DeclinedAs(prompt).value); }
      case SortPrompt =>
        var rest := r.ReadAllRemaining();
        if rest == [0xff] { return Ok(KeepCardOrder); }
      case _ =>
    }
    parsed := ParseAnswer(r, prompt);
  }

  method ParseAnswer(r: Cursor, prompt: Prompt) returns (parsed: Parsed)
    requires DeclinedAs(prompt).Some? ==> r.Rest() != MINUS_ONE
    requires prompt.SortPrompt? ==> r.Rest() != [0xff]
    modifies r`pos
    ensures parsed == Decode(prompt, old(r.Rest()))
  {
    hide TakeU8, TakeU16, TakeU32, TakeCounted, TakePair, TakePlace, AllWords16;
    match prompt
    case IdleCommandPrompt =>
      var pair := ReadPair(8, r);
      if pair.Failed? { return Err(pair.error); }
      PairInRange(old(r.Rest()), 8);
      parsed := Ok(SelectIdleCommand(pair.value.0, pair.value.1));
    case BattleCommandPrompt =>
      var pair := ReadPair(3, r);
      if pair.Failed? { return Err(pair.error); }
      PairInRange(old(r.Rest()), 3);
      parsed := Ok(SelectBattleCommand(pair.value.0, pair.value.1));
    case EffectYesNoPrompt | YesNoPrompt =>
      var answer := r.ReadU8();
      if answer.Failed? { return Err(answer.error); }
      parsed := Ok(SelectYesNo(answer.value != 0));
    case OptionPrompt | NumberPrompt =>
      var index := r.ReadU8();
      if index.Failed? { return Err(index.error); }
      parsed := Ok(SelectOption(index.value));
    case PositionPrompt =>
      var position := r.ReadU8();
      if position.Failed? { return Err(position.error); }
      parsed := Ok(SelectPosition(position.value));
    case CounterPrompt =>
      var counts := ReadAllWords(r);
      parsed := Ok(SelectCounter(counts));
    case RacePrompt =>
      var races := r.ReadU32();
      if races.Failed? { return Err(races.error); }
      parsed := Ok(AnnounceRace(races.value));
    case AttributePrompt =>
      var attributes := r.ReadU32();
      if attributes.Failed? { return Err(attributes.error); }
      parsed := Ok(AnnounceAttribute(attributes.value));
    case CardNamePrompt =>
      var code := r.ReadU32();
      if code.Failed? { return Err(code.error); }
      parsed := Ok(AnnounceCard(code.value));
    case ChainPrompt =>
      var index := r.ReadU8();
      if index.Failed? { return Err(index.error); }
      parsed := Ok(SelectChain(index.value));
    case CardPrompt =>
      var cards := ReadCounted(r);
      if cards.Failed? { return Err(cards.error); }
      parsed := Ok(SelectCards(cards.value));
    case UnselectCardPrompt =>
      var marker := r.ReadU8();
      if marker.Failed? { return Err(marker.error); }
      if marker.value != 1 { return Err(NoVariant); }
      var card := r.ReadU16();
      if card.Failed? { return Err(card.error); }
      parsed := Ok(SelectUnselectCards(card.value));
    case TributePrompt =>
      var cards := ReadCounted(r);
      if cards.Failed? { return Err(cards.error); }
      parsed := Ok(SelectTribute(cards.value));
    case SumPrompt =>
      var cards := ReadCounted(r);
      if cards.Failed? { return Err(cards.error); }
      parsed := Ok(SelectSum(cards.value));
    case PlacePrompt | DisableFieldPrompt =>
      var place := ReadPlace(r);
      if place.Failed? { return Err(place.error); }
      var (player, location, sequence) := place.value;
      parsed := if player == FIRST_ATTACK_PLAYER && location == LIMBO && sequence == 0
                then Ok(DeclinePlace) else Ok(SelectPlace(player, location, sequence));
    case SortPrompt =>
      var order := ReadAllWords(r);
      parsed := Ok(SortCards(order));
    case NoPrompt => parsed := Err(NoVariant);
  }

  lemma PairInRange(s: Bytes, limit: U16)
    ensures TakePair(s, limit).Got? ==> TakePair(s, limit).value.0 <= limit
  {
  }

  /** A response kept raw until its prompt is known. */
  class Pending {
    var response: Response

    constructor (r: Response)
      ensures response == r
    {
      response := r;
    }

    method Resolve(prompt: Prompt) returns (failed: Option<Error>)
      modifies this
      ensures match Resolved(old(response), prompt)
              case Ok(r) => failed == None && response == r
              case Err(error) => failed == Some(error) && response == old(response)
    {
      if !response.Unknown? { return None; }
      var reader := new Cursor(response.raw);
      assert reader.Rest() == response.raw;
      var parsed := Parse(reader, prompt);
      if parsed.Err? { return Some(parsed.error); }
      response := parsed.response;
      failed := None;
    }
  }
}
