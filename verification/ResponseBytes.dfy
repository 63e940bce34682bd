/** The bytes of every answer, and what every input is read as (`ygopro-data/src/data/response.rs`). */
module ResponseBytes {
  // Byte by byte, without the codecs' own words: what stands where in an answer, and which inputs a
  // prompt refuses and why.

  import opened Options
  import opened Wire
  import opened R = Response

  /** The number in two bytes, lower byte first. */
  ghost function Short(s: Bytes, at: nat): nat
    requires at + 1 < |s|
  {
    s[at] as int + 0x100 * s[at + 1] as int
  }

  ghost function Long(s: Bytes, at: nat): nat
    requires at + 3 < |s|
  {
    s[at] as int + 0x100 * s[at + 1] as int + 0x1_0000 * s[at + 2] as int + 0x100_0000 * s[at + 3] as int
  }

  /** From byte `at` on the input has the words of the list, one after the other. */
  ghost predicate WordsFrom(s: Bytes, at: nat, list: seq<U16>) {
    at + 2 * |list| <= |s| && forall i :: 0 <= i < |list| ==> Short(s, at + 2 * i) == list[i]
  }

  lemma {:induction false} WordsStand(list: seq<U16>, i: nat)
    requires i < |list|
    ensures |Words16(list)| == 2 * |list| && Short(Words16(list), 2 * i) == list[i]
    decreases list
  {
    WordsLength16(list);
    WordsLength16(list[1..]);
    assert |Le16(list[0])| == 2;
    if i > 0 {
      hide Le16;
      WordsStand(list[1..], i - 1);
      assert Words16(list) == Le16(list[0]) + Words16(list[1..]);
      hide Words16;
      assert Words16(list)[2 * i] == Words16(list[1..])[2 * i - 2] && Words16(list)[2 * i + 1] == Words16(list[1..])[2 * i - 1];
    }
  }

  lemma {:induction false} WordsBehind(list: seq<U16>, before: Bytes)
    ensures |Words16(list)| == 2 * |list| && WordsFrom(before + Words16(list), |before|, list)
  {
    WordsLength16(list);
    var s := before + Words16(list);
    forall i | 0 <= i < |list| ensures Short(s, |before| + 2 * i) == list[i] {
      WordsStand(list, i);
      hide Words16;
      assert s[|before| + 2 * i] == Words16(list)[2 * i] && s[|before| + 2 * i + 1] == Words16(list)[2 * i + 1];
    }
  }

  /** Counted lists start with their length modulo 256; lists without a count are their words alone. */
  lemma ListBytes(list: seq<U16>)
    ensures CountedBytes(Encode(SelectCards(list)), list) && CountedBytes(Encode(SelectTribute(list)), list)
    ensures CountedBytes(Encode(SelectSum(list)), list)
    ensures |Encode(SelectCounter(list))| == 2 * |list| && WordsFrom(Encode(SelectCounter(list)), 0, list)
    ensures Encode(SortCards(list)) == Encode(SelectCounter(list))
  {
    hide Words16, WordsFrom, CountedBytes, Counted;
    CountedStands(list);
    WordsBehind(list, []);
    assert [] + Words16(list) == Words16(list);
  }

  lemma CountedStands(list: seq<U16>)
    ensures CountedBytes(Counted(list), list)
  {
    hide Words16, WordsFrom;
    var count: U8 := |list| % 0x100;
    WordsBehind(list, [count]);
    assert Counted(list) == [count] + Words16(list);
  }

  ghost predicate CountedBytes(s: Bytes, list: seq<U16>) {
    |s| == 1 + 2 * |list| && s[0] == |list| % 0x100 && WordsFrom(s, 1, list)
  }

  /** All other answers. */
  lemma AnswerBytes(r: Response)
    ensures match r
      case Cancel => Encode(r) == [0xff, 0xff, 0xff, 0xff]
      case SelectIdleCommand(command, card) => |Encode(r)| == 4 && Short(Encode(r), 0) == command && Short(Encode(r), 2) == card
      case SelectBattleCommand(command, card) => |Encode(r)| == 4 && Short(Encode(r), 0) == command && Short(Encode(r), 2) == card
      case SelectYesNo(yes) => Encode(r) == if yes then [1] else [0]
      case SelectOption(index) => Encode(r) == [index]
      case SelectChain(index) => Encode(r) == [index]
      case DeclineChain => Encode(r) == [0xff, 0xff, 0xff, 0xff]
      case SelectPosition(position) => Encode(r) == [position]
      case SelectUnselectCards(card) => |Encode(r)| == 3 && Encode(r)[0] == 1 && Short(Encode(r), 1) == card
      case SelectPlace(player, location, sequence) => Encode(r) == [player, location, sequence]
      case DeclinePlace => Encode(r) == [0, 0, 0]
      case KeepCardOrder => Encode(r) == [0xff]
      case AnnounceRace(x) => |Encode(r)| == 4 && Long(Encode(r), 0) == x
      case AnnounceAttribute(x) => |Encode(r)| == 4 && Long(Encode(r), 0) == x
      case AnnounceCard(x) => |Encode(r)| == 4 && Long(Encode(r), 0) == x
      case Unknown(raw) => Encode(r) == raw
      case _ => true
  {
    match r
    case AnnounceRace(x) => WordBytes(x);
    case AnnounceAttribute(x) => WordBytes(x);
    case AnnounceCard(x) => WordBytes(x);
    case _ =>
  }

  lemma WordBytes(x: U32)
    ensures |Le32(x)| == 4 && Long(Le32(x), 0) == x
  {
    TakeBack32(x, []);
    assert Le32(x) + [] == Le32(x);
    hide Le32;
  }

  // ---------- reading ----------

  lemma {:induction false} WordsRead(s: Bytes, count: nat)
    ensures 2 * count <= |s| ==>
      TakeWords16(s, count).Got? && |TakeWords16(s, count).value| == count && WordsFrom(s, 0, TakeWords16(s, count).value)
    ensures |s| < 2 * count ==> TakeWords16(s, count) == Failed(Eof)
    decreases count
  {
    if count > 0 && |s| >= 2 {
      WordsRead(s[2..], count - 1);
      if 2 * count <= |s| {
        var list := TakeWords16(s, count).value;
        var rest := TakeWords16(s[2..], count - 1).value;
        assert list == [Short(s, 0)] + rest;
        hide TakeWords16;
        forall i | 0 <= i < count ensures Short(s, 2 * i) == list[i] {
          if i > 0 { assert Short(s[2..], 2 * (i - 1)) == rest[i - 1]; }
        }
      }
    }
  }

  lemma {:induction false} AllWordsRead(s: Bytes)
    ensures |AllWords16(s)| == |s| / 2 && WordsFrom(s, 0, AllWords16(s))
    decreases |s|
  {
    if |s| >= 2 {
      AllWordsRead(s[2..]);
      var list, rest := AllWords16(s), AllWords16(s[2..]);
      assert list == [Short(s, 0)] + rest;
      hide AllWords16;
      forall i | 0 <= i < |list| ensures Short(s, 2 * i) == list[i] {
        if i > 0 { assert Short(s[2..], 2 * (i - 1)) == rest[i - 1]; }
      }
    }
  }

  /** A counted list needs two bytes for each element it announces, and ignores what follows. */
  lemma CountedReads(s: Bytes)
    ensures var r := TakeCounted(s);
      if |s| == 0 || |s| < 1 + 2 * s[0] as int then r == Failed(Eof)
      else r.Got? && |r.value| == s[0] && WordsFrom(s, 1, r.value)
  {
    if |s| > 0 {
      WordsRead(s[1..], s[0]);
      if 1 + 2 * s[0] as int <= |s| {
        var list := TakeWords16(s[1..], s[0]).value;
        hide TakeWords16;
        forall i | 0 <= i < |list| ensures Short(s, 1 + 2 * i) == list[i] { assert Short(s[1..], 2 * i) == list[i]; }
      }
    }
  }

  /**
  Commands. A command number above 8 in the idle phase, or above 3 in the battle phase, is refused before the rest
  is looked at; an input that ends too early is refused as that.
  */
  lemma CommandsRead(s: Bytes)
    ensures Decode(IdleCommandPrompt, s) == (
      if |s| < 2 then Err(Eof) else if Short(s, 0) > 8 then Err(NoVariant) else if |s| < 4 then Err(Eof)
      else Ok(SelectIdleCommand(Short(s, 0), Short(s, 2))))
    ensures Decode(BattleCommandPrompt, s) == (
      if |s| < 2 then Err(Eof) else if Short(s, 0) > 3 then Err(NoVariant) else if |s| < 4 then Err(Eof)
      else Ok(SelectBattleCommand(Short(s, 0), Short(s, 2))))
  {
  }

  /** Answers of one number; any byte but zero means yes, and what follows is ignored. */
  lemma NumbersRead(s: Bytes)
    ensures |s| == 0 ==> forall p :: p in [YesNoPrompt, EffectYesNoPrompt, OptionPrompt, NumberPrompt, PositionPrompt] ==> Decode(p, s) == Err(Eof)
    ensures |s| > 0 ==>
      && Decode(YesNoPrompt, s) == Decode(EffectYesNoPrompt, s) == Ok(SelectYesNo(s[0] != 0))
      && Decode(OptionPrompt, s) == Decode(NumberPrompt, s) == Ok(SelectOption(s[0]))
      && Decode(PositionPrompt, s) == Ok(SelectPosition(s[0]))
    ensures |s| < 4 ==> forall p :: p in [RacePrompt, AttributePrompt, CardNamePrompt] ==> Decode(p, s) == Err(Eof)
    ensures |s| >= 4 ==>
      && Decode(RacePrompt, s) == Ok(AnnounceRace(Long(s, 0))) && Decode(AttributePrompt, s) == Ok(AnnounceAttribute(Long(s, 0)))
      && Decode(CardNamePrompt, s) == Ok(AnnounceCard(Long(s, 0)))
    ensures Decode(NoPrompt, s) == Err(NoVariant)
  {
  }

  /** Answers that may be declined: four bytes of 0xff and nothing else decline. */
  lemma DeclinableRead(s: Bytes)
    ensures s == [0xff, 0xff, 0xff, 0xff] ==>
      && Decode(ChainPrompt, s) == Ok(DeclineChain)
      && Decode(CardPrompt, s) == Decode(TributePrompt, s) == Decode(UnselectCardPrompt, s) == Ok(Cancel)
    ensures s != [0xff, 0xff, 0xff, 0xff] ==>
      && Decode(ChainPrompt, s) == (if |s| == 0 then Err(Eof) else Ok(SelectChain(s[0])))
      && Decode(UnselectCardPrompt, s) == (
        if |s| == 0 then Err(Eof) else if s[0] != 1 then Err(NoVariant) else if |s| < 3 then Err(Eof)
        else Ok(SelectUnselectCards(Short(s, 1))))
      && (|s| == 0 || |s| < 1 + 2 * s[0] as int ==> Decode(CardPrompt, s) == Decode(TributePrompt, s) == Err(Eof))
      && (0 < |s| && 1 + 2 * s[0] as int <= |s| ==>
            exists list: seq<U16> :: |list| == s[0] && WordsFrom(s, 1, list)
              && Decode(CardPrompt, s) == Ok(SelectCards(list)) && Decode(TributePrompt, s) == Ok(SelectTribute(list)))
  {
    CountedReads(s);
    hide TakeCounted, WordsFrom;
    if s != [0xff, 0xff, 0xff, 0xff] && TakeCounted(s).Got? {
      var list := TakeCounted(s).value;
      assert Decode(CardPrompt, s) == Ok(SelectCards(list));
    }
  }

  /** Lists: a sum is counted, counters and an order run to the end of the input, where an odd byte is dropped. */
  lemma ListsRead(s: Bytes)
    ensures |s| == 0 || |s| < 1 + 2 * s[0] as int ==> Decode(SumPrompt, s) == Err(Eof)
    ensures 0 < |s| && 1 + 2 * s[0] as int <= |s| ==>
      exists list: seq<U16> :: |list| == s[0] && WordsFrom(s, 1, list) && Decode(SumPrompt, s) == Ok(SelectSum(list))
    ensures exists list: seq<U16> ::
      && |list| == |s| / 2 && WordsFrom(s, 0, list) && Decode(CounterPrompt, s) == Ok(SelectCounter(list))
      && Decode(SortPrompt, s) == (if s == [0xff] then Ok(KeepCardOrder) else Ok(SortCards(list)))
  {
    CountedReads(s);
    AllWordsRead(s);
    hide TakeCounted, WordsFrom, AllWords16;
    var words := AllWords16(s);
    assert Decode(CounterPrompt, s) == Ok(SelectCounter(words));
    if TakeCounted(s).Got? { assert Decode(SumPrompt, s) == Ok(SelectSum(TakeCounted(s).value)); }
  }

  /** A place is a player, a location and a sequence; three zeros decline, and players four or above five do not exist. */
  lemma PlaceRead(s: Bytes)
    ensures Decode(PlacePrompt, s) == Decode(DisableFieldPrompt, s)
    ensures Decode(PlacePrompt, s) == (
      if |s| == 0 then Err(Eof) else if s[0] == 4 || s[0] > 5 then Err(NoVariant) else if |s| < 3 then Err(Eof)
      else if s[..3] == [0, 0, 0] then Ok(DeclinePlace) else Ok(SelectPlace(s[0], s[1], s[2])))
  {
  }
}
