/**
Printing a deck as text and parsing it back (`ygopro-data/src/data/deck.rs`). Every deck survives
that, and every text is read line by line.
*/
module DeckText {
  import opened Options
  import opened Text
  import opened Decks

  const TITLE := "#ygopro-rs deck generated"

  function Numbers(codes: seq<U32>): (lines: seq<string>)
    ensures |lines| == |codes| && forall i :: 0 <= i < |codes| ==> lines[i] == Decimal(codes[i])
  {
    if codes == [] then [] else [Decimal(codes[0])] + Numbers(codes[1..])
  }

  /** The extra section is left out if it is empty. */
  function ExtraLines(d: Deck): seq<string> { if d.extra == [] then [] else ["#extra"] + Numbers(d.extra) }

  function PrintedLines(d: Deck): seq<string> {
    [TITLE, "#main"] + Numbers(d.main) + ExtraLines(d) + (["!side"] + Numbers(d.side))
  }

  function Print(d: Deck): string { Join(PrintedLines(d)) }

  // ---------- parsing ----------

  datatype Part = MainPart | ExtraPart | SidePart

  datatype Parsing = Parsing(deck: Deck, part: Part)

  function Push(p: Parsing, code: U32): Parsing {
    match p.part
    case MainPart => p.(deck := p.deck.(main := p.deck.main + [code]))
    case ExtraPart => p.(deck := p.deck.(extra := p.deck.extra + [code]))
    case SidePart => p.(deck := p.deck.(side := p.deck.side + [code]))
  }

  /** One line: a section marker, a number that may be followed by anything, or nothing of interest. */
  function ParseLine(p: Parsing, raw: string): Parsing {
    var line := Trim(raw);
    if line == [] then p
    else if line[0] == '!' then p.(part := SidePart)
    else if line[0] == '#' then
      if line == "#main" then p.(part := MainPart) else if line == "#extra" then p.(part := ExtraPart) else p
    else if IsDigit(line[0]) then
      var code := ParseDigits(line[..DigitPrefix(line)]);
      if code.Some? && code.value < 0x1_0000_0000 then Push(p, code.value) else p
    else p
  }

  function ParseLines(p: Parsing, lines: seq<string>): Parsing
    decreases lines
  {
    if lines == [] then p else ParseLines(ParseLine(p, lines[0]), lines[1..])
  }

  const NOTHING := Parsing(Deck([], [], []), MainPart)

  function Parse(text: string): Deck { ParseLines(NOTHING, Lines(text)).deck }

  // ---------- the round trip ----------

  lemma {:induction false} ParseAppend(p: Parsing, a: seq<string>, b: seq<string>)
    ensures ParseLines(p, a + b) == ParseLines(ParseLines(p, a), b)
    decreases a
  {
    hide ParseLine;
    if a == [] {
      assert a + b == b;
    } else {
      assert (a + b)[1..] == a[1..] + b;
      ParseAppend(ParseLine(p, a[0]), a[1..], b);
    }
  }

  function PushAll(p: Parsing, codes: seq<U32>): Parsing
    decreases codes
  {
    if codes == [] then p else PushAll(Push(p, codes[0]), codes[1..])
  }

  lemma {:induction false} NumberLine(p: Parsing, code: U32)
    ensures ParseLine(p, Decimal(code)) == Push(p, code)
  {
    var s := Decimal(code);
    DecimalIsPlain(code);
    TrimPlain(s);
    DigitsAreOne(s);
    DecimalValue(code);
    assert s[..|s|] == s;
    hide Trim, Decimal, DigitPrefix, Value;
  }

  lemma {:induction false} NumberLines(p: Parsing, codes: seq<U32>)
    ensures ParseLines(p, Numbers(codes)) == PushAll(p, codes)
    decreases codes
  {
    hide ParseLine, Push;
    if codes != [] {
      NumberLine(p, codes[0]);
      NumberLines(Push(p, codes[0]), codes[1..]);
    }
  }

  lemma {:induction false} PushAllAppends(p: Parsing, codes: seq<U32>)
    ensures var d := p.deck;
      PushAll(p, codes) == p.(deck := match p.part
        case MainPart => d.(main := d.main + codes)
        case ExtraPart => d.(extra := d.extra + codes)
        case SidePart => d.(side := d.side + codes))
    decreases codes
  {
    if codes == [] {
      assert p.deck.main + [] == p.deck.main && p.deck.extra + [] == p.deck.extra && p.deck.side + [] == p.deck.side;
    } else {
      PushAllAppends(Push(p, codes[0]), codes[1..]);
      var d := p.deck;
      assert codes == [codes[0]] + codes[1..];
      assert d.main + [codes[0]] + codes[1..] == d.main + codes;
      assert d.extra + [codes[0]] + codes[1..] == d.extra + codes;
      assert d.side + [codes[0]] + codes[1..] == d.side + codes;
    }
  }

  lemma Markers(p: Parsing)
    ensures ParseLine(p, TITLE) == p
    ensures ParseLine(p, "#main") == p.(part := MainPart)
    ensures ParseLine(p, "#extra") == p.(part := ExtraPart)
    ensures ParseLine(p, "!side") == p.(part := SidePart)
  {
    MarkersArePlain();
    TrimPlain(TITLE);
    TrimPlain("#main");
    TrimPlain("#extra");
    TrimPlain("!side");
    hide Trim;
    assert TITLE[0] == '#' && |TITLE| != |"#main"| && |TITLE| != |"#extra"|;
  }

  lemma MarkersArePlain()
    ensures Plain(TITLE) && Plain("#main") && Plain("#extra") && Plain("!side")
  {
  }

  lemma PrintedArePlain(d: Deck)
    ensures forall i :: 0 <= i < |PrintedLines(d)| ==> Plain(PrintedLines(d)[i])
  {
    MarkersArePlain();
    NumbersArePlain(d.main);
    NumbersArePlain(d.extra);
    NumbersArePlain(d.side);
    hide Plain, Numbers;
  }

  lemma {:induction false} NumbersArePlain(codes: seq<U32>)
    ensures forall i :: 0 <= i < |Numbers(codes)| ==> Plain(Numbers(codes)[i])
  {
    forall i | 0 <= i < |codes| ensures Plain(Numbers(codes)[i]) { DecimalIsPlain(codes[i]); }
    hide Plain;
  }

  /** The section started by a marker takes the numbers below it. */
  lemma {:induction false} SectionBack(p: Parsing, marker: string, codes: seq<U32>)
    ensures ParseLines(p, [marker] + Numbers(codes)) == PushAll(ParseLine(p, marker), codes)
  {
    hide ParseLine;
    NumberLines(ParseLine(p, marker), codes);
    assert ([marker] + Numbers(codes))[1..] == Numbers(codes);
  }

  /** Any deck comes back from its own text, every code to its section and in its place. */
  lemma TextRoundTrip(d: Deck)
    ensures Parse(Print(d)) == d
  {
    hide ParseLine, Numbers, Lines, Join;
    PrintedArePlain(d);
    LinesOfJoin(PrintedLines(d));
    var p0 := NOTHING;
    var head := [TITLE] + (["#main"] + Numbers(d.main));
    assert PrintedLines(d) == head + (ExtraLines(d) + (["!side"] + Numbers(d.side)));
    ParseAppend(p0, head, ExtraLines(d) + (["!side"] + Numbers(d.side)));
    Markers(p0);
    assert head[1..] == ["#main"] + Numbers(d.main);
    SectionBack(p0, "#main", d.main);
    PushAllAppends(p0, d.main);
    var p1 := Parsing(Deck(d.main, [], []), MainPart);
    assert [] + d.main == d.main && [] + d.extra == d.extra && [] + d.side == d.side;
    assert ParseLines(p0, head) == p1;
    ParseAppend(p1, ExtraLines(d), ["!side"] + Numbers(d.side));
    Markers(p1);
    SectionBack(p1, "#extra", d.extra);
    PushAllAppends(p1.(part := ExtraPart), d.extra);
    var p2 := ParseLines(p1, ExtraLines(d));
    assert p2.deck == Deck(d.main, [], d.extra);
    Markers(p2);
    SectionBack(p2, "!side", d.side);
    PushAllAppends(p2.(part := SidePart), d.side);
  }

  // ---------- as loops ----------

  method AppendNumbers(start: string, codes: seq<U32>) returns (text: string)
    ensures text == start + Join(Numbers(codes))
  {
    hide Decimal;
    text := start;
    assert codes[0..] == codes;
    for i := 0 to |codes|
      invariant text + Join(Numbers(codes[i..])) == start + Join(Numbers(codes))
    {
      assert codes[i..][1..] == codes[i + 1..];
      var line := Decimal(codes[i]);
      assert Numbers(codes[i..]) == [line] + Numbers(codes[i + 1..]);
      assert Join(Numbers(codes[i..])) == line + "\n" + Join(Numbers(codes[i + 1..]));
      text := text + line + "\n";
    }
    assert text + "" == text;
  }

  method ToString(d: Deck) returns (text: string)
    ensures text == Print(d)
  {
    hide Numbers, Decimal;
    PrintInParts(d);
    text := Join([TITLE, "#main"]);
    text := AppendNumbers(text, d.main);
    if |d.extra| > 0 {
      text := text + "#extra\n";
      text := AppendNumbers(text, d.extra);
    }
    text := text + "!side\n";
    text := AppendNumbers(text, d.side);
  }

  lemma PrintInParts(d: Deck)
    ensures Print(d) == Join([TITLE, "#main"]) + Join(Numbers(d.main))
      + (if d.extra == [] then "" else "#extra\n" + Join(Numbers(d.extra))) + "!side\n" + Join(Numbers(d.side))
  {
    hide Numbers;
    var a, b, c := [TITLE, "#main"], ExtraLines(d), ["!side"] + Numbers(d.side);
    JoinAppend(a + Numbers(d.main) + b, c);
    JoinAppend(a + Numbers(d.main), b);
    JoinAppend(a, Numbers(d.main));
    JoinAppend(["!side"], Numbers(d.side));
    JoinAppend(["#extra"], Numbers(d.extra));
    JoinOne("!side");
    JoinOne("#extra");
    assert Join([]) == "";
  }

  lemma JoinOne(line: string)
    ensures Join([line]) == line + "\n"
  {
    assert [line][1..] == [];
  }

  method FromStr(text: string) returns (d: Deck)
    ensures d == Parse(text)
  {
    hide ParseLine, Lines;
    var lines := Lines(text);
    var parsing := NOTHING;
    assert lines[0..] == lines;
    for i := 0 to |lines|
      invariant ParseLines(parsing, lines[i..]) == ParseLines(NOTHING, lines)
    {
      assert lines[i..][1..] == lines[i + 1..];
      parsing := ParseLine(parsing, lines[i]);
    }
    d := parsing.deck;
  }
}
