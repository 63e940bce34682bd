/**
Lines, tokens and decimal numbers, as the text formats use them. Lines end at a line feed and lose
a carriage return before it, tokens are separated by Unicode white space, and a number printed in
decimal is read back digit by digit, from the most significant one down.
*/
module Text {
  import opened Options

  /** The characters Unicode calls white space. */
  predicate IsSpace(c: char) {
    var n := c as int;
    9 <= n <= 13 || n == 0x20 || n == 0x85 || n == 0xa0 || n == 0x1680 || 0x2000 <= n <= 0x200a
    || n == 0x2028 || n == 0x2029 || n == 0x202f || n == 0x205f || n == 0x3000
  }

  /** All of them, one by one. */
  lemma SpacesAre(c: char)
    ensures IsSpace(c) <==> c as int in {
      0x9, 0xa, 0xb, 0xc, 0xd, 0x20, 0x85, 0xa0, 0x1680, 0x2000, 0x2001, 0x2002, 0x2003, 0x2004, 0x2005, 0x2006,
      0x2007, 0x2008, 0x2009, 0x200a, 0x2028, 0x2029, 0x202f, 0x205f, 0x3000}
  {
  }

  predicate IsDigit(c: char) { '0' <= c <= '9' }

  function DigitOf(c: char): nat
    requires IsDigit(c)
  {
    c as int - '0' as int
  }

  function Digit(n: nat): char
    requires n < 10
  {
    ('0' as int + n) as char
  }

  // ---------- lines ----------

  function FirstNewline(s: string): (i: nat)
    ensures i <= |s|
    ensures forall j :: 0 <= j < i ==> s[j] != '\n'
    ensures i < |s| ==> s[i] == '\n'
  {
    if s == [] || s[0] == '\n' then 0 else 1 + FirstNewline(s[1..])
  }

  /** A line without the carriage return before its end. */
  function StripReturn(s: string): string {
    if s != [] && s[|s| - 1] == '\r' then s[..|s| - 1] else s
  }

  /** The text between newlines; the end of the text closes a line only if there is anything in it. */
  function Lines(s: string): seq<string>
    decreases |s|
  {
    if s == [] then []
    else
      var i := FirstNewline(s);
      if i == |s| then [s] else [StripReturn(s[..i])] + Lines(s[i + 1..])
  }

  function TrimStart(s: string): string { if s != [] && IsSpace(s[0]) then TrimStart(s[1..]) else s }

  function TrimEnd(s: string): string
    decreases |s|
  {
    if s != [] && IsSpace(s[|s| - 1]) then TrimEnd(s[..|s| - 1]) else s
  }

  function Trim(s: string): string { TrimEnd(TrimStart(s)) }

  lemma {:induction false} TrimEndStart(s: string)
    requires s != [] && !IsSpace(s[0])
    ensures TrimEnd(s) != [] && TrimEnd(s)[0] == s[0]
    decreases |s|
  {
    if IsSpace(s[|s| - 1]) { TrimEndStart(s[..|s| - 1]); }
  }

  /** Closes every line with a newline. */
  function Join(lines: seq<string>): string {
    if lines == [] then "" else lines[0] + "\n" + Join(lines[1..])
  }

  /** A line that splitting and trimming leave as it is. */
  predicate Plain(line: string) {
    line != [] && !IsSpace(line[0]) && !IsSpace(line[|line| - 1]) && '\n' !in line
  }

  lemma TrimPlain(line: string)
    requires Plain(line)
    ensures Trim(line) == line
  {
  }

  lemma {:induction false} NewlineAfter(line: string, rest: string)
    requires '\n' !in line
    ensures FirstNewline(line + "\n" + rest) == |line|
    decreases line
  {
    var s := line + "\n" + rest;
    if line != [] {
      assert s[1..] == line[1..] + "\n" + rest;
      NewlineAfter(line[1..], rest);
    }
  }

  lemma {:induction false} LinesOfJoin(lines: seq<string>)
    requires forall i :: 0 <= i < |lines| ==> Plain(lines[i])
    ensures Lines(Join(lines)) == lines
    decreases lines
  {
    if lines != [] {
      var line, rest := lines[0], Join(lines[1..]);
      NewlineAfter(line, rest);
      var s := Join(lines);
      assert s[..|line|] == line && s[|line| + 1..] == rest;
      assert StripReturn(line) == line by { assert IsSpace('\r'); }
      LinesOfJoin(lines[1..]);
    }
  }

  /** A line ends at a line feed, with or without a carriage return before it; what is left at the end is a line if it is not empty. */
  lemma {:induction false} FirstLine(line: string, rest: string)
    requires '\n' !in line
    ensures Lines(line + "\r\n" + rest) == [line] + Lines(rest)
    ensures line == [] || line[|line| - 1] != '\r' ==> Lines(line + "\n" + rest) == [line] + Lines(rest)
    ensures Lines(line) == if line == [] then [] else [line]
  {
    NewlineAfter(line, rest);
    NewlineAfter(line + "\r", rest);
    var s, t := line + "\n" + rest, line + "\r" + "\n" + rest;
    assert s[..|line|] == line && s[|line| + 1..] == rest;
    assert t[..|line| + 1] == line + "\r" && t[|line| + 2..] == rest;
    assert line + "\r\n" + rest == t;
    assert StripReturn(line + "\r") == line;
    NoNewline(line);
  }

  lemma {:induction false} NoNewline(line: string)
    requires '\n' !in line
    ensures FirstNewline(line) == |line|
    decreases line
  {
    if line != [] { NoNewline(line[1..]); }
  }

  lemma {:induction false} JoinAppend(a: seq<string>, b: seq<string>)
    ensures Join(a + b) == Join(a) + Join(b)
    decreases a
  {
    if a == [] {
      assert a + b == b;
    } else {
      assert (a + b)[1..] == a[1..] + b;
      JoinAppend(a[1..], b);
    }
  }

  // ---------- numbers ----------

  predicate AllDigits(s: string) { forall i :: 0 <= i < |s| ==> IsDigit(s[i]) }

  /** The longest run of digits at the start. */
  function DigitPrefix(s: string): (i: nat)
    ensures i <= |s| && AllDigits(s[..i])
    ensures i < |s| ==> !IsDigit(s[i])
  {
    if s == [] || !IsDigit(s[0]) then 0
    else
      var i := DigitPrefix(s[1..]);
      assert s[..i + 1] == [s[0]] + s[1..][..i];
      1 + i
  }

  function Value(s: string): nat
    requires AllDigits(s)
    decreases |s|
  {
    if s == [] then 0 else 10 * Value(s[..|s| - 1]) + DigitOf(s[|s| - 1])
  }

  function ParseDigits(s: string): Option<nat> {
    if s != [] && AllDigits(s) then Some(Value(s)) else None
  }

  /** A number below `limit` in decimal, with an optional plus sign. */
  function ParseNumber(s: string, limit: nat): Option<nat> {
    var digits := if s != [] && s[0] == '+' then s[1..] else s;
    var n := ParseDigits(digits);
    if n.Some? && n.value < limit then n else None
  }

  function Decimal(n: nat): (s: string)
    ensures s != [] && AllDigits(s)
  {
    if n < 10 then [Digit(n)] else Decimal(n / 10) + [Digit(n % 10)]
  }

  lemma {:induction false} DecimalValue(n: nat)
    ensures Value(Decimal(n)) == n
    decreases n
  {
    if n >= 10 {
      var s := Decimal(n);
      assert s[..|s| - 1] == Decimal(n / 10);
      DecimalValue(n / 10);
    } else {
      assert Decimal(n)[..0] == [];
    }
  }

  lemma {:induction false} DigitsAreOne(s: string)
    requires AllDigits(s)
    ensures DigitPrefix(s) == |s|
  {
  }

  lemma {:induction false} DecimalIsPlain(n: nat)
    ensures Plain(Decimal(n)) && IsDigit(Decimal(n)[0])
  {
    var s := Decimal(n);
    assert IsDigit(s[0]) && IsDigit(s[|s| - 1]);
    assert !IsDigit('\n');
  }

  /** The same with a plus sign; what is empty, or has anything but digits behind the sign, is no number. */
  lemma {:induction false} ParsedMeans(n: nat, limit: nat, s: string)
    ensures ParseNumber("+" + Decimal(n), limit) == if n < limit then Some(n) else None
    ensures ParseNumber(s, limit).Some? ==> s != [] && s != "+" && forall i :: 0 <= i < |s| ==> IsDigit(s[i]) || (i == 0 && s[0] == '+')
    ensures ParseNumber(s, limit).Some? ==> ParseNumber(s, limit).value < limit
  {
    DecimalValue(n);
    assert ("+" + Decimal(n))[1..] == Decimal(n);
    if ParseNumber(s, limit).Some? && s[0] == '+' {
      assert AllDigits(s[1..]);
      forall i | 0 < i < |s| ensures IsDigit(s[i]) { assert s[i] == s[1..][i - 1]; }
    }
  }

  // ---------- tokens ----------

  function FirstSpace(s: string): (i: nat)
    ensures i <= |s| && forall j :: 0 <= j < i ==> !IsSpace(s[j])
    ensures i < |s| ==> IsSpace(s[i])
  {
    if s == [] || IsSpace(s[0]) then 0 else 1 + FirstSpace(s[1..])
  }

  /** The parts of a line between white space. */
  function Tokens(s: string): (tokens: seq<string>)
    ensures forall i :: 0 <= i < |tokens| ==> tokens[i] != []
    decreases |s|
  {
    if s == [] then []
    else if IsSpace(s[0]) then Tokens(s[1..])
    else
      var i := FirstSpace(s);
      [s[..i]] + Tokens(s[i..])
  }

  /** A word without white space. */
  ghost predicate Solid(s: string) { s != [] && forall i :: 0 <= i < |s| ==> !IsSpace(s[i]) }

  lemma {:induction false} SpaceAfter(a: string, rest: string)
    requires (forall i :: 0 <= i < |a| ==> !IsSpace(a[i])) && (rest == [] || IsSpace(rest[0]))
    ensures FirstSpace(a + rest) == |a|
    decreases a
  {
    hide IsSpace;
    if a == [] {
      assert a + rest == rest;
    } else {
      assert (a + rest)[1..] == a[1..] + rest;
      SpaceAfter(a[1..], rest);
    }
  }

  /** A word at the start of a line is its first token. */
  lemma {:induction false} TokenFirst(a: string, rest: string)
    requires Solid(a) && (rest == [] || IsSpace(rest[0]))
    ensures Tokens(a + rest) == [a] + Tokens(rest)
  {
    hide IsSpace;
    SpaceAfter(a, rest);
    assert (a + rest)[..|a|] == a && (a + rest)[|a|..] == rest;
  }

  lemma {:induction false} TokenAfterSpace(rest: string)
    ensures IsSpace(' ') && Tokens(" " + rest) == Tokens(rest)
  {
    assert (" " + rest)[1..] == rest;
  }

  /** Words with a space between them are the tokens of their line. */
  lemma {:induction false} TwoTokens(a: string, b: string)
    requires Solid(a) && Solid(b)
    ensures Tokens(a + " " + b) == [a, b]
    ensures '\n' !in a + " " + b ==> Plain(a + " " + b)
  {
    TokenAfterSpace(b);
    TokenFirst(b, "");
    TokenFirst(a, " " + b);
    assert b + "" == b && a + (" " + b) == a + " " + b;
    hide Tokens, IsSpace;
  }

  lemma {:induction false} ThreeTokens(a: string, b: string, c: string)
    requires Solid(a) && Solid(b) && Solid(c)
    ensures Tokens(a + " " + b + " " + c) == [a, b, c]
  {
    hide Tokens, IsSpace, Solid, Plain;
    var rest := b + " " + c;
    TwoTokens(b, c);
    TokenAfterSpace(rest);
    TokenFirst(a, " " + rest);
    assert a + " " + b + " " + c == a + (" " + rest);
  }

  /** A line of words stays as it is when trimmed, and has no end inside. */
  lemma WordsArePlain(line: string)
    requires line != [] && !IsSpace(line[0]) && !IsSpace(line[|line| - 1])
    requires forall i :: 0 <= i < |line| ==> IsSpace(line[i]) ==> line[i] == ' '
    ensures Plain(line)
  {
    assert IsSpace('\n');
  }

  lemma {:induction false} SolidDecimal(n: nat)
    ensures Solid(Decimal(n)) && IsDigit(Decimal(n)[0])
  {
    var s := Decimal(n);
    assert forall i :: 0 <= i < |s| ==> IsDigit(s[i]);
  }

  /** A printed number is read back if it is below the limit, and no number otherwise. */
  lemma {:induction false} ParsedDecimal(n: nat, limit: nat)
    ensures ParseNumber(Decimal(n), limit) == if n < limit then Some(n) else None
  {
    DecimalValue(n);
    assert IsDigit(Decimal(n)[0]);
  }
}
