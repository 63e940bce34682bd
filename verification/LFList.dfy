/** The forbidden list and its hash (`ygopro-data/src/data/lflist.rs`). */
module LFLists {
  // Card limits, credit limits and the credits cards cost, with a hash that is kept up line by line
  // while the list is parsed.

  import opened Options
  import opened Text

  type Word = bv32

  const HASH_INITIAL_VALUE: Word := 0x7dfc_ee6a
  const CREDIT_MARKER: Word := 0x4352_4544
  const FNV_OFFSET: Word := 2166136261
  const FNV_PRIME: Word := 16777619

  datatype LFList = LFList(
    hash: Word,
    name: string,
    content: map<U32, U8>,
    creditLimits: map<string, U32>,
    credits: map<U32, map<string, U32>>)

  function New(name: string): LFList { LFList(HASH_INITIAL_VALUE, name, map[], map[], map[]) }

  function Credit(l: LFList, code: U32, key: string): U32 {
    if code in l.credits && key in l.credits[code] then l.credits[code][key] else 0
  }

  // ---------- hash terms ----------

  /** The bytes of a character in UTF-8. */
  function Utf8(c: char): seq<bv8> {
    var n := c as int;
    if n < 0x80 then [n as bv8]
    else if n < 0x800 then [(0xc0 + n / 0x40) as bv8, (0x80 + n % 0x40) as bv8]
    else if n < 0x1_0000 then [(0xe0 + n / 0x1000) as bv8, (0x80 + n / 0x40 % 0x40) as bv8, (0x80 + n % 0x40) as bv8]
    else [(0xf0 + n / 0x4_0000 % 8) as bv8, (0x80 + n / 0x1000 % 0x40) as bv8, (0x80 + n / 0x40 % 0x40) as bv8, (0x80 + n % 0x40) as bv8]
  }

  /** One byte below 0x80, two below 0x800, three below 0x1_0000 and four otherwise. */
  lemma Utf8Length(c: char)
    ensures |Utf8(c)| == if c as int < 0x80 then 1 else if c as int < 0x800 then 2 else if c as int < 0x1_0000 then 3 else 4
  {
  }

  function HashBytes(hash: Word, bytes: seq<bv8>): Word
    decreases bytes
  {
    if bytes == [] then hash else HashBytes((hash ^ (bytes[0] as bv32)) * FNV_PRIME, bytes[1..])
  }

  function HashChars(hash: Word, key: string): Word
    decreases key
  {
    if key == [] then hash else HashChars(HashBytes(hash, Utf8(key[0])), key[1..])
  }

  function CreditHash(key: string): Word { HashChars(FNV_OFFSET, key) }

  /** The counts a hash can shift by. */
  predicate Shiftable(count: U8) { count <= 4 }

  function CardTerm(code: U32, count: U8): Word
    requires Shiftable(count)
  {
    var c := code as bv32;
    ((c << 18) | (c >> 14)) ^ ((c << (27 + count)) | (c >> (5 - count)))
  }

  function CreditTerm(first: Word, second: Word, third: Word): Word {
    ((first << 18) | (first >> 14)) ^ ((second << 9) | (second >> 23)) ^ ((third << 27) | (third >> 5))
  }

  function Mix(a: Word, b: Word): Word { a ^ b }

  /** What a line of the list puts into it. */
  datatype Entry =
    | Card(code: U32, count: U8)
    | Limit(key: string, limit: U32)
    | Cost(code: U32, key: string, credit: U32)

  predicate Hashable(e: Entry) { e.Card? ==> Shiftable(e.count) }

  function Term(e: Entry): Word
    requires Hashable(e)
  {
    match e
    case Card(code, count) => CardTerm(code, count)
    case Limit(key, limit) => CreditTerm(CreditHash(key), limit as bv32, CREDIT_MARKER)
    case Cost(code, key, credit) => CreditTerm(code as bv32, CreditHash(key), credit as bv32)
  }

  /** The place of a list an entry goes to; a later entry for it replaces the value, not the hash term. */
  datatype Place = CardPlace(code: U32) | LimitPlace(key: string) | CostPlace(code: U32, key: string)

  function PlaceOf(e: Entry): Place {
    match e
    case Card(code, _) => CardPlace(code)
    case Limit(key, _) => LimitPlace(key)
    case Cost(code, key, _) => CostPlace(code, key)
  }

  // ---------- building a list ----------

  function Put(l: LFList, e: Entry): LFList
    requires Hashable(e)
  {
    var l1 := l.(hash := Mix(l.hash, Term(e)));
    match e
    case Card(code, count) => l1.(content := l.content[code := count])
    case Limit(key, limit) => l1.(creditLimits := l.creditLimits[key := limit])
    case Cost(code, key, credit) =>
      var costs := if code in l.credits then l.credits[code] else map[];
      l1.(credits := l.credits[code := costs[key := credit]])
  }

  function PutAll(l: LFList, es: seq<Entry>): LFList
    requires forall i :: 0 <= i < |es| ==> Hashable(es[i])
    decreases es
  {
    if es == [] then l else PutAll(Put(l, es[0]), es[1..])
  }

  /** The entry a list holds at a place. */
  function Held(l: LFList, p: Place): Option<Entry> {
    match p
    case CardPlace(code) => if code in l.content then Some(Card(code, l.content[code])) else None
    case LimitPlace(key) => if key in l.creditLimits then Some(Limit(key, l.creditLimits[key])) else None
    case CostPlace(code, key) =>
      if code in l.credits && key in l.credits[code] then Some(Cost(code, key, l.credits[code][key])) else None
  }

  lemma PutHolds(l: LFList, e: Entry)
    requires Hashable(e)
    ensures forall p :: Held(Put(l, e), p) == if p == PlaceOf(e) then Some(e) else Held(l, p)
  {
    hide Term;
  }

  // ---------- the hash in one go ----------

  function Xor(es: seq<Entry>): Word
    requires forall i :: 0 <= i < |es| ==> Hashable(es[i])
  {
    if es == [] then 0 else Mix(Term(es[0]), Xor(es[1..]))
  }

  /** `es` lists what `l` holds, everything once, in some order. */
  ghost predicate Enumerates(es: seq<Entry>, l: LFList) {
    && (forall i :: 0 <= i < |es| ==> Held(l, PlaceOf(es[i])) == Some(es[i]))
    && (forall i, j :: 0 <= i < j < |es| ==> PlaceOf(es[i]) != PlaceOf(es[j]))
    && (forall p :: Held(l, p).Some? ==> Held(l, p).value in es)
  }

  ghost predicate AllHashable(es: seq<Entry>) { forall i :: 0 <= i < |es| ==> Hashable(es[i]) }

  lemma {:induction false} XorAppend(a: seq<Entry>, b: seq<Entry>)
    requires AllHashable(a) && AllHashable(b)
    ensures AllHashable(a + b) && Xor(a + b) == Mix(Xor(a), Xor(b))
    decreases a
  {
    hide Term, Mix;
    if a == [] {
      assert a + b == b;
      Associate(Xor(b), 0, 0);
    } else {
      assert (a + b)[1..] == a[1..] + b;
      XorAppend(a[1..], b);
      Associate(Term(a[0]), Xor(a[1..]), Xor(b));
    }
  }

  lemma Associate(a: Word, b: Word, c: Word)
    ensures Mix(a, Mix(b, c)) == Mix(Mix(a, b), c) && Mix(a, b) == Mix(b, a) && Mix(a, a) == 0 && Mix(a, 0) == a && Mix(0, a) == a
  {
  }

  /** Taking out an entry takes out its term. */
  lemma {:induction false} XorTakeOut(es: seq<Entry>, i: nat)
    requires AllHashable(es) && i < |es|
    ensures AllHashable(es[..i] + es[i + 1..])
    ensures Xor(es) == Mix(Term(es[i]), Xor(es[..i] + es[i + 1..]))
  {
    hide Xor, Term, Mix;
    var a, b := es[..i], es[i + 1..];
    assert es == a + ([es[i]] + b);
    XorAppend(a, [es[i]] + b);
    XorAppend([es[i]], b);
    XorAppend(a, b);
    XorOne(es[i]);
    Exchange(Xor(a), Term(es[i]), Xor(b));
  }

  lemma Exchange(a: Word, t: Word, b: Word)
    ensures Mix(a, Mix(t, b)) == Mix(t, Mix(a, b))
  {
  }

  /** Two listings of the same content combine to the same word. */
  lemma {:induction false} XorAnyOrder(a: seq<Entry>, b: seq<Entry>)
    requires AllHashable(a) && AllHashable(b) && NoTwice(a) && NoTwice(b)
    requires forall e :: e in a <==> e in b
    ensures Xor(a) == Xor(b)
    decreases a
  {
    hide Xor, Term, Mix;
    if a == [] {
      EmptyToo(b);
    } else {
      assert a[0] in b;
      XorFirst(a);
      var i :| 0 <= i < |b| && b[i] == a[0];
      var c := b[..i] + b[i + 1..];
      XorTakeOut(b, i);
      forall e ensures e in a[1..] <==> e in c { WithoutFirst(a, e); WithoutAt(b, i, e); }
      NoTwiceAt(b, i);
      XorAnyOrder(a[1..], c);
    }
  }

  lemma EmptyToo(es: seq<Entry>)
    ensures es == [] || exists e :: e in es
  {
    if es != [] { assert es[0] in es; }
  }

  lemma {:induction false} XorFirst(es: seq<Entry>)
    requires AllHashable(es) && es != []
    ensures Xor(es) == Mix(Term(es[0]), Xor(es[1..]))
  {
    hide Term, Mix;
  }

  ghost predicate NoTwice(es: seq<Entry>) { forall i, j :: 0 <= i < j < |es| ==> es[i] != es[j] }

  lemma WithoutFirst(a: seq<Entry>, e: Entry)
    requires a != [] && NoTwice(a)
    ensures e in a[1..] <==> e in a && e != a[0]
  {
    if e in a && e != a[0] {
      var i :| 0 <= i < |a| && a[i] == e;
      assert a[1..][i - 1] == e;
    }
  }

  lemma WithoutAt(b: seq<Entry>, i: nat, e: Entry)
    requires i < |b| && NoTwice(b)
    ensures e in b[..i] + b[i + 1..] <==> e in b && e != b[i]
  {
    var c := b[..i] + b[i + 1..];
    if e in b && e != b[i] {
      var j :| 0 <= j < |b| && b[j] == e;
      assert c[if j < i then j else j - 1] == e;
    }
    if e in c {
      var j :| 0 <= j < |c| && c[j] == e;
      assert b[if j < i then j else j + 1] == e;
    }
  }

  lemma NoTwiceAt(b: seq<Entry>, i: nat)
    requires i < |b| && NoTwice(b)
    ensures NoTwice(b[..i] + b[i + 1..])
  {
  }

  // ---------- line by line against in one go ----------

  /** The entries later lines replaced, each as often as that happened. */
  function Overwritten(l: LFList, es: seq<Entry>): seq<Entry>
    requires forall i :: 0 <= i < |es| ==> Hashable(es[i])
    decreases es
  {
    if es == [] then []
    else
      var before := Held(l, PlaceOf(es[0]));
      (if before.Some? then [before.value] else []) + Overwritten(Put(l, es[0]), es[1..])
  }

  ghost predicate HoldsHashable(l: LFList) { forall p :: Held(l, p).Some? ==> Hashable(Held(l, p).value) }

  lemma {:induction false} OverwrittenHashable(l: LFList, es: seq<Entry>)
    requires HoldsHashable(l) && AllHashable(es)
    ensures AllHashable(Overwritten(l, es)) && HoldsHashable(PutAll(l, es))
    decreases es
  {
    if es != [] {
      PutHolds(l, es[0]);
      OverwrittenHashable(Put(l, es[0]), es[1..]);
    }
  }

  lemma EnumeratedHashable(es: seq<Entry>, l: LFList)
    requires Enumerates(es, l) && HoldsHashable(l)
    ensures AllHashable(es) && NoTwice(es)
  {
    forall i, j | 0 <= i < j < |es| ensures es[i] != es[j] { assert PlaceOf(es[i]) != PlaceOf(es[j]); }
    forall i | 0 <= i < |es| ensures Hashable(es[i]) { assert Held(l, PlaceOf(es[i])) == Some(es[i]); }
  }

  /** A listing of what a list holds after one more entry. */
  lemma EnumerateNext(live: seq<Entry>, l: LFList, e: Entry) returns (next: seq<Entry>)
    requires Enumerates(live, l) && HoldsHashable(l) && Hashable(e)
    ensures Enumerates(next, Put(l, e)) && AllHashable(live) && AllHashable(next)
    ensures var before := Held(l, PlaceOf(e));
      if before.Some? then Hashable(before.value) && Mix(Xor(live), Term(e)) == Mix(Xor(next), Term(before.value))
      else Mix(Xor(live), Term(e)) == Xor(next)
  {
    PutHolds(l, e);
    EnumeratedHashable(live, l);
    var before := Held(l, PlaceOf(e));
    hide Term, Mix, Put, Xor;
    if before.Some? {
      assert before.value in live;
      var i :| 0 <= i < |live| && live[i] == before.value;
      var rest := live[..i] + live[i + 1..];
      next := rest + [e];
      XorTakeOut(live, i);
      XorAppend(rest, [e]);
      XorOne(e);
      Swap(Term(live[i]), Xor(rest), Term(e));
      ReplaceEntry(live, l, e, i);
    } else {
      next := live + [e];
      XorAppend(live, [e]);
      XorOne(e);
      AddEntry(live, l, e);
    }
  }

  lemma XorOne(e: Entry)
    requires Hashable(e)
    ensures Xor([e]) == Term(e)
  {
    hide Term, Mix;
    Associate(Term(e), 0, 0);
  }

  lemma Swap(a: Word, r: Word, t: Word)
    ensures Mix(Mix(a, r), t) == Mix(Mix(r, t), a)
  {
  }

  lemma HeldPlace(l: LFList, p: Place)
    ensures Held(l, p).Some? ==> PlaceOf(Held(l, p).value) == p
  {
  }

  lemma ReplaceEntry(live: seq<Entry>, l: LFList, e: Entry, i: nat)
    requires Enumerates(live, l) && Hashable(e) && i < |live| && PlaceOf(live[i]) == PlaceOf(e)
    ensures Enumerates(live[..i] + live[i + 1..] + [e], Put(l, e))
  {
    PutHolds(l, e);
    hide Put, Held;
    var next := live[..i] + live[i + 1..] + [e];
    ReplacedElsewhere(live, l, e, i);
    forall p | Held(Put(l, e), p).Some? ensures Held(Put(l, e), p).value in next {
      if p == PlaceOf(e) {
        assert next[|next| - 1] == e;
      } else {
        HeldPlace(l, p);
        var j :| 0 <= j < |live| && live[j] == Held(l, p).value;
        assert next[if j < i then j else j - 1] == live[j];
      }
    }
  }

  /** All others stay where they are, at places of their own. */
  lemma ReplacedElsewhere(live: seq<Entry>, l: LFList, e: Entry, i: nat)
    requires Enumerates(live, l) && Hashable(e) && i < |live| && PlaceOf(live[i]) == PlaceOf(e)
    ensures var next := live[..i] + live[i + 1..] + [e];
      && (forall j :: 0 <= j < |next| ==> Held(Put(l, e), PlaceOf(next[j])) == Some(next[j]))
      && (forall j, k :: 0 <= j < k < |next| ==> PlaceOf(next[j]) != PlaceOf(next[k]))
  {
    PutHolds(l, e);
    hide Put, Held, PlaceOf;
    var next := live[..i] + live[i + 1..] + [e];
    forall j | 0 <= j < |next| - 1
      ensures PlaceOf(next[j]) != PlaceOf(e) && Held(l, PlaceOf(next[j])) == Some(next[j])
      ensures next[j] == live[if j < i then j else j + 1]
    {
      var at := if j < i then j else j + 1;
      assert next[j] == live[at];
      assert PlaceOf(live[at]) != PlaceOf(live[i]);
    }
  }

  lemma AddEntry(live: seq<Entry>, l: LFList, e: Entry)
    requires Enumerates(live, l) && Hashable(e) && Held(l, PlaceOf(e)).None?
    ensures Enumerates(live + [e], Put(l, e))
  {
    PutHolds(l, e);
    hide Put, Held;
    var next := live + [e];
    forall p | Held(Put(l, e), p).Some? ensures Held(Put(l, e), p).value in next {
      if p == PlaceOf(e) {
        assert next[|next| - 1] == e;
      } else {
        var j :| 0 <= j < |live| && live[j] == Held(l, p).value;
        assert next[j] == live[j];
      }
    }
  }

  /** Line by line, the hash is that of what the list holds, combined with the terms of all entries replaced on the way. */
  lemma {:induction false} HashLineByLine(l: LFList, live: seq<Entry>, es: seq<Entry>, all: seq<Entry>)
    requires Enumerates(live, l) && HoldsHashable(l) && AllHashable(es) && AllHashable(live)
    requires Enumerates(all, PutAll(l, es)) && AllHashable(all) && AllHashable(Overwritten(l, es))
    ensures Mix(PutAll(l, es).hash, Xor(all)) == Mix(Mix(l.hash, Xor(live)), Xor(Overwritten(l, es)))
    decreases es
  {
    hide Xor, Term, Mix, Held, Enumerates, Overwritten;
    if es == [] {
      SameListing(live, all, l);
      NoLines(l);
      Associate(Mix(l.hash, Xor(live)), 0, 0);
    } else {
      var e := es[0];
      var next := EnumerateNext(live, l, e);
      PutHashable(l, e);
      OverwrittenHashable(Put(l, e), es[1..]);
      HashLineByLine(Put(l, e), next, es[1..], all);
      OverwrittenFirst(l, es);
      var before := Held(l, PlaceOf(e));
      var over := Overwritten(Put(l, e), es[1..]);
      hide Put;
      if before.Some? {
        Settle(l.hash, Term(e), Xor(live), Xor(next), Term(before.value), Xor(over));
      } else {
        SettleNew(l.hash, Term(e), Xor(live), Xor(next), Xor(over));
      }
    }
  }

  lemma {:induction false} NoLines(l: LFList)
    ensures Overwritten(l, []) == [] && Xor([]) == 0
  {
  }

  lemma PutHashable(l: LFList, e: Entry)
    requires HoldsHashable(l) && Hashable(e)
    ensures HoldsHashable(Put(l, e)) && Put(l, e).hash == Mix(l.hash, Term(e))
  {
    PutHolds(l, e);
    hide Held, Term, Mix;
  }

  lemma {:induction false} OverwrittenFirst(l: LFList, es: seq<Entry>)
    requires HoldsHashable(l) && AllHashable(es) && es != []
    requires AllHashable(Overwritten(l, es)) && AllHashable(Overwritten(Put(l, es[0]), es[1..]))
    ensures var before := Held(l, PlaceOf(es[0]));
      var over := Overwritten(Put(l, es[0]), es[1..]);
      if before.Some? then Hashable(before.value) && Xor(Overwritten(l, es)) == Mix(Term(before.value), Xor(over))
      else Xor(Overwritten(l, es)) == Xor(over)
  {
    hide Term, Mix, Put, Held, Xor;
    var before := Held(l, PlaceOf(es[0]));
    var over := Overwritten(Put(l, es[0]), es[1..]);
    if before.Some? {
      XorAppend([before.value], over);
      XorOne(before.value);
    } else {
      assert [] + over == over;
    }
  }

  lemma Settle(h: Word, t: Word, live: Word, next: Word, b: Word, over: Word)
    requires Mix(live, t) == Mix(next, b)
    ensures Mix(Mix(Mix(h, t), next), over) == Mix(Mix(h, live), Mix(b, over))
  {
    hide Mix;
    Rotate(live, t, next, b);
    Associate(h, t, next);
    Associate(h, live, b);
    Associate(Mix(h, live), b, over);
  }

  lemma Rotate(live: Word, t: Word, next: Word, b: Word)
    requires Mix(live, t) == Mix(next, b)
    ensures Mix(t, next) == Mix(live, b)
  {
    Inverse(live, t);
    Inverse(t, next);
    Around(next, b, t);
    hide Mix;
  }

  lemma Around(next: Word, b: Word, t: Word)
    ensures Mix(Mix(Mix(next, b), t), b) == Mix(t, next)
  {
  }

  lemma SettleNew(h: Word, t: Word, live: Word, next: Word, over: Word)
    requires Mix(live, t) == next
    ensures Mix(Mix(Mix(h, t), next), over) == Mix(Mix(h, live), over)
  {
  }

  lemma {:induction false} SameListing(a: seq<Entry>, b: seq<Entry>, l: LFList)
    requires Enumerates(a, l) && Enumerates(b, l) && AllHashable(a) && AllHashable(b)
    ensures Xor(a) == Xor(b)
  {
    forall i, j | 0 <= i < j < |a| ensures a[i] != a[j] { assert PlaceOf(a[i]) != PlaceOf(a[j]); }
    forall i, j | 0 <= i < j < |b| ensures b[i] != b[j] { assert PlaceOf(b[i]) != PlaceOf(b[j]); }
    hide Held;
    XorAnyOrder(a, b);
  }

  predicate NoRepeats(es: seq<Entry>) { forall i, j :: 0 <= i < j < |es| ==> PlaceOf(es[i]) != PlaceOf(es[j]) }

  lemma NewHoldsNothing(name: string)
    ensures forall p :: Held(New(name), p).None?
    ensures Enumerates([], New(name)) && HoldsHashable(New(name))
  {
  }

  /**
  For any lines, the hash built while parsing equals the hash computed afterwards, in whatever order the maps are
  walked, if and only if the terms of the replaced entries cancel out; without repeated places nothing is replaced.
  */
  lemma {:induction false} ParsedHash(name: string, es: seq<Entry>, all: seq<Entry>)
    requires AllHashable(es) && Enumerates(all, PutAll(New(name), es))
    ensures AllHashable(all) && AllHashable(Overwritten(New(name), es))
    ensures PutAll(New(name), es).hash == Mix(HASH_INITIAL_VALUE, Xor(all)) <==> Xor(Overwritten(New(name), es)) == 0
    ensures NoRepeats(es) ==> PutAll(New(name), es).hash == Mix(HASH_INITIAL_VALUE, Xor(all))
  {
    hide Xor, Term, Mix, Held, Enumerates, Overwritten, Put, PutAll;
    NewHoldsNothing(name);
    OverwrittenHashable(New(name), es);
    EnumeratedHashable(all, PutAll(New(name), es));
    HashLineByLine(New(name), [], es, all);
    NoLines(New(name));
    Cancel(PutAll(New(name), es).hash, HASH_INITIAL_VALUE, Xor(all), Xor(Overwritten(New(name), es)));
    if NoRepeats(es) { NothingOverwritten(New(name), es); }
  }

  /** A card listed twice leaves the term of its first entry in the hash. */
  lemma {:induction false} RepeatedCard(name: string, code: U32, a: U8, b: U8, all: seq<Entry>)
    requires Shiftable(a) && Shiftable(b) && Enumerates(all, PutAll(New(name), [Card(code, a), Card(code, b)]))
    ensures AllHashable([Card(code, a), Card(code, b)]) && AllHashable(all)
    ensures PutAll(New(name), [Card(code, a), Card(code, b)]).hash == Mix(HASH_INITIAL_VALUE, Xor(all)) <==> CardTerm(code, a) == 0
  {
    var es := [Card(code, a), Card(code, b)];
    ParsedHash(name, es, all);
    OverwrittenOnce(name, code, a, b);
    XorOne(Card(code, a));
    hide Enumerates, PutAll, Xor, CardTerm;
  }

  lemma OverwrittenOnce(name: string, code: U32, a: U8, b: U8)
    requires Shiftable(a) && Shiftable(b)
    ensures Overwritten(New(name), [Card(code, a), Card(code, b)]) == [Card(code, a)]
  {
    var es := [Card(code, a), Card(code, b)];
    hide Term, Held, Put;
    var l := Put(New(name), es[0]);
    PutHolds(New(name), es[0]);
    NewHoldsNothing(name);
    assert es[1..] == [Card(code, b)] && es[1..][1..] == [];
    assert Overwritten(l, es[1..]) == [Card(code, a)] + Overwritten(Put(l, es[1]), []);
  }

  /** The card with code 1, once forbidden and once limited: the parsed hash is not the computed one. */
  lemma {:induction false} RepeatedCardBreaks(name: string, all: seq<Entry>)
    requires Enumerates(all, PutAll(New(name), [Card(1, 0), Card(1, 1)]))
    ensures AllHashable(all) && PutAll(New(name), [Card(1, 0), Card(1, 1)]).hash != Mix(HASH_INITIAL_VALUE, Xor(all))
  {
    RepeatedCard(name, 1, 0, 1, all);
    assert 1 as bv32 == 1;
    assert CardTerm(1, 0) == 0x804_0000;
  }

  lemma Cancel(h: Word, start: Word, all: Word, over: Word)
    requires Mix(h, all) == Mix(Mix(start, 0), over)
    ensures h == Mix(start, all) <==> over == 0
  {
    hide Mix;
    Associate(start, 0, over);
    Inverse(h, all);
    Inverse(start, all);
    Inverse(over, start);
    Associate(start, over, start);
    Associate(over, start, start);
  }

  lemma Inverse(a: Word, b: Word)
    ensures Mix(Mix(a, b), b) == a
  {
  }

  lemma {:induction false} NothingOverwritten(l: LFList, es: seq<Entry>)
    requires AllHashable(es) && NoRepeats(es) && forall i :: 0 <= i < |es| ==> Held(l, PlaceOf(es[i])).None?
    ensures Overwritten(l, es) == []
    decreases es
  {
    if es != [] {
      PutHolds(l, es[0]);
      hide Put, Held;
      assert Held(l, PlaceOf(es[0])).None?;
      forall i | 0 <= i < |es[1..]| ensures Held(Put(l, es[0]), PlaceOf(es[1..][i])).None? {
        assert es[1..][i] == es[i + 1] && PlaceOf(es[0]) != PlaceOf(es[i + 1]);
      }
      NothingOverwritten(Put(l, es[0]), es[1..]);
    }
  }

  // ---------- the text ----------

  datatype Meaning = Skip | Header(name: string) | Puts(entry: Entry)

  /** The key after a dollar sign, which may stand apart from it, and the tokens after the key. */
  datatype Keyed = Keyed(key: string, rest: seq<string>) | NoKey

  function KeyOf(token: string, rest: seq<string>): Keyed
    requires token != [] && token[0] == '$'
  {
    if token != "$" then Keyed(token[1..], rest) else if rest != [] then Keyed(rest[0], rest[1..]) else NoKey
  }

  function FirstNumber(tokens: seq<string>): Option<U32> {
    if tokens == [] then None
    else
      var n := ParseNumber(tokens[0], 0x1_0000_0000);
      if n.Some? then Some(n.value) else None
  }

  /** What one line says. */
  function Reading(raw: string): Meaning {
    var line := Trim(raw);
    if line == [] || line[0] == '#' then Skip
    else if line[0] == '!' then Header(line[1..])
    else
      var tokens := Tokens(line);
      if tokens == [] then Skip
      else if tokens[0][0] == '$' then
        var k := KeyOf(tokens[0], tokens[1..]);
        if k.NoKey? || FirstNumber(k.rest).None? then Skip else Puts(Limit(k.key, FirstNumber(k.rest).value))
      else
        var code := FirstNumber(tokens);
        if code.None? || |tokens| < 2 then Skip
        else if tokens[1][0] == '$' then
          var k := KeyOf(tokens[1], tokens[2..]);
          if k.NoKey? || FirstNumber(k.rest).None? then Skip else Puts(Cost(code.value, k.key, FirstNumber(k.rest).value))
        else
          var count := ParseNumber(tokens[1], 0x100);
          if count.Some? && count.value <= 2 then Puts(Card(code.value, count.value)) else Skip
  }

  lemma ReadingIsHashable(raw: string)
    ensures Reading(raw).Puts? ==> Hashable(Reading(raw).entry)
  {
    hide Tokens, Trim, ParseNumber;
  }

  /** A dollar sign with a key and a number limit the credit. */
  lemma {:induction false} LimitLineReads(key: string, limit: nat)
    requires Solid(key)
    ensures var line := "$" + key + " " + Decimal(limit);
      Plain(line) && Reading(line) == if limit < 0x1_0000_0000 then Puts(Limit(key, limit)) else Skip
  {
    var token := DollarToken(key);
    SolidDecimal(limit);
    TwoTokens(token, Decimal(limit));
    ParsedDecimal(limit, 0x1_0000_0000);
    WordsArePlain(token + " " + Decimal(limit));
    TrimPlain(token + " " + Decimal(limit));
    hide Tokens, Trim, ParseNumber, Decimal, IsSpace, Solid;
  }

  /** The key may stand apart from its dollar sign. */
  lemma {:induction false} LoneDollarReads(key: string, code: nat, n: nat)
    requires Solid(key)
    ensures var line := "$" + " " + key + " " + Decimal(n);
      Plain(line) && Reading(line) == if n < 0x1_0000_0000 then Puts(Limit(key, n)) else Skip
    ensures var line := Decimal(code) + " " + "$" + " " + key + " " + Decimal(n);
      Plain(line) && Reading(line) == if code < 0x1_0000_0000 && n < 0x1_0000_0000 then Puts(Cost(code, key, n)) else Skip
  {
    hide Tokens, Trim, ParseNumber, Decimal, IsSpace, Solid, Plain;
    DollarIsSolid();
    SolidDecimal(code);
    SolidDecimal(n);
    ParsedDecimal(code, 0x1_0000_0000);
    ParsedDecimal(n, 0x1_0000_0000);
    ThreeTokens("$", key, Decimal(n));
    ThreeWordsPlain("$", key, Decimal(n));
    TrimPlain("$" + " " + key + " " + Decimal(n));
    FourTokens(Decimal(code), "$", key, Decimal(n));
    TrimPlain(Decimal(code) + " " + "$" + " " + key + " " + Decimal(n));
  }

  lemma DollarIsSolid()
    ensures Solid("$")
  {
    assert !IsSpace('$');
  }

  lemma {:induction false} FourTokens(a: string, b: string, c: string, d: string)
    requires Solid(a) && Solid(b) && Solid(c) && Solid(d)
    ensures Tokens(a + " " + b + " " + c + " " + d) == [a, b, c, d] && Plain(a + " " + b + " " + c + " " + d)
  {
    hide Tokens, IsSpace, Solid, Plain;
    var rest := b + " " + c + " " + d;
    ThreeTokens(b, c, d);
    TokenAfterSpace(rest);
    TokenFirst(a, " " + rest);
    assert a + " " + b + " " + c + " " + d == a + (" " + rest);
    ThreeWordsPlain(b, c, d);
    WordBeforePlain(a, rest);
  }

  lemma WordBeforePlain(a: string, rest: string)
    requires Solid(a) && Plain(rest)
    ensures Plain(a + (" " + rest))
  {
    assert IsSpace('\n');
    var line := a + (" " + rest);
    assert line[|line| - 1] == rest[|rest| - 1] && line[0] == a[0];
  }

  /** A dollar sign without a key, and a key without a number, say nothing. */
  lemma {:induction false} IncompleteLines(key: string, code: nat)
    requires Solid(key)
    ensures Reading("$") == Skip && Reading("$" + key) == Skip && Reading(Decimal(code)) == Skip
    ensures Reading(Decimal(code) + " " + ("$" + key)) == Skip
  {
    hide Trim, ParseNumber, Decimal, IsSpace, Plain;
    DollarIsSolid();
    SolidDecimal(code);
    var token := DollarToken(key);
    OneToken("$");
    OneToken(token);
    OneToken(Decimal(code));
    TwoTokens(Decimal(code), token);
    TwoWordsPlain(Decimal(code), token);
    TrimPlain(Decimal(code) + " " + token);
    hide Tokens, Solid;
  }

  lemma {:induction false} OneToken(a: string)
    requires Solid(a)
    ensures Tokens(a) == [a] && Trim(a) == a
  {
    TokenFirst(a, "");
    assert a + "" == a && Tokens("") == [];
    assert IsSpace('\n');
    TrimPlain(a);
  }

  lemma TwoWordsPlain(a: string, b: string)
    requires Solid(a) && Solid(b)
    ensures Plain(a + " " + b)
  {
    WordsArePlain(a + " " + b);
    hide IsSpace;
  }

  /** A code, a dollar sign with a key, and a credit say what the card costs; numbers of more than 32 bits say nothing. */
  lemma {:induction false} CostLineReads(code: nat, key: string, credit: nat)
    requires Solid(key)
    ensures var line := Decimal(code) + " " + ("$" + key) + " " + Decimal(credit);
      Plain(line) &&
      Reading(line) == if code < 0x1_0000_0000 && credit < 0x1_0000_0000 then Puts(Cost(code, key, credit)) else Skip
  {
    hide Tokens, Trim, ParseNumber, Decimal, IsSpace, Solid, Plain;
    var token := DollarToken(key);
    SolidDecimal(code);
    SolidDecimal(credit);
    ThreeTokens(Decimal(code), token, Decimal(credit));
    ParsedDecimal(code, 0x1_0000_0000);
    ParsedDecimal(credit, 0x1_0000_0000);
    ThreeWordsPlain(Decimal(code), token, Decimal(credit));
    TrimPlain(Decimal(code) + " " + token + " " + Decimal(credit));
  }

  lemma ThreeWordsPlain(a: string, b: string, c: string)
    requires Solid(a) && Solid(b) && Solid(c)
    ensures Plain(a + " " + b + " " + c)
  {
    WordsArePlain(a + " " + b + " " + c);
    hide IsSpace;
  }

  lemma DollarToken(key: string) returns (token: string)
    requires Solid(key)
    ensures token == "$" + key && Solid(token) && token != "$" && token[1..] == key
  {
    token := "$" + key;
    assert !IsSpace('$');
  }

  /** A code and a count put the card into the list with that count, if the count is at most two; other counts say nothing. */
  lemma {:induction false} CardLineReads(code: nat, count: nat)
    ensures var line := Decimal(code) + " " + Decimal(count);
      Plain(line) && Reading(line) == if code < 0x1_0000_0000 && count <= 2 then Puts(Card(code, count)) else Skip
  {
    var line := Decimal(code) + " " + Decimal(count);
    SolidDecimal(code);
    SolidDecimal(count);
    TwoTokens(Decimal(code), Decimal(count));
    ParsedDecimal(code, 0x1_0000_0000);
    ParsedDecimal(count, 0x100);
    WordsArePlain(line);
    TrimPlain(line);
    hide Tokens, Trim, ParseNumber, Decimal, IsSpace, Solid;
  }

  /** A list header and the entries below it. */
  datatype Section = Section(name: string, entries: seq<Entry>)

  function Sections(lines: seq<string>): (sections: seq<Section>)
    ensures forall i :: 0 <= i < |sections| ==> forall j :: 0 <= j < |sections[i].entries| ==> Hashable(sections[i].entries[j])
    decreases |lines|
  {
    if lines == [] then []
    else
      var before := Sections(lines[..|lines| - 1]);
      ReadingIsHashable(lines[|lines| - 1]);
      match Reading(lines[|lines| - 1])
      case Skip => before
      case Header(name) => before + [Section(name, [])]
      case Puts(e) =>
        if before == [] then []
        else
          var last := before[|before| - 1];
          before[|before| - 1 := last.(entries := last.entries + [e])]
  }

  lemma {:induction false} PutLast(l: LFList, es: seq<Entry>, e: Entry)
    requires AllHashable(es) && Hashable(e)
    ensures AllHashable(es + [e]) && PutAll(l, es + [e]) == Put(PutAll(l, es), e)
    decreases es
  {
    hide Put;
    if es == [] {
      assert ([] + [e])[1..] == [];
    } else {
      assert (es + [e])[1..] == es[1..] + [e];
      PutLast(Put(l, es[0]), es[1..], e);
    }
  }

  lemma {:induction false} PutNone(l: LFList)
    ensures PutAll(l, []) == l
  {
  }

  // ---------- lists there and back ----------

  /** Headers and comments. */
  lemma OtherLinesRead(name: string, comment: string)
    ensures Plain("!" + name) ==> Reading("!" + name) == Header(name)
    ensures Reading("#" + comment) == Skip && Reading("") == Skip
  {
    if Plain("!" + name) { TrimPlain("!" + name); }
    assert ("!" + name)[1..] == name;
    assert Trim("") == "";
    assert !IsSpace('#') && TrimStart("#" + comment) == "#" + comment;
    TrimEndStart("#" + comment);
    hide Trim, Tokens, IsSpace;
  }

  /** An entry as the format writes it. */
  ghost function LineOf(e: Entry): string {
    match e
    case Card(code, count) => Decimal(code) + " " + Decimal(count)
    case Limit(key, limit) => "$" + key + " " + Decimal(limit)
    case Cost(code, key, credit) => Decimal(code) + " " + ("$" + key) + " " + Decimal(credit)
  }

  ghost function LinesOf(es: seq<Entry>): seq<string> { seq(|es|, i requires 0 <= i < |es| => LineOf(es[i])) }

  /** A count the list keeps, or a key without white space. */
  ghost predicate Writable(e: Entry) { if e.Card? then e.count <= 2 else Solid(e.key) }

  lemma LineReads(e: Entry)
    requires Writable(e)
    ensures Plain(LineOf(e)) && Reading(LineOf(e)) == Puts(e)
  {
    hide Reading, Plain, Solid, Decimal;
    match e
    case Card(code, count) => CardLineReads(code, count);
    case Limit(key, limit) => LimitLineReads(key, limit);
    case Cost(code, key, credit) => CostLineReads(code, key, credit);
  }

  /** A list written out, header first, is parsed back entry by entry. */
  lemma {:induction false} ListThereAndBack(name: string, es: seq<Entry>)
    requires Plain("!" + name) && forall i :: 0 <= i < |es| ==> Writable(es[i])
    ensures Sections(Lines(Join(["!" + name] + LinesOf(es)))) == [Section(name, es)]
  {
    hide Reading, Plain, LineOf, Writable, Lines;
    var lines := ["!" + name] + LinesOf(es);
    forall i | 0 <= i < |es| ensures Plain(LineOf(es[i])) { LineReads(es[i]); }
    LinesOfJoin(lines);
    OtherLinesRead(name, "");
    SectionGrows(name, es, lines, |es|);
    assert lines[..|es| + 1] == lines && es[..|es|] == es;
  }

  lemma {:induction false} SectionGrows(name: string, es: seq<Entry>, lines: seq<string>, n: nat)
    requires n <= |es| && lines == ["!" + name] + LinesOf(es)
    requires Reading("!" + name) == Header(name) && forall i :: 0 <= i < |es| ==> Writable(es[i])
    ensures Sections(lines[..n + 1]) == [Section(name, es[..n])]
    decreases n
  {
    hide Reading, LineOf, Writable;
    var here := lines[..n + 1];
    assert here[..n] == lines[..n];
    if n == 0 {
      assert here[0] == "!" + name && lines[..0] == [];
      assert Sections(here) == [] + [Section(name, [])];
    } else {
      SectionGrows(name, es, lines, n - 1);
      LineReads(es[n - 1]);
      assert here[n] == LineOf(es[n - 1]);
      assert es[..n] == es[..n - 1] + [es[n - 1]];
    }
  }

  /** What a list holds after its lines: for each place the last entry given for it, and for all others nothing. */
  lemma {:induction false} LastEntryHolds(l: LFList, es: seq<Entry>, p: Place)
    requires AllHashable(es)
    ensures (forall i :: 0 <= i < |es| ==> PlaceOf(es[i]) != p) ==> Held(PutAll(l, es), p) == Held(l, p)
    ensures forall i :: 0 <= i < |es| && PlaceOf(es[i]) == p && (forall j :: i < j < |es| ==> PlaceOf(es[j]) != p) ==>
      Held(PutAll(l, es), p) == Some(es[i])
    decreases es
  {
    hide Held, Put, PlaceOf;
    if es != [] {
      PutHolds(l, es[0]);
      LastEntryHolds(Put(l, es[0]), es[1..], p);
    }
  }

  /**
  In terms of the list's own maps: a card has the count of its last line, a credit the limit of its last line, a card
  costs what its last line for that credit says; cards never listed have no count, and cost nothing.
  */
  lemma {:induction false} ListSays(name: string, es: seq<Entry>, i: nat)
    requires AllHashable(es) && i < |es| && forall j :: i < j < |es| ==> PlaceOf(es[j]) != PlaceOf(es[i])
    ensures var l := PutAll(New(name), es);
      match es[i]
      case Card(code, count) => code in l.content && l.content[code] == count
      case Limit(key, limit) => key in l.creditLimits && l.creditLimits[key] == limit
      case Cost(code, key, credit) => Credit(l, code, key) == credit
  {
    LastEntryHolds(New(name), es, PlaceOf(es[i]));
    hide PutAll;
  }

  lemma {:induction false} ListSaysNoMore(name: string, es: seq<Entry>, code: U32, key: string)
    requires AllHashable(es)
    ensures var l := PutAll(New(name), es);
      && (code in l.content ==> exists i :: 0 <= i < |es| && PlaceOf(es[i]) == CardPlace(code))
      && (key in l.creditLimits ==> exists i :: 0 <= i < |es| && PlaceOf(es[i]) == LimitPlace(key))
      && (Credit(l, code, key) > 0 ==> exists i :: 0 <= i < |es| && PlaceOf(es[i]) == CostPlace(code, key))
  {
    NewHoldsNothing(name);
    LastEntryHolds(New(name), es, CardPlace(code));
    LastEntryHolds(New(name), es, LimitPlace(key));
    LastEntryHolds(New(name), es, CostPlace(code, key));
    hide PutAll, PlaceOf;
  }

  // ---------- as objects and loops ----------

  class ListState {
    var list: LFList

    constructor (name: string)
      ensures list == New(name)
    {
      list := New(name);
    }

    method PushCard(code: U32, count: U8)
      requires Shiftable(count)
      modifies this
      ensures list == Put(old(list), Card(code, count))
    {
      list := list.(content := list.content[code := count]);
      list := list.(hash := Mix(list.hash, CardTerm(code, count)));
    }

    method PushCreditLimit(key: string, limit: U32)
      modifies this
      ensures list == Put(old(list), Limit(key, limit))
    {
      list := list.(creditLimits := list.creditLimits[key := limit]);
      UpdateCreditHash(CreditHash(key), limit as bv32, CREDIT_MARKER);
    }

    method PushCredit(code: U32, key: string, credit: U32)
      modifies this
      ensures list == Put(old(list), Cost(code, key, credit))
    {
      var costs := if code in list.credits then list.credits[code] else map[];
      list := list.(credits := list.credits[code := costs[key := credit]]);
      UpdateCreditHash(code as bv32, CreditHash(key), credit as bv32);
    }

    method UpdateCreditHash(first: Word, second: Word, third: Word)
      modifies this
      ensures list == old(list).(hash := Mix(old(list).hash, CreditTerm(first, second, third)))
    {
      list := list.(hash := Mix(list.hash, CreditTerm(first, second, third)));
    }

    /** Computes the hash anew, walking each map in some order. */
    method CalculateHash(codes: seq<U32>, keys: seq<string>, costs: seq<(U32, string)>)
      requires HoldsHashable(list)
      requires Enumerates(Listing(list, codes, keys, costs), list)
      modifies this
      ensures AllHashable(Listing(old(list), codes, keys, costs))
      ensures list == old(list).(hash := Mix(HASH_INITIAL_VALUE, Xor(Listing(old(list), codes, keys, costs))))
    {
      hide Term, Mix, Enumerates, Xor, HeldAt;
      EnumeratedHashable(Listing(list, codes, keys, costs), list);
      var cards, limits, credits := CardsOf(list, codes), LimitsOf(list, keys), CostsOf(list, costs);
      TermsInParts(cards, limits, credits);
      var hash := AddTerms(HASH_INITIAL_VALUE, cards);
      hash := AddTerms(hash, limits);
      hash := AddTerms(hash, credits);
      Associate(HASH_INITIAL_VALUE, Xor(cards), Xor(limits));
      Associate(HASH_INITIAL_VALUE, Mix(Xor(cards), Xor(limits)), Xor(credits));
      list := list.(hash := hash);
    }

    static method AddTerms(start: Word, entries: seq<Entry>) returns (hash: Word)
      requires AllHashable(entries)
      ensures hash == Mix(start, Xor(entries))
    {
      hide Term, Mix;
      hash := start;
      NoneYet(start, entries);
      for i := 0 to |entries|
        invariant hash == Mix(start, Xor(entries[..i]))
      {
        OneMoreTerm(start, entries, i);
        hash := Mix(hash, Term(entries[i]));
      }
      assert entries[..|entries|] == entries;
    }
  }

  lemma {:induction false} TermsInParts(a: seq<Entry>, b: seq<Entry>, c: seq<Entry>)
    requires AllHashable(a + b + c)
    ensures AllHashable(a) && AllHashable(b) && AllHashable(c) && Xor(a + b + c) == Mix(Mix(Xor(a), Xor(b)), Xor(c))
  {
    hide Xor, Mix;
    assert forall i :: 0 <= i < |a| ==> a[i] == (a + b + c)[i];
    assert forall i :: 0 <= i < |b| ==> b[i] == (a + b + c)[|a| + i];
    assert forall i :: 0 <= i < |c| ==> c[i] == (a + b + c)[|a| + |b| + i];
    XorAppend(a, b);
    XorAppend(a + b, c);
  }

  lemma NoneYet(hash: Word, all: seq<Entry>)
    requires AllHashable(all)
    ensures Mix(hash, Xor(all[..0])) == hash
  {
    Associate(hash, 0, 0);
  }

  lemma OneMoreTerm(hash: Word, all: seq<Entry>, i: nat)
    requires AllHashable(all) && i < |all|
    ensures Mix(Mix(hash, Xor(all[..i])), Term(all[i])) == Mix(hash, Xor(all[..i + 1]))
  {
    hide Term, Mix, Xor;
    assert all[..i + 1] == all[..i] + [all[i]];
    XorAppend(all[..i], [all[i]]);
    XorOne(all[i]);
    Associate(hash, Xor(all[..i]), Term(all[i]));
  }

  /** The entries of a list in the order the three maps are walked. */
  function Listing(l: LFList, codes: seq<U32>, keys: seq<string>, costs: seq<(U32, string)>): seq<Entry> {
    CardsOf(l, codes) + LimitsOf(l, keys) + CostsOf(l, costs)
  }

  function CardsOf(l: LFList, codes: seq<U32>): seq<Entry> {
    HeldAt(l, seq(|codes|, i requires 0 <= i < |codes| => CardPlace(codes[i])))
  }

  function LimitsOf(l: LFList, keys: seq<string>): seq<Entry> {
    HeldAt(l, seq(|keys|, i requires 0 <= i < |keys| => LimitPlace(keys[i])))
  }

  function CostsOf(l: LFList, costs: seq<(U32, string)>): seq<Entry> {
    HeldAt(l, seq(|costs|, i requires 0 <= i < |costs| => CostPlace(costs[i].0, costs[i].1)))
  }

  function HeldAt(l: LFList, places: seq<Place>): seq<Entry> {
    if places == [] then []
    else (if Held(l, places[0]).Some? then [Held(l, places[0]).value] else []) + HeldAt(l, places[1..])
  }

  /** Parses line by line, keeping the hash of the list at hand up to date. */
  method ParseContent(content: string) returns (lists: seq<LFList>)
    ensures var sections := Sections(Lines(content));
      && |lists| == |sections|
      && forall i :: 0 <= i < |lists| ==> lists[i] == PutAll(New(sections[i].name), sections[i].entries)
  {
    hide Reading, Put, Lines, PutAll;
    var lines := Lines(content);
    lists := [];
    for n := 0 to |lines|
      invariant |lists| == |Sections(lines[..n])|
      invariant forall i :: 0 <= i < |lists| ==> lists[i] == PutAll(New(Sections(lines[..n])[i].name), Sections(lines[..n])[i].entries)
    {
      ghost var before := Sections(lines[..n]);
      assert lines[..n + 1][..n] == lines[..n] && lines[..n + 1][n] == lines[n];
      ReadingIsHashable(lines[n]);
      match Reading(lines[n])
      case Skip =>
      case Header(name) =>
        PutNone(New(name));
        lists := lists + [New(name)];
      case Puts(e) =>
        if lists != [] {
          PutLast(New(before[|lists| - 1].name), before[|lists| - 1].entries, e);
          lists := lists[|lists| - 1 := Put(lists[|lists| - 1], e)];
        }
    }
    assert lines[..|lines|] == lines;
  }

  /**
  Every list of a parsed text has the hash that computing it anew gives, whatever the order of the maps, if and only
  if the terms of its replaced lines cancel out; in particular if its section repeats no place.
  */
  lemma {:induction false} ParsedListsHash(content: string, i: nat, codes: seq<U32>, keys: seq<string>, costs: seq<(U32, string)>)
    requires i < |Sections(Lines(content))|
    requires var s := Sections(Lines(content))[i];
      Enumerates(Listing(PutAll(New(s.name), s.entries), codes, keys, costs), PutAll(New(s.name), s.entries))
    ensures var s := Sections(Lines(content))[i];
      var l := PutAll(New(s.name), s.entries);
      var all := Listing(l, codes, keys, costs);
      && AllHashable(all) && AllHashable(Overwritten(New(s.name), s.entries))
      && (l.hash == Mix(HASH_INITIAL_VALUE, Xor(all)) <==> Xor(Overwritten(New(s.name), s.entries)) == 0)
      && (NoRepeats(s.entries) ==> l.hash == Mix(HASH_INITIAL_VALUE, Xor(all)))
  {
    var s := Sections(Lines(content))[i];
    ParsedHash(s.name, s.entries, Listing(PutAll(New(s.name), s.entries), codes, keys, costs));
  }
}
