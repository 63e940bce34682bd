/** Card query records (`ygopro-data/src/data/query.rs`). */
module Query {
  // A record is a length, a header of flags, and one field for every flag set. The length is written
  // last, over a placeholder.

  import opened Options
  import opened Wire

  datatype InfoLocation = InfoLocation(controller: CorePlayer, location: U8, sequence: U8, position: U8, overlaySequence: U8)

  datatype CardPosition = CardPosition(controller: CorePlayer, location: U8, sequence: I8, sub: I8)

  datatype QueryData =
    | Clear
    | Code(code: I32)
    | Position(at: InfoLocation)
    | Alias(alias: I32)
    | Type(cardType: U32)
    | Level(level: I32)
    | Rank(rank: I32)
    | Attribute(attribute: U32)
    | Race(race: U32)
    | Attack(attack: I32)
    | Defense(defense: I32)
    | BaseAttack(baseAttack: I32)
    | BaseDefense(baseDefense: I32)
    | Reason(reason: U32)
    | ReasonCard(card: I32)
    | EquipCard(target: CardPosition)
    | TargetCard(targets: seq<CardPosition>)
    | OverlayCard(codes: seq<U32>)
    | Counters(counters: seq<(U16, U16)>)
    | Owner(owner: CorePlayer)
    | Status(status: U32)
    | LeftScale(leftScale: I32)
    | RightScale(rightScale: I32)
    | Link(link: I32, markers: U32)

  datatype UpdateCardInfo = Empty | Data(queries: seq<QueryData>)

  // ---------- flags ----------

  /** The bit of the flag header that announces a field; bit 20 is not used. */
  function BitOf(q: QueryData): nat
    requires !q.Clear?
  {
    match q
    case Code(_) => 0
    case Position(_) => 1
    case Alias(_) => 2
    case Type(_) => 3
    case Level(_) => 4
    case Rank(_) => 5
    case Attribute(_) => 6
    case Race(_) => 7
    case Attack(_) => 8
    case Defense(_) => 9
    case BaseAttack(_) => 10
    case BaseDefense(_) => 11
    case Reason(_) => 12
    case ReasonCard(_) => 13
    case EquipCard(_) => 14
    case TargetCard(_) => 15
    case OverlayCard(_) => 16
    case Counters(_) => 17
    case Owner(_) => 18
    case Status(_) => 19
    case LeftScale(_) => 21
    case RightScale(_) => 22
    case Link(_, _) => 23
  }

  const BITS: nat := 24

  predicate IsBit(k: nat) { k < BITS && k != 20 }

  function Pow2(k: nat): nat { if k == 0 then 1 else 2 * Pow2(k - 1) }

  function FlagOf(q: QueryData): nat { if q.Clear? then 0 else Pow2(BitOf(q)) }

  /** The header as it is computed: the sum of all flags. */
  function FlagSum(qs: seq<QueryData>): nat {
    if qs == [] then 0 else FlagOf(qs[0]) + FlagSum(qs[1..])
  }

  /** `n` without its `k` lowest bits. */
  function Drop(n: nat, k: nat): nat { if k == 0 then n else Drop(n / 2, k - 1) }

  predicate Bit(n: nat, k: nat) { Drop(n, k) % 2 == 1 }

  // ---------- writing ----------

  predicate OnOverlay(location: U8) { location >= 0x80 }

  function EncodeInfo(at: InfoLocation): Bytes {
    [at.controller, at.location, at.sequence, if OnOverlay(at.location) then at.overlaySequence else at.position]
  }

  function EncodePosition(at: CardPosition): Bytes {
    [at.controller, at.location, SignedByte(at.sequence), SignedByte(at.sub)]
  }

  function EncodePositions(list: seq<CardPosition>): Bytes {
    if list == [] then [] else EncodePosition(list[0]) + EncodePositions(list[1..])
  }

  function EncodeCounters(list: seq<(U16, U16)>): Bytes {
    if list == [] then [] else Le16(list[0].0) + Le16(list[0].1) + EncodeCounters(list[1..])
  }

  function Count(length: nat): Bytes { Le32(length % 0x1_0000_0000) }

  /** The fields that are one number, as the bits of that number. */
  function NumberOf(q: QueryData): Option<U32> {
    match q
    case Code(x) => Some(Signed(x))
    case Alias(x) => Some(Signed(x))
    case Type(x) => Some(x)
    case Level(x) => Some(Signed(x))
    case Rank(x) => Some(Signed(x))
    case Attribute(x) => Some(x)
    case Race(x) => Some(x)
    case Attack(x) => Some(Signed(x))
    case Defense(x) => Some(Signed(x))
    case BaseAttack(x) => Some(Signed(x))
    case BaseDefense(x) => Some(Signed(x))
    case Reason(x) => Some(x)
    case ReasonCard(x) => Some(Signed(x))
    case Status(x) => Some(x)
    case LeftScale(x) => Some(Signed(x))
    case RightScale(x) => Some(Signed(x))
    case _ => None
  }

  function EncodeField(q: QueryData): Bytes {
    match q
    case Clear => []
    case Position(at) => EncodeInfo(at)
    case EquipCard(at) => EncodePosition(at)
    case TargetCard(list) => Count(|list|) + EncodePositions(list)
    case OverlayCard(list) => Count(|list|) + Words32(list)
    case Counters(list) => Count(|list|) + EncodeCounters(list)
    case Owner(owner) => [owner, 0, 0, 0]
    case Link(link, markers) => Le32(Signed(link)) + Le32(markers)
    case _ => Le32(NumberOf(q).value)
  }

  function EncodeFields(qs: seq<QueryData>): Bytes {
    if qs == [] then [] else EncodeField(qs[0]) + EncodeFields(qs[1..])
  }

  function Size(info: UpdateCardInfo): nat {
    if info.Empty? then 4 else 8 + |EncodeFields(info.queries)|
  }

  /** A record whose length does not fit its field cannot be written. */
  function Encode(info: UpdateCardInfo): Bytes
    requires Size(info) < 0x1_0000_0000
  {
    if info.Empty? then Le32(4)
    else Le32(Size(info)) + Le32(FlagSum(info.queries) % 0x1_0000_0000) + EncodeFields(info.queries)
  }

  function EncodeAll(infos: seq<UpdateCardInfo>): Bytes
    requires forall i :: 0 <= i < |infos| ==> Size(infos[i]) < 0x1_0000_0000
  {
    if infos == [] then [] else Encode(infos[0]) + EncodeAll(infos[1..])
  }

  // ---------- reading ----------

  function TakeInfo(s: Bytes): Read<InfoLocation> {
    match TakeCorePlayer(s)
    case Failed(error) => Failed(error)
    case Got(controller, rest) =>
      if |rest| < 3 then Failed(Eof)
      else if OnOverlay(rest[0]) then Got(InfoLocation(controller, rest[0], rest[1], 0, rest[2]), rest[3..])
      else Got(InfoLocation(controller, rest[0], rest[1], rest[2], 0), rest[3..])
  }

  function TakePosition(s: Bytes): Read<CardPosition> {
    match TakeCorePlayer(s)
    case Failed(error) => Failed(error)
    case Got(controller, rest) =>
      if |rest| < 3 then Failed(Eof)
      else Got(CardPosition(controller, rest[0], UnsignedByte(rest[1]), UnsignedByte(rest[2])), rest[3..])
  }

  function TakePositions(s: Bytes, count: nat): Read<seq<CardPosition>>
    decreases count
  {
    if count == 0 then Got([], s)
    else
      match TakePosition(s)
      case Failed(error) => Failed(error)
      case Got(x, rest) =>
        match TakePositions(rest, count - 1)
        case Failed(error) => Failed(error)
        case Got(list, left) => Got([x] + list, left)
  }

  function TakeCounters(s: Bytes, count: nat): Read<seq<(U16, U16)>>
    decreases count
  {
    if count == 0 then Got([], s)
    else
      match TakeCounter(s)
      case Failed(error) => Failed(error)
      case Got(x, rest) =>
        match TakeCounters(rest, count - 1)
        case Failed(error) => Failed(error)
        case Got(list, left) => Got([x] + list, left)
  }

  function TakeCounter(s: Bytes): Read<(U16, U16)> {
    match TakeU16(s)
    case Failed(error) => Failed(error)
    case Got(kind, rest) =>
      match TakeU16(rest)
      case Failed(error) => Failed(error)
      case Got(count, left) => Got((kind, count), left)
  }

  function OfNumber(bit: nat, x: U32): QueryData
    requires IsNumber(bit)
  {
    if bit == 0 then Code(Unsigned(x))
    else if bit == 2 then Alias(Unsigned(x))
    else if bit == 3 then Type(x)
    else if bit == 4 then Level(Unsigned(x))
    else if bit == 5 then Rank(Unsigned(x))
    else if bit == 6 then Attribute(x)
    else if bit == 7 then Race(x)
    else if bit == 8 then Attack(Unsigned(x))
    else if bit == 9 then Defense(Unsigned(x))
    else if bit == 10 then BaseAttack(Unsigned(x))
    else if bit == 11 then BaseDefense(Unsigned(x))
    else if bit == 12 then Reason(x)
    else if bit == 13 then ReasonCard(Unsigned(x))
    else if bit == 19 then Status(x)
    else if bit == 21 then LeftScale(Unsigned(x))
    else RightScale(Unsigned(x))
  }

  predicate IsNumber(bit: nat) { bit == 0 || 2 <= bit <= 13 || bit == 19 || bit == 21 || bit == 22 }

  function TakeField(bit: nat, s: Bytes): Read<QueryData>
    requires IsBit(bit)
  {
    if IsNumber(bit) then
      var r := TakeU32(s); if r.Failed? then Failed(r.error) else Got(OfNumber(bit, r.value), r.rest)
    else if bit == 1 then
      var r := TakeInfo(s); if r.Failed? then Failed(r.error) else Got(Position(r.value), r.rest)
    else if bit == 14 then
      var r := TakePosition(s); if r.Failed? then Failed(r.error) else Got(EquipCard(r.value), r.rest)
    else if bit == 18 then
      var r := TakeCorePlayer(s);
      if r.Failed? then Failed(r.error) else if |r.rest| < 3 then Failed(Eof) else Got(Owner(r.value), r.rest[3..])
    else if bit == 23 then
      var r := TakeU32(s);
      if r.Failed? then Failed(r.error)
      else var m := TakeU32(r.rest); if m.Failed? then Failed(m.error) else Got(Link(Unsigned(r.value), m.value), m.rest)
    else
      var n := TakeU32(s);
      if n.Failed? then Failed(n.error)
      else if bit == 15 then
        var r := TakePositions(n.rest, n.value); if r.Failed? then Failed(r.error) else Got(TargetCard(r.value), r.rest)
      else if bit == 16 then
        var r := TakeWords32(n.rest, n.value); if r.Failed? then Failed(r.error) else Got(OverlayCard(r.value), r.rest)
      else
        var r := TakeCounters(n.rest, n.value); if r.Failed? then Failed(r.error) else Got(Counters(r.value), r.rest)
  }

  /** The fields whose flags are set, from bit `k` on. */
  function TakeFields(flags: nat, k: nat, s: Bytes): Read<seq<QueryData>>
    requires k <= BITS
    decreases BITS - k
  {
    if k == BITS then Got([], s)
    else if !IsBit(k) || !Bit(flags, k) then TakeFields(flags, k + 1, s)
    else
      match TakeField(k, s)
      case Failed(error) => Failed(error)
      case Got(q, rest) =>
        match TakeFields(flags, k + 1, rest)
        case Failed(error) => Failed(error)
        case Got(qs, left) => Got([q] + qs, left)
  }

  function TakeQueries(s: Bytes): Read<seq<QueryData>> {
    match TakeU32(s)
    case Failed(error) => Failed(error)
    case Got(flags, rest) =>
      match TakeFields(flags, 0, rest)
      case Failed(error) => Failed(error)
      case Got(qs, left) => Got((if flags == 0 then [Clear] else []) + qs, left)
  }

  /** After the fields the reader goes to where the announced length ends. */
  function TakeRecord(s: Bytes): Read<UpdateCardInfo> {
    match TakeU32(s)
    case Failed(error) => Failed(error)
    case Got(length, rest) =>
      if length == 4 then Got(Empty, rest)
      else
        match TakeQueries(rest)
        case Failed(error) => Failed(error)
        case Got(qs, _) => Got(Data(qs), RestOf(s, length))
  }

  /** Reading records until the input ends gives `infos`. */
  predicate ReadsAs(s: Bytes, infos: seq<UpdateCardInfo>)
    decreases |infos|
  {
    if infos == [] then TakeRecord(s) == Failed(Eof)
    else TakeRecord(s).Got? && TakeRecord(s).value == infos[0] && ReadsAs(TakeRecord(s).rest, infos[1..])
  }

  /**
  What reading records until the input ends comes to: a list of records, an error that is not the end of the
  input, or a record that leads back to its own start, which the source reads again and again.
  */
  datatype Reading = Records(infos: seq<UpdateCardInfo>) | Broken(error: Error) | Endless

  function With(infos: seq<UpdateCardInfo>, reading: Reading): Reading {
    if reading.Records? then Records(infos + reading.infos) else reading
  }

  function ReadingOf(s: Bytes): Reading
    decreases |s|
  {
    match TakeRecord(s)
    case Failed(Eof) => Records([])
    case Failed(error) => Broken(error)
    case Got(info, rest) => if |s| <= |rest| then Endless else With([info], ReadingOf(rest))
  }

  // ---------- well-formed records ----------

  /** A location stores only the field its wire form has room for. */
  predicate CanonicalInfo(at: InfoLocation) {
    if OnOverlay(at.location) then at.position == 0 else at.overlaySequence == 0
  }

  predicate Canonical(q: QueryData) { q.Position? ==> CanonicalInfo(q.at) }

  /** Fields in strictly increasing flag order, all from bit `k` on. */
  predicate Increasing(qs: seq<QueryData>, k: nat) {
    qs == [] || (!qs[0].Clear? && k <= BitOf(qs[0]) && Increasing(qs[1..], BitOf(qs[0]) + 1))
  }

  predicate WellFormed(info: UpdateCardInfo) {
    info.Data? ==>
      && (forall i :: 0 <= i < |info.queries| ==> Canonical(info.queries[i]))
      && (info.queries == [Clear] || (info.queries != [] && Increasing(info.queries, 0)))
  }

  // ---------- one field ----------

  lemma {:induction false} PositionsBack(list: seq<CardPosition>, rest: Bytes)
    ensures TakePositions(EncodePositions(list) + rest, |list|) == Got(list, rest)
    ensures |EncodePositions(list)| == 4 * |list|
    decreases list
  {
    if list == [] {
      assert [] + rest == rest;
    } else {
      var s := EncodePositions(list) + rest;
      assert s == EncodePosition(list[0]) + (EncodePositions(list[1..]) + rest);
      PositionBack(list[0], EncodePositions(list[1..]) + rest);
      PositionsBack(list[1..], rest);
      assert [list[0]] + list[1..] == list;
    }
  }

  lemma PositionBack(at: CardPosition, rest: Bytes)
    ensures TakePosition(EncodePosition(at) + rest) == Got(at, rest)
  {
  }

  lemma {:induction false} CountersBack(list: seq<(U16, U16)>, rest: Bytes)
    ensures TakeCounters(EncodeCounters(list) + rest, |list|) == Got(list, rest)
    ensures |EncodeCounters(list)| == 4 * |list|
    decreases list
  {
    if list == [] {
      assert [] + rest == rest;
    } else {
      var (kind, count) := list[0];
      var left := EncodeCounters(list[1..]) + rest;
      assert EncodeCounters(list) + rest == Le16(kind) + (Le16(count) + left);
      TakeBack16(kind, Le16(count) + left);
      TakeBack16(count, left);
      hide TakeU16, Le16;
      CountersBack(list[1..], rest);
      assert [list[0]] + list[1..] == list;
    }
  }

  lemma FieldBack(q: QueryData, rest: Bytes)
    requires !q.Clear? && Canonical(q) && |EncodeField(q)| < 0x1_0000_0000
    ensures IsBit(BitOf(q)) && TakeField(BitOf(q), EncodeField(q) + rest) == Got(q, rest)
  {
    hide Le32, TakeU32, TakeInfo, EncodeInfo, TakePosition, EncodePosition, TakeCorePlayer, OfNumber, Count;
    if NumberOf(q).Some? {
      NumberBack(q);
      TakeBack32(NumberOf(q).value, rest);
    } else {
      WideFieldBack(q, rest);
    }
  }

  lemma WideFieldBack(q: QueryData, rest: Bytes)
    requires !q.Clear? && NumberOf(q).None? && Canonical(q) && |EncodeField(q)| < 0x1_0000_0000
    ensures IsBit(BitOf(q)) && TakeField(BitOf(q), EncodeField(q) + rest) == Got(q, rest)
  {
    hide Le32, TakeU32, TakeInfo, EncodeInfo, TakePosition, EncodePosition, TakeCorePlayer, OfNumber, Count;
    match q
    case Position(at) => InfoBack(at, rest);
    case EquipCard(at) => PositionBack(at, rest);
    case TargetCard(list) => PositionsBack(list, rest); CountBack(|list|, EncodePositions(list), rest);
    case OverlayCard(list) => TakeWordsBack32(list, rest); WordsLength32(list); CountBack(|list|, Words32(list), rest);
    case Counters(list) => CountersBack(list, rest); CountBack(|list|, EncodeCounters(list), rest);
    case Owner(owner) => OwnerBack(owner, rest);
    case Link(link, markers) =>
      assert EncodeField(q) + rest == Le32(Signed(link)) + (Le32(markers) + rest);
      TakeBack32(Signed(link), Le32(markers) + rest);
      TakeBack32(markers, rest);
    case _ =>
  }

  lemma InfoBack(at: InfoLocation, rest: Bytes)
    requires CanonicalInfo(at)
    ensures TakeInfo(EncodeInfo(at) + rest) == Got(at, rest)
  {
  }

  lemma OwnerBack(owner: CorePlayer, rest: Bytes)
    ensures var r := TakeCorePlayer([owner, 0, 0, 0] + rest); r == Got(owner, [0, 0, 0] + rest) && |r.rest| >= 3 && r.rest[3..] == rest
  {
  }

  lemma NumberBack(q: QueryData)
    requires NumberOf(q).Some?
    ensures !q.Clear? && IsNumber(BitOf(q)) && OfNumber(BitOf(q), NumberOf(q).value) == q
  {
  }

  lemma CountBack(length: nat, body: Bytes, rest: Bytes)
    requires length < 0x1_0000_0000
    ensures TakeU32(Count(length) + body + rest) == Got(length, body + rest)
  {
    assert Count(length) + body + rest == Le32(length) + (body + rest);
    TakeBack32(length, body + rest);
  }

  // ---------- the flag header ----------

  /** The flags of increasing fields, without the `k` lowest bits. */
  function Header(qs: seq<QueryData>, k: nat): nat
    requires k <= BITS
    decreases BITS - k
  {
    if k == BITS then 0
    else if qs != [] && !qs[0].Clear? && BitOf(qs[0]) == k then 1 + 2 * Header(qs[1..], k + 1)
    else 2 * Header(qs, k + 1)
  }

  lemma {:induction false} SumIsHeader(qs: seq<QueryData>, k: nat)
    requires k <= BITS && Increasing(qs, k)
    ensures FlagSum(qs) == Pow2(k) * Header(qs, k)
    decreases BITS - k
  {
    if k == BITS {
      NothingLeft(qs);
    } else {
      hide BitOf;
      if qs != [] && BitOf(qs[0]) == k {
        SumIsHeader(qs[1..], k + 1);
        Doubled(Pow2(k), Header(qs[1..], k + 1));
      } else {
        SumIsHeader(qs, k + 1);
        Doubled(Pow2(k), Header(qs, k + 1));
      }
    }
  }

  lemma {:induction false} NothingLeft(qs: seq<QueryData>)
    requires Increasing(qs, BITS)
    ensures qs == []
  {
  }

  lemma Doubled(p: nat, h: nat)
    ensures (2 * p) * h == p * (2 * h)
    ensures p + (2 * p) * h == p * (1 + 2 * h)
  {
  }

  lemma {:induction false} HeaderBound(qs: seq<QueryData>, k: nat)
    requires k <= BITS
    ensures Header(qs, k) < Pow2(BITS - k)
    decreases BITS - k
  {
    if k < BITS {
      if qs != [] { HeaderBound(qs[1..], k + 1); }
      HeaderBound(qs, k + 1);
    }
  }

  lemma {:induction false} DropStep(n: nat, k: nat)
    ensures Drop(n, k + 1) == Drop(n, k) / 2
    decreases k
  {
    if k > 0 { DropStep(n / 2, k - 1); }
  }

  /** Bit `k` of the header is set exactly if the first field left is the one of bit `k`. */
  lemma HeaderStep(flags: nat, qs: seq<QueryData>, k: nat)
    requires k < BITS && Increasing(qs, k) && Drop(flags, k) == Header(qs, k)
    ensures Bit(flags, k) <==> qs != [] && BitOf(qs[0]) == k
    ensures Drop(flags, k + 1) == Header(if Bit(flags, k) then qs[1..] else qs, k + 1)
    ensures Increasing(if Bit(flags, k) then qs[1..] else qs, k + 1)
  {
    DropStep(flags, k);
  }

  predicate Has(qs: seq<QueryData>, k: nat) { exists i :: 0 <= i < |qs| && !qs[i].Clear? && BitOf(qs[i]) == k }

  /** For fields in increasing order the sum of the flags is their bitwise union: a bit is set exactly if some field has it. */
  lemma {:induction false} SumIsUnion(qs: seq<QueryData>, bit: nat)
    requires Increasing(qs, 0)
    ensures FlagSum(qs) < 0x100_0000
    ensures bit < BITS ==> (Bit(FlagSum(qs), bit) <==> Has(qs, bit))
  {
    SumIsHeader(qs, 0);
    HeaderBound(qs, 0);
    assert Pow2(BITS) == 0x100_0000 by { PowTwentyFour(); }
    if bit < BITS { HeaderBits(FlagSum(qs), qs, 0, bit); }
  }

  lemma PowTwentyFour()
    ensures Pow2(24) == 0x100_0000
  {
    assert Pow2(8) == 0x100;
    assert Pow2(16) == 0x1_0000;
  }

  lemma {:induction false} HeaderBits(flags: nat, qs: seq<QueryData>, k: nat, bit: nat)
    requires k <= bit < BITS && Increasing(qs, k) && Drop(flags, k) == Header(qs, k)
    ensures Bit(flags, bit) <==> Has(qs, bit)
    decreases bit - k
  {
    HeaderStep(flags, qs, k);
    var rest := if Bit(flags, k) then qs[1..] else qs;
    if k == bit {
      NoLower(qs, k);
    } else {
      HeaderBits(flags, rest, k + 1, bit);
      if Bit(flags, k) {
        if i :| 0 <= i < |qs| && !qs[i].Clear? && BitOf(qs[i]) == bit { assert qs[1..][i - 1] == qs[i]; }
        if i :| 0 <= i < |rest| && !rest[i].Clear? && BitOf(rest[i]) == bit { assert qs[i + 1] == rest[i]; }
      }
    }
  }

  lemma {:induction false} NoLower(qs: seq<QueryData>, k: nat)
    requires Increasing(qs, k)
    ensures forall i :: 0 <= i < |qs| ==> !qs[i].Clear? && BitOf(qs[i]) >= k && (BitOf(qs[i]) == k ==> i == 0)
    decreases qs
  {
    if qs != [] { NoLower(qs[1..], BitOf(qs[0]) + 1); }
  }

  // ---------- records ----------

  lemma {:induction false} FieldsBack(flags: nat, k: nat, qs: seq<QueryData>, rest: Bytes)
    requires k <= BITS && Increasing(qs, k) && Drop(flags, k) == Header(qs, k)
    requires (forall i :: 0 <= i < |qs| ==> Canonical(qs[i])) && |EncodeFields(qs)| < 0x1_0000_0000
    ensures TakeFields(flags, k, EncodeFields(qs) + rest) == Got(qs, rest)
    decreases BITS - k
  {
    hide TakeField, EncodeField, Canonical;
    if k == BITS {
      NothingLeft(qs);
      assert [] + rest == rest;
    } else {
      HeaderStep(flags, qs, k);
      if Bit(flags, k) {
        var q, tail := qs[0], qs[1..];
        FieldBack(q, EncodeFields(tail) + rest);
        assert EncodeFields(qs) + rest == EncodeField(q) + (EncodeFields(tail) + rest);
        FieldsBack(flags, k + 1, tail, rest);
        assert [q] + tail == qs;
      } else {
        FieldsBack(flags, k + 1, qs, rest);
        if qs != [] { assert BitOf(qs[0]) != k; }
      }
    }
  }

  /** Whatever is read is canonical and in increasing order. */
  lemma {:induction false} FieldsAreWell(flags: nat, k: nat, s: Bytes)
    requires k <= BITS && TakeFields(flags, k, s).Got?
    ensures var qs := TakeFields(flags, k, s).value;
      Increasing(qs, k) && forall i :: 0 <= i < |qs| ==> Canonical(qs[i])
    decreases BITS - k
  {
    hide TakeField, Canonical;
    if k < BITS {
      if !IsBit(k) || !Bit(flags, k) {
        FieldsAreWell(flags, k + 1, s);
        IncreasingFrom(TakeFields(flags, k + 1, s).value, k + 1, k);
      } else {
        FieldIsWell(k, s);
        FieldsAreWell(flags, k + 1, TakeField(k, s).rest);
        var q, tail := TakeField(k, s).value, TakeFields(flags, k + 1, TakeField(k, s).rest).value;
        assert ([q] + tail)[1..] == tail;
      }
    }
  }

  lemma {:induction false} IncreasingFrom(qs: seq<QueryData>, from: nat, k: nat)
    requires Increasing(qs, from) && k <= from
    ensures Increasing(qs, k)
  {
  }

  lemma FieldIsWell(bit: nat, s: Bytes)
    requires IsBit(bit) && TakeField(bit, s).Got?
    ensures var q := TakeField(bit, s).value; !q.Clear? && BitOf(q) == bit && Canonical(q)
  {
    hide TakeU32, TakePositions, TakeCounters, TakeWords32;
  }

  /** Every record that is read is well-formed, unless only unknown flags were set. */
  lemma RecordIsWell(s: Bytes)
    requires TakeRecord(s).Got?
    ensures WellFormed(TakeRecord(s).value) || TakeRecord(s).value == Data([])
  {
    var record := TakeRecord(s).value;
    if record.Data? {
      var flags := TakeU32(TakeU32(s).rest).value;
      var fields := TakeFields(flags, 0, TakeU32(TakeU32(s).rest).rest);
      FieldsAreWell(flags, 0, TakeU32(TakeU32(s).rest).rest);
      if flags == 0 {
        NoFlags(0, TakeU32(TakeU32(s).rest).rest);
        assert [Clear] + [] == [Clear];
      } else {
        assert [] + fields.value == fields.value;
      }
      hide TakeU32;
    }
  }

  lemma {:induction false} NoFlags(k: nat, s: Bytes)
    requires k <= BITS
    ensures TakeFields(0, k, s) == Got([], s)
    decreases BITS - k
  {
    if k < BITS {
      ZeroBits(k);
      NoFlags(k + 1, s);
    }
  }

  lemma {:induction false} ZeroBits(k: nat)
    ensures Drop(0, k) == 0
    decreases k
  {
    if k > 0 { ZeroBits(k - 1); }
  }

  lemma {:induction false} HeaderFits(qs: seq<QueryData>)
    requires qs == [Clear] || Increasing(qs, 0)
    ensures FlagSum(qs) < 0x100_0000
    ensures qs != [] && qs != [Clear] ==> FlagSum(qs) != 0
    ensures qs == [Clear] ==> FlagSum(qs) == 0
  {
    if qs != [Clear] {
      SumIsUnion(qs, 0);
      if qs != [] { PowPositive(BitOf(qs[0])); }
    } else {
      assert qs[1..] == [];
    }
  }

  lemma {:induction false} PowPositive(k: nat)
    ensures Pow2(k) >= 1
    decreases k
  {
    if k > 0 { PowPositive(k - 1); }
  }

  /** The fields of a well-formed record come back from its header and body. */
  lemma {:induction false} QueriesBack(qs: seq<QueryData>, rest: Bytes)
    requires WellFormed(Data(qs)) && Size(Data(qs)) < 0x1_0000_0000
    requires qs == [Clear] || Increasing(qs, 0)
    requires qs != []
    ensures TakeQueries(Le32(FlagSum(qs) % 0x1_0000_0000) + EncodeFields(qs) + rest) == Got(qs, rest)
  {
    hide Le32, TakeU32, TakeFields, FlagSum, Increasing, EncodeFields, WellFormed;
    HeaderFits(qs);
    var flags := FlagSum(qs);
    var body := EncodeFields(qs) + rest;
    assert Le32(flags) + EncodeFields(qs) + rest == Le32(flags) + body;
    TakeBack32(flags, body);
    FieldsOfRecord(qs, rest);
    assert qs == [Clear] ==> [Clear] + [] == [Clear];
    assert [] + qs == qs;
  }

  lemma ClearIsNothing()
    ensures EncodeFields([Clear]) == []
  {
    assert [Clear][1..] == [];
  }

  lemma {:induction false} FieldsOfRecord(qs: seq<QueryData>, rest: Bytes)
    requires WellFormed(Data(qs)) && Size(Data(qs)) < 0x1_0000_0000
    ensures TakeFields(FlagSum(qs), 0, EncodeFields(qs) + rest) == Got(if qs == [Clear] then [] else qs, rest)
  {
    hide TakeFields, EncodeFields, Header;
    HeaderFits(qs);
    if qs == [Clear] {
      ClearIsNothing();
      assert [] + rest == rest;
      NoFlags(0, rest);
    } else {
      SumIsHeader(qs, 0);
      assert Pow2(0) * Header(qs, 0) == Header(qs, 0);
      FieldsBack(FlagSum(qs), 0, qs, rest);
    }
  }

  /**
  A record comes back from its bytes, consuming exactly the length it announces, if and only if it is empty, or a
  single cleared marker, or canonical fields in strictly increasing flag order.
  */
  lemma RecordRoundTrip(info: UpdateCardInfo, rest: Bytes)
    requires Size(info) < 0x1_0000_0000
    ensures |Encode(info)| == Size(info)
    ensures TakeRecord(Encode(info) + rest) == Got(info, rest) <==> WellFormed(info)
  {
    hide Le32, TakeU32, TakeQueries, FlagSum, EncodeFields, WellFormed;
    var s := Encode(info) + rest;
    if info.Empty? {
      FourBytes(4);
      TakeBack32(4, rest);
      EmptyIsWell();
    } else {
      var qs := info.queries;
      var size := Size(info);
      var tail := Le32(FlagSum(qs) % 0x1_0000_0000) + EncodeFields(qs) + rest;
      assert s == Le32(size) + tail;
      TakeBack32(size, tail);
      FourBytes(size);
      FourBytes(FlagSum(qs) % 0x1_0000_0000);
      assert |Encode(info)| == size && RestOf(s, size) == rest;
      if WellFormed(info) {
        assert qs != [] && (qs == [Clear] || Increasing(qs, 0)) by { WellFormedMeans(qs); }
        QueriesBack(qs, rest);
      } else if TakeRecord(s).Got? && TakeRecord(s).value == info {
        RecordIsWell(s);
        NothingWritten(rest);
      }
    }
  }

  lemma {:induction false} WellFormedMeans(qs: seq<QueryData>)
    requires WellFormed(Data(qs))
    ensures qs != [] && (qs == [Clear] || Increasing(qs, 0))
  {
  }

  lemma EmptyIsWell() ensures WellFormed(Empty) {}

  lemma FourBytes(x: U32) ensures |Le32(x)| == 4 {}

  /** A record without fields is read as a cleared one. */
  lemma NothingWritten(rest: Bytes)
    ensures TakeQueries(Le32(FlagSum([]) % 0x1_0000_0000) + EncodeFields([]) + rest) == Got([Clear], rest)
  {
    hide Le32, TakeU32, TakeFields;
    assert Le32(0) + [] + rest == Le32(0) + rest;
    TakeBack32(0, rest);
    NoFlags(0, rest);
    assert [Clear] + [] == [Clear];
  }

  /** Any list of well-formed records survives writing and reading until the input ends. */
  lemma {:induction false} RecordsRoundTrip(infos: seq<UpdateCardInfo>)
    requires forall i :: 0 <= i < |infos| ==> WellFormed(infos[i]) && Size(infos[i]) < 0x1_0000_0000
    ensures ReadsAs(EncodeAll(infos), infos)
    decreases infos
  {
    if infos != [] {
      RecordRoundTrip(infos[0], EncodeAll(infos[1..]));
      RecordsRoundTrip(infos[1..]);
    }
  }

  /** No input can be read as two different lists. */
  lemma {:induction false} OneReading(s: Bytes, a: seq<UpdateCardInfo>, b: seq<UpdateCardInfo>)
    requires ReadsAs(s, a) && ReadsAs(s, b)
    ensures a == b
    decreases |a|
  {
    if a != [] { OneReading(TakeRecord(s).rest, a[1..], b[1..]); }
  }

  /** A record read leads back to its own start if and only if it announces no length; any other takes some bytes. */
  lemma RecordShortens(s: Bytes)
    requires TakeRecord(s).Got?
    ensures TakeU32(s).Got?
    ensures TakeU32(s).value == 0 ==> TakeRecord(s).rest == s
    ensures TakeU32(s).value != 0 ==> |TakeRecord(s).rest| < |s|
  {
    hide TakeQueries;
  }

  /** Some list is read exactly from the inputs that neither break nor lead back, and it is the one computed. */
  lemma {:induction false} ReadsAsExactly(s: Bytes, infos: seq<UpdateCardInfo>)
    ensures ReadsAs(s, infos) <==> ReadingOf(s) == Records(infos)
    decreases |s|
  {
    hide TakeRecord;
    if TakeRecord(s).Got? {
      RecordShortens(s);
      var rest := TakeRecord(s).rest;
      if |rest| < |s| {
        if infos != [] {
          ReadsAsExactly(rest, infos[1..]);
          assert [infos[0]] + infos[1..] == infos;
          assert ReadingOf(rest).Records? ==> ([TakeRecord(s).value] + ReadingOf(rest).infos)[1..] == ReadingOf(rest).infos;
        }
      } else {
        ReadsNothing(s, infos);
      }
    }
  }

  /** An input whose next record announces no length has no reading, however long one reads. */
  lemma {:induction false} ReadsNothing(s: Bytes, infos: seq<UpdateCardInfo>)
    requires TakeRecord(s).Got? && TakeRecord(s).rest == s
    ensures !ReadsAs(s, infos)
    decreases |infos|
  {
    if infos != [] { ReadsNothing(s, infos[1..]); }
  }

  /** After the records `infos` comes one that announces no length. */
  predicate LeadsBack(s: Bytes, infos: seq<UpdateCardInfo>)
    decreases |infos|
  {
    TakeRecord(s).Got? &&
    if infos == [] then TakeU32(s).value == 0
    else TakeU32(s).value != 0 && TakeRecord(s).value == infos[0] && LeadsBack(TakeRecord(s).rest, infos[1..])
  }

  ghost predicate ComesBackNever(s: Bytes) { exists infos :: LeadsBack(s, infos) }

  lemma LeadsBackFurther(s: Bytes)
    requires TakeRecord(s).Got?
    ensures TakeU32(s).Got? && (ComesBackNever(s) <==> TakeU32(s).value == 0 || ComesBackNever(TakeRecord(s).rest))
  {
    RecordShortens(s);
    hide TakeRecord, TakeU32;
    if TakeU32(s).value == 0 {
      assert LeadsBack(s, []);
    } else {
      if ComesBackNever(TakeRecord(s).rest) {
        var infos :| LeadsBack(TakeRecord(s).rest, infos);
        assert ([TakeRecord(s).value] + infos)[1..] == infos;
        assert LeadsBack(s, [TakeRecord(s).value] + infos);
      }
      if ComesBackNever(s) {
        var infos :| LeadsBack(s, infos);
        assert LeadsBack(TakeRecord(s).rest, infos[1..]);
      }
    }
  }

  /** Eight zero bytes, an empty record without a length, are enough. */
  lemma {:induction false} ReadsForever(rest: Bytes)
    ensures ReadingOf([0, 0, 0, 0, 0, 0, 0, 0] + rest) == Endless
  {
    var s := [0, 0, 0, 0, 0, 0, 0, 0] + rest;
    assert s[4..] == [0, 0, 0, 0] + rest && s[8..] == rest;
    NoFlags(0, rest);
    ZeroRecord(s);
    assert LeadsBack(s, []);
    EndlessExactly(s);
  }

  lemma ZeroRecord(s: Bytes)
    requires |s| >= 8 && s[..8] == [0, 0, 0, 0, 0, 0, 0, 0] && TakeFields(0, 0, s[8..]) == Got([], s[8..])
    ensures TakeRecord(s).Got? && TakeU32(s).Got? && TakeU32(s).value == 0
  {
    assert s[0] == s[..8][0] && s[1] == s[..8][1] && s[2] == s[..8][2] && s[3] == s[..8][3];
    assert s[4] == s[..8][4] && s[5] == s[..8][5] && s[6] == s[..8][6] && s[7] == s[..8][7];
    assert s == Le32(0) + s[4..] && s[4..] == Le32(0) + s[8..];
    TakeBack32(0, s[4..]);
    TakeBack32(0, s[8..]);
    hide TakeU32, TakeFields;
  }

  /** The source never comes back exactly from the inputs in which a record without a length follows readable ones. */
  lemma {:induction false} EndlessExactly(s: Bytes)
    ensures ReadingOf(s) == Endless <==> ComesBackNever(s)
    decreases |s|
  {
    hide TakeRecord, TakeU32;
    if TakeRecord(s).Got? {
      RecordShortens(s);
      LeadsBackFurther(s);
      hide ComesBackNever;
      if TakeU32(s).value != 0 { EndlessExactly(TakeRecord(s).rest); }
    }
  }

  // ---------- through a cursor ----------

  /** Overwriting a placeholder in front of what was written is the same as having written it first. */
  lemma BackPatch(data: Bytes, pos: nat, placeholder: Bytes, patch: Bytes, body: Bytes)
    requires pos <= |data| && |placeholder| == |patch|
    ensures var once := Overwrite(data, pos, placeholder + body);
      pos <= |once| && Overwrite(once, pos, patch) == Overwrite(data, pos, patch + body)
  {
    var once := Overwrite(data, pos, placeholder + body);
    assert once[..pos] == data[..pos];
    assert once[pos + |patch|..] == body + if pos + |placeholder + body| <= |data| then data[pos + |placeholder + body|..] else [];
  }

  method WritePositions(list: seq<CardPosition>, w: Cursor)
    requires w.pos <= |w.data|
    modifies w
    ensures w.data == Overwrite(old(w.data), old(w.pos), EncodePositions(list)) && w.pos == old(w.pos) + |EncodePositions(list)| && w.pos <= |w.data|
  {
    hide Overwrite, EncodePosition;
    OverwriteNone(w.data, w.pos);
    ghost var written: Bytes := [];
    assert list[0..] == list;
    for i := 0 to |list|
      invariant written + EncodePositions(list[i..]) == EncodePositions(list) && w.pos <= |w.data|
      invariant w.data == Overwrite(old(w.data), old(w.pos), written) && w.pos == old(w.pos) + |written|
    {
      assert list[i..][1..] == list[i + 1..];
      OverwriteTwice(old(w.data), old(w.pos), written, EncodePosition(list[i]));
      w.Write(EncodePosition(list[i]));
      assert written + EncodePositions(list[i..]) == written + EncodePosition(list[i]) + EncodePositions(list[i + 1..]);
      written := written + EncodePosition(list[i]);
    }
    assert written + [] == written;
  }

  method WriteWords32(list: seq<U32>, w: Cursor)
    requires w.pos <= |w.data|
    modifies w
    ensures w.data == Overwrite(old(w.data), old(w.pos), Words32(list)) && w.pos == old(w.pos) + |Words32(list)| && w.pos <= |w.data|
  {
    hide Overwrite, Le32;
    OverwriteNone(w.data, w.pos);
    ghost var written: Bytes := [];
    assert list[0..] == list;
    for i := 0 to |list|
      invariant written + Words32(list[i..]) == Words32(list) && w.pos <= |w.data|
      invariant w.data == Overwrite(old(w.data), old(w.pos), written) && w.pos == old(w.pos) + |written|
    {
      assert list[i..][1..] == list[i + 1..];
      OverwriteTwice(old(w.data), old(w.pos), written, Le32(list[i]));
      w.Write(Le32(list[i]));
      assert written + Words32(list[i..]) == written + Le32(list[i]) + Words32(list[i + 1..]);
      written := written + Le32(list[i]);
    }
    assert written + [] == written;
  }

  method WriteCounters(list: seq<(U16, U16)>, w: Cursor)
    requires w.pos <= |w.data|
    modifies w
    ensures w.data == Overwrite(old(w.data), old(w.pos), EncodeCounters(list)) && w.pos == old(w.pos) + |EncodeCounters(list)| && w.pos <= |w.data|
  {
    hide Overwrite, Le16;
    OverwriteNone(w.data, w.pos);
    ghost var written: Bytes := [];
    assert list[0..] == list;
    for i := 0 to |list|
      invariant written + EncodeCounters(list[i..]) == EncodeCounters(list) && w.pos <= |w.data|
      invariant w.data == Overwrite(old(w.data), old(w.pos), written) && w.pos == old(w.pos) + |written|
    {
      assert list[i..][1..] == list[i + 1..];
      var counter := Le16(list[i].0) + Le16(list[i].1);
      OverwriteTwice(old(w.data), old(w.pos), written, counter);
      w.Write(counter);
      assert written + EncodeCounters(list[i..]) == written + counter + EncodeCounters(list[i + 1..]);
      written := written + counter;
    }
    assert written + [] == written;
  }

  method WriteField(q: QueryData, w: Cursor)
    requires w.pos <= |w.data|
    modifies w
    ensures w.data == Overwrite(old(w.data), old(w.pos), EncodeField(q)) && w.pos == old(w.pos) + |EncodeField(q)| && w.pos <= |w.data|
  {
    hide Overwrite, Count, EncodePositions, Words32, EncodeCounters, Le32, EncodeInfo, EncodePosition;
    match q
    case Clear => w.Write([]);
    case TargetCard(list) =>
      OverwriteTwice(w.data, w.pos, Count(|list|), EncodePositions(list));
      w.Write(Count(|list|));
      WritePositions(list, w);
    case OverlayCard(list) =>
      OverwriteTwice(w.data, w.pos, Count(|list|), Words32(list));
      w.Write(Count(|list|));
      WriteWords32(list, w);
    case Counters(list) =>
      OverwriteTwice(w.data, w.pos, Count(|list|), EncodeCounters(list));
      w.Write(Count(|list|));
      WriteCounters(list, w);
    case _ => w.Write(EncodeField(q));
  }

  method SumFlags(qs: seq<QueryData>) returns (flag: nat)
    ensures flag == FlagSum(qs)
  {
    flag := 0;
    assert qs[0..] == qs;
    for i := 0 to |qs|
      invariant flag + FlagSum(qs[i..]) == FlagSum(qs)
    {
      assert qs[i..][1..] == qs[i + 1..];
      flag := flag + FlagOf(qs[i]);
    }
  }

  method WriteFields(qs: seq<QueryData>, w: Cursor)
    requires w.pos <= |w.data|
    modifies w
    ensures w.data == Overwrite(old(w.data), old(w.pos), EncodeFields(qs)) && w.pos == old(w.pos) + |EncodeFields(qs)| && w.pos <= |w.data|
  {
    hide Overwrite, EncodeField;
    OverwriteNone(w.data, w.pos);
    ghost var written: Bytes := [];
    assert qs[0..] == qs;
    for i := 0 to |qs|
      invariant written + EncodeFields(qs[i..]) == EncodeFields(qs) && w.pos <= |w.data|
      invariant w.data == Overwrite(old(w.data), old(w.pos), written) && w.pos == old(w.pos) + |written|
    {
      assert qs[i..][1..] == qs[i + 1..];
      OverwriteTwice(old(w.data), old(w.pos), written, EncodeField(qs[i]));
      WriteField(qs[i], w);
      assert written + EncodeFields(qs[i..]) == written + EncodeField(qs[i]) + EncodeFields(qs[i + 1..]);
      written := written + EncodeField(qs[i]);
    }
    assert written + [] == written;
  }

  /** Writes a placeholder, the flags and the fields, then goes back and fills in the length. */
  method WriteRecord(info: UpdateCardInfo, w: Cursor) returns (ok: bool)
    requires w.pos <= |w.data|
    modifies w
    ensures ok <==> Size(info) < 0x1_0000_0000
    ensures ok ==> w.data == Overwrite(old(w.data), old(w.pos), Encode(info)) && w.pos == old(w.pos) + Size(info)
  {
    hide EncodeFields, FlagSum, Le32, Overwrite;
    var start := w.pos;
    if info.Empty? {
      FourBytes(4);
      w.Write(Le32(4));
      return true;
    }
    var sum := SumFlags(info.queries);
    var flags := Le32(sum % 0x1_0000_0000);
    var fields := EncodeFields(info.queries);
    FourBytes(0);
    FourBytes(sum % 0x1_0000_0000);
    OverwriteTwice(w.data, w.pos, Le32(0), flags);
    OverwriteTwice(w.data, w.pos, Le32(0) + flags, fields);
    w.Write(Le32(0));
    w.Write(flags);
    WriteFields(info.queries, w);
    var length := w.pos - start;
    if length >= 0x1_0000_0000 { return false; }
    FourBytes(length);
    assert Le32(0) + flags + fields == Le32(0) + (flags + fields);
    BackPatch(old(w.data), start, Le32(0), Le32(length), flags + fields);
    assert Le32(length) + (flags + fields) == Le32(length) + flags + fields;
    w.Seek(w.pos - length);
    w.Write(Le32(length));
    w.Seek(w.pos + length - 4);
    ok := true;
  }

  method ReadPositions(count: nat, r: Cursor) returns (positions: Read<seq<CardPosition>>)
    modifies r`pos
    ensures positions == TakePositions(old(r.Rest()), count) && (positions.Got? ==> r.Rest() == positions.rest)
  {
    var list: seq<CardPosition> := [];
    PrependNone(TakePositions(r.Rest(), count));
    for i := 0 to count
      invariant TakePositions(old(r.Rest()), count) == Prepend(list, TakePositions(r.Rest(), count - i))
    {
      var position := ReadPosition(r);
      if position.Failed? {
        assert TakePositions(old(r.Rest()), count) == Failed(position.error);
        return Failed(position.error);
      }
      PrependOne(list, position.value, TakePositions(position.rest, count - i - 1));
      list := list + [position.value];
    }
    assert list + [] == list;
    positions := Got(list, r.Rest());
  }

  method ReadPosition(r: Cursor) returns (position: Read<CardPosition>)
    modifies r`pos
    ensures position == TakePosition(old(r.Rest())) && (position.Got? ==> r.Rest() == position.rest)
  {
    var controller := r.ReadCorePlayer();
    if controller.Failed? { return Failed(controller.error); }
    var location := r.ReadU8();
    if location.Failed? { return Failed(location.error); }
    var sequence := r.ReadU8();
    if sequence.Failed? { return Failed(sequence.error); }
    var sub := r.ReadU8();
    if sub.Failed? { return Failed(sub.error); }
    position := Got(CardPosition(controller.value, location.value, UnsignedByte(sequence.value), UnsignedByte(sub.value)), r.Rest());
  }

  method ReadInfo(r: Cursor) returns (info: Read<InfoLocation>)
    modifies r`pos
    ensures info == TakeInfo(old(r.Rest())) && (info.Got? ==> r.Rest() == info.rest)
  {
    var controller := r.ReadCorePlayer();
    if controller.Failed? { return Failed(controller.error); }
    var location := r.ReadU8();
    if location.Failed? { return Failed(location.error); }
    var sequence := r.ReadU8();
    if sequence.Failed? { return Failed(sequence.error); }
    var last := r.ReadU8();
    if last.Failed? { return Failed(last.error); }
    var overlay := OnOverlay(location.value);
    info := Got(InfoLocation(controller.value, location.value, sequence.value,
                             if overlay then 0 else last.value, if overlay then last.value else 0), r.Rest());
  }

  method ReadWords32(count: nat, r: Cursor) returns (words: Read<seq<U32>>)
    modifies r`pos
    ensures words == TakeWords32(old(r.Rest()), count) && (words.Got? ==> r.Rest() == words.rest)
  {
    var list: seq<U32> := [];
    PrependNone(TakeWords32(r.Rest(), count));
    for i := 0 to count
      invariant TakeWords32(old(r.Rest()), count) == Prepend(list, TakeWords32(r.Rest(), count - i))
    {
      var word := r.ReadU32();
      if word.Failed? {
        assert TakeWords32(old(r.Rest()), count) == Failed(word.error);
        return Failed(word.error);
      }
      PrependOne(list, word.value, TakeWords32(word.rest, count - i - 1));
      list := list + [word.value];
    }
    assert list + [] == list;
    words := Got(list, r.Rest());
  }

  method ReadCounters(count: nat, r: Cursor) returns (counters: Read<seq<(U16, U16)>>)
    modifies r`pos
    ensures counters == TakeCounters(old(r.Rest()), count) && (counters.Got? ==> r.Rest() == counters.rest)
  {
    var list: seq<(U16, U16)> := [];
    PrependNone(TakeCounters(r.Rest(), count));
    for i := 0 to count
      invariant TakeCounters(old(r.Rest()), count) == Prepend(list, TakeCounters(r.Rest(), count - i))
    {
      ghost var before := r.Rest();
      var kind := r.ReadU16();
      if kind.Failed? {
        assert TakeCounter(before) == Failed(kind.error) && TakeCounters(old(r.Rest()), count) == Failed(kind.error);
        return Failed(kind.error);
      }
      var amount := r.ReadU16();
      if amount.Failed? {
        assert TakeCounter(before) == Failed(amount.error) && TakeCounters(old(r.Rest()), count) == Failed(amount.error);
        return Failed(amount.error);
      }
      assert TakeCounter(before) == Got((kind.value, amount.value), amount.rest);
      PrependOne(list, (kind.value, amount.value), TakeCounters(amount.rest, count - i - 1));
      list := list + [(kind.value, amount.value)];
    }
    assert list + [] == list;
    counters := Got(list, r.Rest());
  }

  method ReadField(bit: nat, r: Cursor) returns (field: Read<QueryData>)
    requires IsBit(bit)
    modifies r`pos
    ensures field == TakeField(bit, old(r.Rest())) && (field.Got? ==> r.Rest() == field.rest)
  {
    hide TakeU32, TakeInfo, TakePosition, TakePositions, TakeWords32, TakeCounters;
    if bit == 1 {
      var info := ReadInfo(r);
      return if info.Failed? then Failed(info.error) else Got(Position(info.value), info.rest);
    }
    if bit == 14 {
      var target := ReadPosition(r);
      return if target.Failed? then Failed(target.error) else Got(EquipCard(target.value), target.rest);
    }
    if bit == 18 {
      field := ReadOwner(r);
      return;
    }
    var first := r.ReadU32();
    if first.Failed? { return Failed(first.error); }
    if IsNumber(bit) { return Got(OfNumber(bit, first.value), first.rest); }
    if bit == 23 {
      var markers := r.ReadU32();
      return if markers.Failed? then Failed(markers.error) else Got(Link(Unsigned(first.value), markers.value), markers.rest);
    }
    if bit == 15 {
      var targets := ReadPositions(first.value, r);
      return if targets.Failed? then Failed(targets.error) else Got(TargetCard(targets.value), targets.rest);
    }
    if bit == 16 {
      var codes := ReadWords32(first.value, r);
      return if codes.Failed? then Failed(codes.error) else Got(OverlayCard(codes.value), codes.rest);
    }
    var counters := ReadCounters(first.value, r);
    field := if counters.Failed? then Failed(counters.error) else Got(Counters(counters.value), counters.rest);
  }

  /** The owner takes one byte and three more of padding. */
  method ReadOwner(r: Cursor) returns (field: Read<QueryData>)
    modifies r`pos
    ensures field == TakeField(18, old(r.Rest())) && (field.Got? ==> r.Rest() == field.rest)
  {
    var owner := r.ReadCorePlayer();
    if owner.Failed? { return Failed(owner.error); }
    for i := 0 to 3
      invariant |owner.rest| >= i && r.Rest() == owner.rest[i..]
    {
      var padding := r.ReadU8();
      if padding.Failed? { return Failed(padding.error); }
    }
    field := Got(Owner(owner.value), r.Rest());
  }

  method ReadQueries(r: Cursor) returns (queries: Read<seq<QueryData>>)
    modifies r`pos
    ensures queries == TakeQueries(old(r.Rest()))
  {
    hide TakeU32, TakeField;
    var flags := r.ReadU32();
    if flags.Failed? { return Failed(flags.error); }
    var qs: seq<QueryData> := if flags.value == 0 then [Clear] else [];
    for k := 0 to BITS
      invariant Prepend(if flags.value == 0 then [Clear] else [], TakeFields(flags.value, 0, flags.rest))
        == Prepend(qs, TakeFields(flags.value, k, r.Rest()))
    {
      if IsBit(k) && Bit(flags.value, k) {
        var field := ReadField(k, r);
        if field.Failed? { return Failed(field.error); }
        PrependOne(qs, field.value, TakeFields(flags.value, k + 1, field.rest));
        qs := qs + [field.value];
      }
    }
    assert qs + [] == qs;
    queries := Got(qs, r.Rest());
  }

  /** Reads one record and goes to where its announced length ends. */
  method ReadRecord(r: Cursor) returns (record: Read<UpdateCardInfo>)
    modifies r`pos
    ensures record == TakeRecord(old(r.Rest())) && (record.Got? ==> r.Rest() == record.rest)
  {
    hide TakeQueries;
    var start := r.pos;
    var length := r.ReadU32();
    if length.Failed? { return Failed(length.error); }
    if length.value == 4 { return Got(Empty, length.rest); }
    var queries := ReadQueries(r);
    if queries.Failed? { return Failed(queries.error); }
    r.Seek(start + 4 + length.value - 4);
    record := Got(Data(queries.value), r.Rest());
  }

  /** Reads records until the input ends, and notices the record that would be read again and again. */
  method ReadAll(r: Cursor) returns (reading: Reading)
    modifies r`pos
    ensures reading == ReadingOf(old(r.Rest()))
  {
    hide TakeRecord;
    var infos := [];
    while true
      invariant With(infos, ReadingOf(r.Rest())) == ReadingOf(old(r.Rest()))
      decreases |r.Rest()|
    {
      var left := r.Rest();
      var record := ReadRecord(r);
      if record.Failed? {
        assert infos + [] == infos;
        return if record.error.Eof? then Records(infos) else Broken(record.error);
      }
      if |left| <= |record.rest| { return Endless; }
      assert ReadingOf(record.rest).Records? ==>
        infos + ([record.value] + ReadingOf(record.rest).infos) == (infos + [record.value]) + ReadingOf(record.rest).infos;
      infos := infos + [record.value];
    }
  }

  // ---------- what stands where on the wire ----------

  /** The flag of every field, as the core numbers them. */
  lemma FlagValues(q: QueryData)
    ensures match q
      case Clear => FlagOf(q) == 0
      case Code(_) => FlagOf(q) == 0x1
      case Position(_) => FlagOf(q) == 0x2
      case Alias(_) => FlagOf(q) == 0x4
      case Type(_) => FlagOf(q) == 0x8
      case Level(_) => FlagOf(q) == 0x10
      case Rank(_) => FlagOf(q) == 0x20
      case Attribute(_) => FlagOf(q) == 0x40
      case Race(_) => FlagOf(q) == 0x80
      case Attack(_) => FlagOf(q) == 0x100
      case Defense(_) => FlagOf(q) == 0x200
      case BaseAttack(_) => FlagOf(q) == 0x400
      case BaseDefense(_) => FlagOf(q) == 0x800
      case Reason(_) => FlagOf(q) == 0x1000
      case ReasonCard(_) => FlagOf(q) == 0x2000
      case EquipCard(_) => FlagOf(q) == 0x4000
      case TargetCard(_) => FlagOf(q) == 0x8000
      case OverlayCard(_) => FlagOf(q) == 0x1_0000
      case Counters(_) => FlagOf(q) == 0x2_0000
      case Owner(_) => FlagOf(q) == 0x4_0000
      case Status(_) => FlagOf(q) == 0x8_0000
      case LeftScale(_) => FlagOf(q) == 0x20_0000
      case RightScale(_) => FlagOf(q) == 0x40_0000
      case Link(_, _) => FlagOf(q) == 0x80_0000
  {
    assert Pow2(0) == 1 && Pow2(5) == 0x20 && Pow2(10) == 0x400 && Pow2(15) == 0x8000 && Pow2(20) == 0x10_0000;
    assert Pow2(21) == 0x20_0000 && Pow2(22) == 0x40_0000 && Pow2(23) == 0x80_0000;
  }

  /** The four bytes of a word, lowest first. */
  ghost function Word(x: U32): Bytes {
    [x % 0x100, x / 0x100 % 0x100, x / 0x1_0000 % 0x100, x / 0x100_0000]
  }

  /** Negative numbers in two's complement. */
  ghost function Bits(x: I32): U32 { if x < 0 then x + 0x1_0000_0000 else x }

  lemma WordIs(x: U32)
    ensures Le32(x) == Word(x)
  {
    var high, low := x / 0x1_0000, x % 0x1_0000;
    var middle, last := low / 0x100, low % 0x100;
    assert x == 0x1_0000 * high + 0x100 * middle + last;
    assert x / 0x100 == 0x100 * high + middle;
    assert x % 0x100 == last;
    assert high / 0x100 == x / 0x100_0000;
  }

  lemma WordLength(x: U32)
    ensures |Word(x)| == 4
  {
  }

  /** A card's place takes four bytes: whose, where, and two that depend on the kind of place, signed ones wrapped. */
  lemma PlaceLayout(at: InfoLocation, place: CardPosition)
    ensures |EncodeField(Position(at))| == 4 == |EncodeField(EquipCard(place))|
    ensures EncodeField(Position(at))[..3] == [at.controller, at.location, at.sequence]
    ensures EncodeField(Position(at))[3] == if at.location < 0x80 then at.position else at.overlaySequence
    ensures EncodeField(EquipCard(place))[..2] == [place.controller, place.location]
    ensures EncodeField(EquipCard(place))[2] == place.sequence % 0x100 && EncodeField(EquipCard(place))[3] == place.sub % 0x100
  {
  }

  lemma {:induction false} PositionsAt(list: seq<CardPosition>, i: nat)
    requires i < |list|
    ensures |EncodePositions(list)| == 4 * |list|
    ensures EncodePositions(list)[4 * i..4 * i + 4] == EncodePosition(list[i])
    decreases list
  {
    if |list| > 1 {
      if i > 0 {
        PositionsAt(list[1..], i - 1);
        assert EncodePositions(list)[4 * i..4 * i + 4] == EncodePositions(list[1..])[4 * i - 4..4 * i];
      } else {
        PositionsAt(list[1..], 0);
      }
    }
  }

  lemma {:induction false} WordsAt(list: seq<U32>, i: nat)
    requires i < |list|
    ensures |Words32(list)| == 4 * |list|
    ensures Words32(list)[4 * i..4 * i + 4] == Word(list[i])
    decreases list
  {
    hide Le32, Word;
    WordIs(list[0]);
    WordLength(list[0]);
    if |list| > 1 {
      if i > 0 {
        WordsAt(list[1..], i - 1);
        assert Words32(list)[4 * i..4 * i + 4] == Words32(list[1..])[4 * i - 4..4 * i];
      } else {
        WordsAt(list[1..], 0);
      }
    }
  }

  /** A kind of counter and how many there are, two bytes each, lower byte first. */
  ghost function CounterBytes(c: (U16, U16)): Bytes { [c.0 % 0x100, c.0 / 0x100, c.1 % 0x100, c.1 / 0x100] }

  lemma {:induction false} CountersAt(list: seq<(U16, U16)>, i: nat)
    requires i < |list|
    ensures |EncodeCounters(list)| == 4 * |list|
    ensures EncodeCounters(list)[4 * i..4 * i + 4] == CounterBytes(list[i])
    decreases list
  {
    if |list| > 1 {
      if i > 0 {
        CountersAt(list[1..], i - 1);
        assert EncodeCounters(list)[4 * i..4 * i + 4] == EncodeCounters(list[1..])[4 * i - 4..4 * i];
      } else {
        CountersAt(list[1..], 0);
      }
    }
  }

  /** A list starts with its number of elements. */
  lemma ListLength(targets: seq<CardPosition>, codes: seq<U32>, counters: seq<(U16, U16)>)
    requires |targets| < 0x1_0000_0000 && |codes| < 0x1_0000_0000 && |counters| < 0x1_0000_0000
    ensures |EncodeField(TargetCard(targets))| >= 4 && EncodeField(TargetCard(targets))[..4] == Word(|targets|)
    ensures |EncodeField(OverlayCard(codes))| >= 4 && EncodeField(OverlayCard(codes))[..4] == Word(|codes|)
    ensures |EncodeField(Counters(counters))| >= 4 && EncodeField(Counters(counters))[..4] == Word(|counters|)
  {
    hide Le32, Le16, Word;
    WordIs(|targets|);
    WordIs(|codes|);
    WordIs(|counters|);
    WordLength(|targets|);
    WordLength(|codes|);
    WordLength(|counters|);
  }

  /** Behind the number its elements follow in order, four bytes apart. */
  lemma ListLayout(targets: seq<CardPosition>, codes: seq<U32>, counters: seq<(U16, U16)>)
    requires |targets| < 0x1_0000_0000 && |codes| < 0x1_0000_0000 && |counters| < 0x1_0000_0000
    ensures |EncodeField(TargetCard(targets))| == 4 + 4 * |targets|
    ensures |EncodeField(OverlayCard(codes))| == 4 + 4 * |codes|
    ensures |EncodeField(Counters(counters))| == 4 + 4 * |counters|
    ensures forall i :: 0 <= i < |targets| ==> EncodeField(TargetCard(targets))[4 + 4 * i..8 + 4 * i] == EncodePosition(targets[i])
    ensures forall i :: 0 <= i < |codes| ==> EncodeField(OverlayCard(codes))[4 + 4 * i..8 + 4 * i] == Word(codes[i])
    ensures forall i :: 0 <= i < |counters| ==> EncodeField(Counters(counters))[4 + 4 * i..8 + 4 * i] == CounterBytes(counters[i])
  {
    hide Le32, Word, EncodePosition, CounterBytes;
    TargetsLayout(targets);
    CodesLayout(codes);
    CountersLayout(counters);
  }

  lemma TargetsLayout(list: seq<CardPosition>)
    requires |list| < 0x1_0000_0000
    ensures |EncodeField(TargetCard(list))| == 4 + 4 * |list|
    ensures forall i :: 0 <= i < |list| ==> EncodeField(TargetCard(list))[4 + 4 * i..8 + 4 * i] == EncodePosition(list[i])
  {
    hide Le32, Word, EncodePosition;
    WordIs(|list|);
    WordLength(|list|);
    var s := EncodeField(TargetCard(list));
    assert s == Word(|list|) + EncodePositions(list);
    if list == [] { assert EncodePositions(list) == []; }
    forall i | 0 <= i < |list|
      ensures |s| == 4 + 4 * |list| && s[4 + 4 * i..8 + 4 * i] == EncodePosition(list[i])
    {
      PositionsAt(list, i);
      assert s[4 + 4 * i..8 + 4 * i] == EncodePositions(list)[4 * i..4 * i + 4];
    }
    if list != [] { PositionsAt(list, 0); }
  }

  lemma CodesLayout(list: seq<U32>)
    requires |list| < 0x1_0000_0000
    ensures |EncodeField(OverlayCard(list))| == 4 + 4 * |list|
    ensures forall i :: 0 <= i < |list| ==> EncodeField(OverlayCard(list))[4 + 4 * i..8 + 4 * i] == Word(list[i])
  {
    hide Le32, Word;
    WordIs(|list|);
    WordLength(|list|);
    var s := EncodeField(OverlayCard(list));
    assert s == Word(|list|) + Words32(list);
    if list == [] { assert Words32(list) == []; }
    forall i | 0 <= i < |list|
      ensures |s| == 4 + 4 * |list| && s[4 + 4 * i..8 + 4 * i] == Word(list[i])
    {
      WordsAt(list, i);
      assert s[4 + 4 * i..8 + 4 * i] == Words32(list)[4 * i..4 * i + 4];
    }
    if list != [] { WordsAt(list, 0); }
  }

  lemma CountersLayout(list: seq<(U16, U16)>)
    requires |list| < 0x1_0000_0000
    ensures |EncodeField(Counters(list))| == 4 + 4 * |list|
    ensures forall i :: 0 <= i < |list| ==> EncodeField(Counters(list))[4 + 4 * i..8 + 4 * i] == CounterBytes(list[i])
  {
    hide Le32, Word, CounterBytes;
    WordIs(|list|);
    WordLength(|list|);
    var s := EncodeField(Counters(list));
    assert s == Word(|list|) + EncodeCounters(list);
    if list == [] { assert EncodeCounters(list) == []; }
    forall i | 0 <= i < |list|
      ensures |s| == 4 + 4 * |list| && s[4 + 4 * i..8 + 4 * i] == CounterBytes(list[i])
    {
      CountersAt(list, i);
      assert s[4 + 4 * i..8 + 4 * i] == EncodeCounters(list)[4 * i..4 * i + 4];
    }
    if list != [] { CountersAt(list, 0); }
  }

  /** Numbers take a word, in two's complement where they are signed; an owner takes a byte and three zeros. */
  lemma NumberLayout(q: QueryData)
    ensures match q
      case Code(x) => EncodeField(q) == Word(Bits(x))
      case Alias(x) => EncodeField(q) == Word(Bits(x))
      case Type(x) => EncodeField(q) == Word(x)
      case Level(x) => EncodeField(q) == Word(Bits(x))
      case Rank(x) => EncodeField(q) == Word(Bits(x))
      case Attribute(x) => EncodeField(q) == Word(x)
      case Race(x) => EncodeField(q) == Word(x)
      case Attack(x) => EncodeField(q) == Word(Bits(x))
      case Defense(x) => EncodeField(q) == Word(Bits(x))
      case BaseAttack(x) => EncodeField(q) == Word(Bits(x))
      case BaseDefense(x) => EncodeField(q) == Word(Bits(x))
      case Reason(x) => EncodeField(q) == Word(x)
      case ReasonCard(x) => EncodeField(q) == Word(Bits(x))
      case Status(x) => EncodeField(q) == Word(x)
      case LeftScale(x) => EncodeField(q) == Word(Bits(x))
      case RightScale(x) => EncodeField(q) == Word(Bits(x))
      case Link(x, y) => EncodeField(q) == Word(Bits(x)) + Word(y)
      case Owner(owner) => EncodeField(q) == [owner, 0, 0, 0]
      case _ => true
  {
    hide Le32, Word;
    if NumberOf(q).Some? { WordIs(NumberOf(q).value); }
    if q.Link? {
      WordIs(Bits(q.link));
      WordIs(q.markers);
    }
  }

  lemma Sections(a: Bytes, b: Bytes, c: Bytes)
    requires |a| == |b| == 4
    ensures var s := a + b + c; s[..4] == a && s[4..8] == b && s[8..] == c
  {
  }

  /** A record announces its own length first, then its flags, then come the fields in their order. */
  lemma {:induction false} RecordLayout(qs: seq<QueryData>)
    requires 8 + |EncodeFields(qs)| < 0x1_0000_0000
    requires Increasing(qs, 0)
    ensures var s := Encode(Data(qs));
      && |s| == 8 + |EncodeFields(qs)| && s[..4] == Word(|s|)
      && FlagSum(qs) < 0x1_0000_0000 && s[4..8] == Word(FlagSum(qs))
      && s[8..] == EncodeFields(qs)
  {
    hide Le32, Word, Increasing, EncodeFields, FlagSum;
    assert FlagSum(qs) < 0x100_0000 by { SumBelow(qs); }
    var size, flags := 8 + |EncodeFields(qs)|, FlagSum(qs);
    WordIs(size);
    WordIs(flags);
    WordLength(size);
    WordLength(flags);
    Sections(Word(size), Word(flags), EncodeFields(qs));
  }

  lemma {:induction false} SumBelow(qs: seq<QueryData>)
    requires Increasing(qs, 0)
    ensures FlagSum(qs) < 0x100_0000
  {
    SumIsUnion(qs, 0);
  }

  /** Fields follow each other without a gap. */
  lemma {:induction false} FieldsFollow(qs: seq<QueryData>, i: nat)
    requires i <= |qs|
    ensures EncodeFields(qs) == EncodeFields(qs[..i]) + EncodeFields(qs[i..])
    ensures i < |qs| ==> EncodeField(qs[i]) <= EncodeFields(qs[i..])
    decreases i
  {
    hide EncodeField;
    if i > 0 {
      FieldsFollow(qs[1..], i - 1);
      assert qs[1..][..i - 1] == qs[..i][1..] && qs[1..][i - 1..] == qs[i..];
    }
  }

  // ---------- masking ----------

  /** A face-down card, or a card in a hand that is not face-up, unless it is revealed. */
  predicate InfoShouldMask(at: InfoLocation) {
    if Bit(at.position, 7) then false
    else if Bit(at.location, 1) then !(Bit(at.position, 0) || Bit(at.position, 2))
    else Bit(at.position, 1) || Bit(at.position, 3)
  }

  function FirstPosition(qs: seq<QueryData>): Option<InfoLocation> {
    if qs == [] then None else if qs[0].Position? then Some(qs[0].at) else FirstPosition(qs[1..])
  }

  /** Whether `player` must not see the record; teammates (players two and five) see the field and the banished cards. */
  predicate ShouldMask(info: UpdateCardInfo, player: CorePlayer) {
    info.Data? && FirstPosition(info.queries).Some? &&
    var at := FirstPosition(info.queries).value;
    var teammate := (at.controller == 0 && player == 2) || (at.controller == 1 && player == 5);
    var open := Bit(at.location, 2) || Bit(at.location, 3) || Bit(at.location, 5);
    InfoShouldMask(at) && at.controller != player && (!teammate || !open)
  }

  const ALL: CorePlayer := 3

  function Masked(info: UpdateCardInfo): UpdateCardInfo {
    if ShouldMask(info, ALL) then Data(seq(|info.queries|, _ => Clear)) else info
  }

  method Mask(queries: array<QueryData>)
    modifies queries
    ensures Data(queries[..]) == Masked(Data(old(queries[..])))
  {
    if !ShouldMask(Data(queries[..]), ALL) { return; }
    for i := 0 to queries.Length
      invariant forall j :: 0 <= j < i ==> queries[j] == Clear
    {
      queries[i] := Clear;
    }
  }

  /** A bit is one step closer in half of the number. */
  lemma NextBit(n: nat, k: nat)
    requires k > 0
    ensures Drop(n, k) == Drop(n / 2, k - 1)
  {
  }

  lemma {:induction false} DropTwice(n: nat, j: nat, k: nat)
    ensures Drop(Drop(n, j), k) == Drop(n, j + k)
    decreases j
  {
    if j > 0 {
      NextBit(n, j);
      NextBit(n, j + k);
      DropTwice(n / 2, j - 1, k);
    }
  }

  /** The bits the masking rules look at, as numbers. */
  lemma MaskBits(n: nat)
    ensures Bit(n, 0) <==> n % 2 == 1
    ensures Bit(n, 1) <==> n / 2 % 2 == 1
    ensures Bit(n, 2) <==> n / 4 % 2 == 1
    ensures Bit(n, 3) <==> n / 8 % 2 == 1
    ensures Bit(n, 5) <==> n / 32 % 2 == 1
    ensures Bit(n, 7) <==> n / 128 % 2 == 1
  {
    assert forall x: nat :: Drop(x, 0) == x;
    assert forall x: nat :: Drop(x, 1) == x / 2 by { forall x: nat { NextBit(x, 1); } }
    hide Drop;
    DropTwice(n, 1, 1);
    assert Drop(n, 2) == n / 4;
    DropTwice(n, 2, 1);
    assert Drop(n, 3) == n / 8;
    DropTwice(n, 3, 2);
    DropTwice(n / 8, 1, 1);
    assert Drop(n, 5) == n / 32;
    DropTwice(n, 5, 2);
    DropTwice(n / 32, 1, 1);
    assert Drop(n, 7) == n / 128;
  }

  /** Reveal 0x80, hand 0x2, face-up 0x1 or 0x4, face-down 0x2 or 0x8, in the numbers of the record. */
  ghost predicate Hidden(position: nat, location: nat) {
    && position / 128 % 2 == 0
    && (location / 2 % 2 == 1 ==> position % 2 == 0 && position / 4 % 2 == 0)
    && (location / 2 % 2 == 0 ==> position / 2 % 2 == 1 || position / 8 % 2 == 1)
  }

  lemma {:induction false} FirstPositionIs(qs: seq<QueryData>, i: nat)
    requires i <= |qs| && forall j :: 0 <= j < i ==> !qs[j].Position?
    requires i < |qs| ==> qs[i].Position?
    ensures FirstPosition(qs) == if i < |qs| then Some(qs[i].at) else None
    decreases i
  {
    if i > 0 {
      assert forall j :: 0 <= j < i - 1 ==> qs[1..][j] == qs[j + 1];
      FirstPositionIs(qs[1..], i - 1);
    }
  }

  /**
  Which records leave for the other side in clear. A record without a position does; otherwise its first position
  alone decides, whatever the later ones say. A revealed card is never masked; a card in a hand is masked exactly if it
  is not face-up; a card elsewhere exactly if it is face-down. Masking clears every field. Only a record under the
  controller three, everybody, stays as it is in any case.
  */
  lemma MaskedExactly(qs: seq<QueryData>, i: nat)
    requires i <= |qs| && forall j :: 0 <= j < i ==> !qs[j].Position?
    requires i < |qs| ==> qs[i].Position?
    ensures var after := Masked(Data(qs));
      if i < |qs| && Hidden(qs[i].at.position, qs[i].at.location) && qs[i].at.controller != 3 then
        after.Data? && |after.queries| == |qs| && forall j :: 0 <= j < |qs| ==> after.queries[j] == Clear
      else after == Data(qs)
  {
    FirstPositionIs(qs, i);
    if i < |qs| {
      MaskBits(qs[i].at.position);
      MaskBits(qs[i].at.location);
    }
    hide Bit;
  }

  /**
  Which players may not see a record whose first position is the `i`-th field: its own controller always sees it, the
  second player of the controller's team (two for zero, five for one) also sees what lies on the monster zone 0x4, the
  spell zone 0x8 or among the banished cards 0x20, and everyone else exactly what is not hidden.
  */
  lemma KeptFrom(qs: seq<QueryData>, i: nat, player: CorePlayer)
    requires i < |qs| && qs[i].Position? && forall j :: 0 <= j < i ==> !qs[j].Position?
    ensures var at := qs[i].at;
      var shown := at.location / 4 % 2 == 1 || at.location / 8 % 2 == 1 || at.location / 32 % 2 == 1;
      && (player == at.controller ==> !ShouldMask(Data(qs), player))
      && (at.controller == 0 && player == 2 ==> (ShouldMask(Data(qs), player) <==> Hidden(at.position, at.location) && !shown))
      && (at.controller == 1 && player == 5 ==> (ShouldMask(Data(qs), player) <==> Hidden(at.position, at.location) && !shown))
      && (player != at.controller && (at.controller, player) != (0, 2) && (at.controller, player) != (1, 5) ==>
            (ShouldMask(Data(qs), player) <==> Hidden(at.position, at.location)))
  {
    FirstPositionIs(qs, i);
    MaskBits(qs[i].at.position);
    MaskBits(qs[i].at.location);
    hide Bit;
  }

  /** A record that says nothing, or nothing about a position, is kept from nobody. */
  lemma KeptFromNobody(info: UpdateCardInfo, player: CorePlayer)
    requires info.Data? ==> forall j :: 0 <= j < |info.queries| ==> !info.queries[j].Position?
    ensures !ShouldMask(info, player) && Masked(info) == info
  {
    if info.Data? { FirstPositionIs(info.queries, |info.queries|); }
  }

  lemma {:induction false} ClearsAreNothing(n: nat)
    ensures EncodeFields(seq(n, _ => Clear)) == [] && FlagSum(seq(n, _ => Clear)) == 0
    decreases n
  {
    if n > 0 {
      assert seq(n, _ => Clear)[1..] == seq(n - 1, _ => Clear);
      ClearsAreNothing(n - 1);
    }
  }

  /** Masked records cannot be told apart on the wire: each reads as a single cleared marker, whatever it held. */
  lemma MaskHides(info: UpdateCardInfo, rest: Bytes)
    requires ShouldMask(info, ALL)
    ensures Size(Masked(info)) == 8 && Encode(Masked(info)) == Encode(Data([Clear]))
    ensures TakeRecord(Encode(Masked(info)) + rest) == Got(Data([Clear]), rest)
  {
    ClearsAreNothing(|info.queries|);
    ClearsAreNothing(1);
    assert seq(1, _ => Clear) == [Clear];
    RecordRoundTrip(Data([Clear]), rest);
    hide TakeRecord, Le32;
  }
}
