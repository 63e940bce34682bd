/** Room membership: who sits where, and which channel reaches whom. */
module Room {
  // The seat tables of `Duel` and the channel tables of its `Sender` (`ygopro/src/duel.rs`), and the
  // handlers that move clients between them (`ygopro/src/ygopro_handlers.rs`).

  import opened Options
  import opened Slabs

  /** A client, known by the channel that leads to it. */
  type Channel = int

  datatype Netplayer = Player(index: U8) | Observer(index: U8) | Undecided(index: U8) | Unknown

  datatype Stage = Begin | Finger | Firstgo | Dueling | Siding | End

  datatype Occupant = Occupant(name: string, channel: Channel)

  /** An unbound player channel (a sender whose receiver is gone) is `None`. */
  datatype Tables = Tables(
    players: seq<Option<Occupant>>,
    observers: Slab<Occupant>,
    uninit: Slab<Occupant>,
    senderPlayers: seq<Option<Channel>>,
    senderObservers: Slab<Channel>,
    senderUndecided: Slab<Channel>,
    host: Netplayer,
    pass: string,
    stage: Stage,
    terminated: bool)

  function NewRoom(seats: nat): Tables {
    Tables(seq(seats, _ => None), Slab([], []), Slab([], []), [], Slab([], []), Slab([], []), Unknown, "", Begin, false)
  }

  // ---------- who sits where ----------

  function Seated(t: Tables, pos: Netplayer): Option<Occupant> {
    match pos
    case Player(i) => if i < |t.players| then t.players[i] else None
    case Observer(i) => Get(t.observers, i)
    case Undecided(i) => Get(t.uninit, i)
    case Unknown => None
  }

  function SeatOf(t: Tables, pos: Netplayer): Option<Channel> {
    if Seated(t, pos).Some? then Some(Seated(t, pos).value.channel) else None
  }

  /** Where a message addressed to `pos` goes. */
  function Route(t: Tables, pos: Netplayer): Option<Channel> {
    match pos
    case Player(i) => if i < |t.senderPlayers| then t.senderPlayers[i] else None
    case Observer(i) => Get(t.senderObservers, i)
    case Undecided(i) => Get(t.senderUndecided, i)
    case Unknown => None
  }

  function FirstVacant(players: seq<Option<Occupant>>, i: nat): (r: Option<nat>)
    requires i <= |players|
    ensures r.Some? ==> i <= r.value < |players| && players[r.value].None? && forall j :: i <= j < r.value ==> players[j].Some?
    ensures r.None? ==> forall j :: i <= j < |players| ==> players[j].Some?
    decreases |players| - i
  {
    if i == |players| then None else if players[i].None? then Some(i) else FirstVacant(players, i + 1)
  }

  /** The first player other than the one leaving. */
  function FirstOther(players: seq<Option<Occupant>>, leaving: Netplayer, i: nat): (r: Option<nat>)
    requires i <= |players|
    ensures r.Some? ==> i <= r.value < |players| && players[r.value].Some? && leaving != Player(AsIndex(r.value))
    ensures r.Some? ==> forall j :: i <= j < r.value && players[j].Some? ==> leaving == Player(AsIndex(j))
    ensures r.None? ==> forall j :: i <= j < |players| && players[j].Some? ==> leaving == Player(AsIndex(j))
    decreases |players| - i
  {
    if i == |players| then None
    else if players[i].Some? && leaving != Player(AsIndex(i)) then Some(i)
    else FirstOther(players, leaving, i + 1)
  }

  function AsIndex(i: nat): U8 { i % 0x100 }

  /** A room without players and observers; clients that have not joined yet do not count. */
  predicate Empty(t: Tables) {
    (forall i :: 0 <= i < |t.players| ==> t.players[i].None?) && IsEmpty(t.observers)
  }

  // ---------- channel tables ----------

  function Bind(routes: seq<Option<Channel>>, i: nat, channel: Option<Channel>): seq<Option<Channel>> {
    var grown := if |routes| <= i then routes + seq(i + 1 - |routes|, _ => None) else routes;
    grown[i := channel]
  }

  // ---------- handlers ----------

  datatype Event =
    | ClientJoin(channel: Channel, asked: bool)
    | CreateGame(pass: string)
    | PlayerInfo(pos: Netplayer, name: string)
    | JoinGame(pos: Netplayer, pass: string)
    | HsToDuelist(pos: Netplayer)
    | HsToObserver(pos: Netplayer)
    | HsKick(pos: Netplayer, target: Netplayer)
    | LeaveGame(pos: Netplayer)
    | Advance(stage: Stage)

  ghost predicate Chains(t: Tables) {
    Chained(t.observers) && Chained(t.uninit) && Chained(t.senderObservers) && Chained(t.senderUndecided)
  }

  function OnClientJoin(t: Tables, channel: Channel, asked: bool): Tables
    requires Chains(t)
  {
    if t.stage != Begin || !asked then t
    else t.(uninit := Insert(t.uninit, Occupant("", channel)), senderUndecided := Insert(t.senderUndecided, channel))
  }

  function OnPlayerInfo(t: Tables, pos: Netplayer, name: string): Tables {
    if !pos.Undecided? || Get(t.uninit, pos.index).None? then t
    else
      var entries := t.uninit.entries;
      t.(uninit := t.uninit.(entries := entries[pos.index := Some(entries[pos.index].value.(name := name))]))
  }

  function JoinPosition(t: Tables): Netplayer {
    var vacant := FirstVacant(t.players, 0);
    if vacant.Some? then Player(AsIndex(vacant.value)) else Observer(AsIndex(VacantKey(t.observers)))
  }

  function OnJoinGame(t: Tables, pos: Netplayer, pass: string): Tables
    requires Chains(t)
  {
    if (t.pass != "" && pass != t.pass) || !pos.Undecided? || Get(t.uninit, pos.index).None? then t
    else
      var player := Get(t.uninit, pos.index).value;
      var vacant := FirstVacant(t.players, 0);
      var t1 := t.(
        uninit := TryRemove(t.uninit, pos.index),
        senderUndecided := TryRemove(t.senderUndecided, pos.index),
        host := if Empty(t) then JoinPosition(t) else t.host);
      if vacant.Some?
      then t1.(players := t.players[vacant.value := Some(player)],
               senderPlayers := Bind(t.senderPlayers, vacant.value, Some(player.channel)))
      else t1.(observers := Insert(t.observers, player),
               senderObservers := Insert(t.senderObservers, player.channel))
  }

  function OnHsToDuelist(t: Tables, pos: Netplayer): Tables {
    var vacant := FirstVacant(t.players, 0);
    if !pos.Observer? || vacant.None? || Get(t.observers, pos.index).None? then t
    else
      var observer := Get(t.observers, pos.index).value;
      t.(observers := TryRemove(t.observers, pos.index),
         senderObservers := TryRemove(t.senderObservers, pos.index),
         host := if t.host == pos then Player(AsIndex(vacant.value)) else t.host,
         players := t.players[vacant.value := Some(observer)],
         senderPlayers := Bind(t.senderPlayers, vacant.value, Some(observer.channel)))
  }

  function OnHsToObserver(t: Tables, pos: Netplayer): Tables
    requires Chains(t)
  {
    if !pos.Player? || |t.players| <= pos.index || t.players[pos.index].None? then t
    else
      var player := t.players[pos.index].value;
      t.(players := t.players[pos.index := None],
         senderPlayers := Bind(t.senderPlayers, pos.index, None),
         observers := Insert(t.observers, player),
         senderObservers := Insert(t.senderObservers, player.channel),
         host := if t.host == pos then Observer(AsIndex(VacantKey(t.observers))) else t.host)
  }

  /** A target the wire can name; the handler indexes the seats with it. */
  predicate InRange(t: Tables, pos: Netplayer) { pos.Player? ==> pos.index < |t.players| }

  function OnHsKick(t: Tables, kicker: Netplayer, target: Netplayer): Tables
    requires InRange(t, target)
  {
    if kicker != t.host || t.stage != Begin || !target.Player? || kicker == target || t.players[target.index].None? then t
    else t.(players := t.players[target.index := None], senderPlayers := Bind(t.senderPlayers, target.index, None))
  }

  function Vacate(t: Tables, pos: Netplayer): Tables
    requires InRange(t, pos)
  {
    match pos
    case Observer(i) => t.(observers := TryRemove(t.observers, i), senderObservers := TryRemove(t.senderObservers, i))
    case Player(i) => t.(players := t.players[i := None], senderPlayers := Bind(t.senderPlayers, i, None))
    case Undecided(i) => t.(uninit := TryRemove(t.uninit, i), senderUndecided := TryRemove(t.senderUndecided, i))
    case Unknown => t
  }

  function OnLeaveGame(t: Tables, pos: Netplayer): Tables
    requires InRange(t, pos)
  {
    var other := FirstOther(t.players, pos, 0);
    if pos == t.host && other.None? then t.(terminated := true)
    else
      var t1 := Vacate(if pos == t.host then t.(host := Player(AsIndex(other.value))) else t, pos);
      t1.(terminated := Empty(t1))
  }

  function Step(t: Tables, e: Event): Tables
    requires Chains(t) && Legal(t, e)
  {
    match e
    case ClientJoin(channel, asked) => OnClientJoin(t, channel, asked)
    case CreateGame(pass) => t.(pass := pass)
    case PlayerInfo(pos, name) => OnPlayerInfo(t, pos, name)
    case JoinGame(pos, pass) => OnJoinGame(t, pos, pass)
    case HsToDuelist(pos) => OnHsToDuelist(t, pos)
    case HsToObserver(pos) => OnHsToObserver(t, pos)
    case HsKick(pos, target) => OnHsKick(t, pos, target)
    case LeaveGame(pos) => OnLeaveGame(t, pos)
    case Advance(stage) => t.(stage := stage)
  }

  // ---------- the invariant ----------

  /**
  A client that joins is new, a slab never hands out a key above 255, nobody names a seat the room does not have,
  and a terminated room gets no more events.
  */
  ghost predicate Legal(t: Tables, e: Event) {
    !t.terminated &&
    match e
    case ClientJoin(channel, _) => VacantKey(t.uninit) < 0x100 && forall pos :: SeatOf(t, pos) != Some(channel)
    case JoinGame(_, _) => VacantKey(t.observers) < 0x100
    case HsToObserver(_) => VacantKey(t.observers) < 0x100
    case HsKick(_, target) => InRange(t, target)
    case LeaveGame(pos) => InRange(t, pos)
    case _ => true
  }

  /** Both table sets use the same keys and hand out the same keys next. */
  ghost predicate LockStep(t: Tables) {
    Twins(t.observers, t.senderObservers) && Twins(t.uninit, t.senderUndecided)
  }

  ghost predicate OwnChannels(t: Tables) { forall pos :: Route(t, pos) == SeatOf(t, pos) }

  ghost predicate OneSeatEach(t: Tables) {
    forall p, q :: SeatOf(t, p).Some? && SeatOf(t, p) == SeatOf(t, q) ==> p == q
  }

  ghost predicate HostSeated(t: Tables) {
    t.terminated || Empty(t) || ((t.host.Player? || t.host.Observer?) && Seated(t, t.host).Some?)
  }

  ghost predicate Sized(t: Tables) {
    |t.players| <= 0x100 && |t.senderPlayers| <= |t.players| && |t.observers.entries| <= 0x100 && |t.uninit.entries| <= 0x100
  }

  ghost predicate Inv(t: Tables) {
    Chains(t) && LockStep(t) && OwnChannels(t) && OneSeatEach(t) && HostSeated(t) && Sized(t)
  }

  // ---------- every event moves at most one client ----------

  /** Whoever sat at `out` is gone from there, and `channel`, if any, now sits at `into`. */
  datatype Change = Change(out: Netplayer, into: Netplayer, channel: Option<Channel>)

  const STAY := Change(Unknown, Unknown, None)

  /** What each event does to the seating, in terms of seats alone. */
  function ChangeOf(t: Tables, e: Event): Change {
    match e
    case ClientJoin(channel, asked) =>
      if t.stage == Begin && asked then Change(Unknown, Undecided(AsIndex(VacantKey(t.uninit))), Some(channel)) else STAY
    case JoinGame(pos, pass) =>
      if (t.pass == "" || pass == t.pass) && pos.Undecided? && SeatOf(t, pos).Some?
      then Change(pos, JoinPosition(t), SeatOf(t, pos)) else STAY
    case HsToDuelist(pos) =>
      if pos.Observer? && SeatOf(t, pos).Some? && JoinPosition(t).Player?
      then Change(pos, JoinPosition(t), SeatOf(t, pos)) else STAY
    case HsToObserver(pos) =>
      if pos.Player? && SeatOf(t, pos).Some?
      then Change(pos, Observer(AsIndex(VacantKey(t.observers))), SeatOf(t, pos)) else STAY
    case HsKick(pos, target) =>
      if pos == t.host && t.stage == Begin && target.Player? && pos != target then Change(target, Unknown, None) else STAY
    case LeaveGame(pos) =>
      if pos == t.host && FirstOther(t.players, pos, 0).None? then STAY else Change(pos, Unknown, None)
    case _ => STAY
  }

  ghost predicate Reseats(t: Tables, r: Tables, c: Change) {
    forall pos :: SeatOf(r, pos) == if pos == c.into && c.channel.Some? then c.channel else if pos == c.out then None else SeatOf(t, pos)
  }

  ghost predicate Reroutes(t: Tables, r: Tables, c: Change) {
    forall pos :: Route(r, pos) == if pos == c.into && c.channel.Some? then c.channel else if pos == c.out then None else Route(t, pos)
  }

  lemma BindRoutes(routes: seq<Option<Channel>>, i: nat, channel: Option<Channel>)
    ensures var r := Bind(routes, i, channel);
      && |r| == (if |routes| <= i then i + 1 else |routes|)
      && forall j: nat :: (if j < |r| then r[j] else None) == if j == i then channel else if j < |routes| then routes[j] else None
  {
  }

  /** The channel tables follow the seats, so own channels and single seats survive. */
  lemma ReseatKeeps(t: Tables, r: Tables, c: Change)
    requires OwnChannels(t) && OneSeatEach(t) && Reseats(t, r, c) && Reroutes(t, r, c)
    requires c.channel.Some? ==> SeatOf(t, c.out) == c.channel || forall pos :: SeatOf(t, pos) != c.channel
    ensures OwnChannels(r) && OneSeatEach(r)
  {
    hide SeatOf, Route;
    forall pos ensures Route(r, pos) == SeatOf(r, pos) { assert Route(t, pos) == SeatOf(t, pos); }
  }

  /** What an event must get right besides the host. */
  ghost predicate Moves(t: Tables, r: Tables, c: Change) {
    Chains(r) && LockStep(r) && Sized(r) && Reseats(t, r, c) && Reroutes(t, r, c)
  }

  lemma ClientJoinMoves(t: Tables, channel: Channel)
    requires Inv(t) && VacantKey(t.uninit) < 0x100
    ensures var r := t.(uninit := Insert(t.uninit, Occupant("", channel)), senderUndecided := Insert(t.senderUndecided, channel));
      Moves(t, r, Change(Unknown, Undecided(AsIndex(VacantKey(t.uninit))), Some(channel)))
  {
    hide Insert, Chained, Twins, VacantKey, Get;
    InsertGets(t.uninit, Occupant("", channel));
    InsertGets(t.senderUndecided, channel);
    TwinsInsert(t.uninit, t.senderUndecided, Occupant("", channel), channel);
    InsertSize(t.uninit, Occupant("", channel));
  }

  lemma PlayerInfoMoves(t: Tables, pos: Netplayer, name: string)
    requires Inv(t)
    ensures Moves(t, OnPlayerInfo(t, pos, name), STAY)
  {
    StayMoves(t);
    if pos.Undecided? && Get(t.uninit, pos.index).Some? {
      var r := OnPlayerInfo(t, pos, name);
      Renamed(t.uninit, pos.index, name);
      assert forall p :: SeatOf(r, p) == SeatOf(t, p) && Route(r, p) == Route(t, p);
      hide SeatOf, Route, Chained;
    }
  }

  /** A name does not change who is where. */
  lemma Renamed(s: Slab<Occupant>, key: nat, name: string)
    requires Chained(s) && Get(s, key).Some?
    ensures var r := s.(entries := s.entries[key := Some(s.entries[key].value.(name := name))]);
      && Chained(r) && Twins(s, r) && |r.entries| == |s.entries|
      && forall k: nat :: (Get(r, k).Some? <==> Get(s, k).Some?) &&
           (Get(s, k).Some? ==> Get(r, k).value.channel == Get(s, k).value.channel)
  {
  }

  /** A seat is vacated in both table sets. */
  lemma VacateMoves(t: Tables, pos: Netplayer)
    requires Inv(t) && InRange(t, pos)
    ensures Moves(t, Vacate(t, pos), Change(pos, Unknown, None))
  {
    match pos
    case Player(i) => BindRoutes(t.senderPlayers, i, None);
    case Observer(i) =>
      RemoveGets(t.observers, i);
      RemoveGets(t.senderObservers, i);
      TwinsRemove(t.observers, t.senderObservers, i);
    case Undecided(i) =>
      RemoveGets(t.uninit, i);
      RemoveGets(t.senderUndecided, i);
      TwinsRemove(t.uninit, t.senderUndecided, i);
    case Unknown =>
  }

  function SitDown(t: Tables, i: nat, who: Occupant): Tables
    requires i < |t.players|
  {
    t.(players := t.players[i := Some(who)], senderPlayers := Bind(t.senderPlayers, i, Some(who.channel)))
  }

  function Watch(t: Tables, who: Occupant): Tables
    requires Chains(t)
  {
    t.(observers := Insert(t.observers, who), senderObservers := Insert(t.senderObservers, who.channel))
  }

  lemma SitDownMoves(t: Tables, i: nat, who: Occupant)
    requires Chains(t) && LockStep(t) && Sized(t) && i < |t.players|
    ensures Moves(t, SitDown(t, i, who), Change(Unknown, Player(AsIndex(i)), Some(who.channel)))
  {
    BindRoutes(t.senderPlayers, i, Some(who.channel));
  }

  lemma WatchMoves(t: Tables, who: Occupant)
    requires Chains(t) && LockStep(t) && Sized(t) && VacantKey(t.observers) < 0x100
    ensures Moves(t, Watch(t, who), Change(Unknown, Observer(AsIndex(VacantKey(t.observers))), Some(who.channel)))
  {
    hide Insert, Chained, Twins, VacantKey, Get;
    InsertGets(t.observers, who);
    InsertGets(t.senderObservers, who.channel);
    TwinsInsert(t.observers, t.senderObservers, who, who.channel);
    InsertSize(t.observers, who);
  }

  /** Standing up and sitting down elsewhere is one change. */
  lemma MovesChain(t: Tables, t1: Tables, r: Tables, out: Netplayer, into: Netplayer, channel: Channel)
    requires Moves(t, t1, Change(out, Unknown, None)) && Moves(t1, r, Change(Unknown, into, Some(channel)))
    ensures Moves(t, r, Change(out, into, Some(channel)))
  {
    assert SeatOf(t, Unknown).None? && Route(t, Unknown).None?;
    hide SeatOf, Route, Chains, LockStep, Sized;
    assert forall pos :: SeatOf(t1, pos) == if pos == out then None else SeatOf(t, pos);
    assert forall pos :: Route(t1, pos) == if pos == out then None else Route(t, pos);
  }

  lemma JoinMoves(t: Tables, pos: Netplayer, pass: string)
    requires Inv(t) && ChangeOf(t, JoinGame(pos, pass)) != STAY && VacantKey(t.observers) < 0x100
    ensures Moves(t, OnJoinGame(t, pos, pass), ChangeOf(t, JoinGame(pos, pass)))
  {
    var player := Get(t.uninit, pos.index).value;
    var vacant := FirstVacant(t.players, 0);
    var t1 := Vacate(t, pos).(host := if Empty(t) then JoinPosition(t) else t.host);
    VacateMoves(t, pos);
    assert Moves(t, t1, Change(pos, Unknown, None));
    if vacant.Some? {
      SitDownMoves(t1, vacant.value, player);
    } else {
      WatchMoves(t1, player);
    }
    MovesChain(t, t1, OnJoinGame(t, pos, pass), pos, JoinPosition(t), player.channel);
  }

  lemma ToDuelistMoves(t: Tables, pos: Netplayer)
    requires Inv(t) && ChangeOf(t, HsToDuelist(pos)) != STAY
    ensures Moves(t, OnHsToDuelist(t, pos), ChangeOf(t, HsToDuelist(pos)))
  {
    var observer := Get(t.observers, pos.index).value;
    var i := FirstVacant(t.players, 0).value;
    var t1 := Vacate(t, pos).(host := if t.host == pos then Player(AsIndex(i)) else t.host);
    VacateMoves(t, pos);
    assert Moves(t, t1, Change(pos, Unknown, None));
    SitDownMoves(t1, i, observer);
    MovesChain(t, t1, OnHsToDuelist(t, pos), pos, Player(AsIndex(i)), observer.channel);
  }

  lemma ToObserverMoves(t: Tables, pos: Netplayer)
    requires Inv(t) && ChangeOf(t, HsToObserver(pos)) != STAY && VacantKey(t.observers) < 0x100
    ensures Moves(t, OnHsToObserver(t, pos), ChangeOf(t, HsToObserver(pos)))
  {
    var player := t.players[pos.index].value;
    var to := Observer(AsIndex(VacantKey(t.observers)));
    var t1 := Vacate(t, pos).(host := if t.host == pos then to else t.host);
    VacateMoves(t, pos);
    assert Moves(t, t1, Change(pos, Unknown, None));
    WatchMoves(t1, player);
    MovesChain(t, t1, OnHsToObserver(t, pos), pos, to, player.channel);
  }

  lemma LeaveMoves(t: Tables, pos: Netplayer)
    requires Inv(t) && InRange(t, pos)
    ensures Moves(t, OnLeaveGame(t, pos), ChangeOf(t, LeaveGame(pos)))
  {
    hide Vacate, FirstOther, SeatOf, Route, Chains, LockStep, Sized, Reseats, Reroutes, Inv, Empty;
    var other := FirstOther(t.players, pos, 0);
    var r := OnLeaveGame(t, pos);
    if pos == t.host && other.None? {
      StayMoves(t);
      Aside(t, t, STAY, t.host, true);
    } else {
      var host := if pos == t.host then Player(AsIndex(other.value)) else t.host;
      VacateMoves(t, pos);
      LeaveIs(t, pos);
      Aside(t, Vacate(t, pos), Change(pos, Unknown, None), host, r.terminated);
    }
  }

  /** Unless the room ends, the one who leaves is gone and the next player becomes host if the host left. */
  lemma {:induction false} LeaveIs(t: Tables, pos: Netplayer)
    requires InRange(t, pos) && !(pos == t.host && FirstOther(t.players, pos, 0).None?)
    ensures var r := OnLeaveGame(t, pos);
      && r == Vacate(t, pos).(host := if pos == t.host then Player(AsIndex(FirstOther(t.players, pos, 0).value)) else t.host,
                              terminated := r.terminated)
      && r.terminated == Empty(r)
  {
    hide FirstOther;
  }

  lemma StayMoves(t: Tables)
    requires Inv(t)
    ensures Moves(t, t, STAY)
  {
    assert SeatOf(t, Unknown).None? && Route(t, Unknown).None?;
    hide SeatOf, Route;
  }

  /** Who is host and whether the room is over do not touch the tables. */
  lemma Aside(t: Tables, r: Tables, c: Change, host: Netplayer, terminated: bool)
    requires Moves(t, r, c)
    ensures Moves(t, r.(host := host, terminated := terminated), c)
  {
    var s := r.(host := host, terminated := terminated);
    assert forall pos :: SeatOf(s, pos) == SeatOf(r, pos) && Route(s, pos) == Route(r, pos);
  }

  lemma JoinStays(t: Tables, pos: Netplayer, pass: string)
    requires Inv(t) && ChangeOf(t, JoinGame(pos, pass)) == STAY
    ensures OnJoinGame(t, pos, pass) == t
  {
  }

  lemma SeatStays(t: Tables, pos: Netplayer)
    requires Inv(t)
    ensures ChangeOf(t, HsToDuelist(pos)) == STAY ==> OnHsToDuelist(t, pos) == t
    ensures ChangeOf(t, HsToObserver(pos)) == STAY ==> OnHsToObserver(t, pos) == t
  {
  }

  lemma KickMoves(t: Tables, kicker: Netplayer, target: Netplayer)
    requires Inv(t) && InRange(t, target)
    ensures Moves(t, OnHsKick(t, kicker, target), ChangeOf(t, HsKick(kicker, target)))
  {
    StayMoves(t);
    if ChangeOf(t, HsKick(kicker, target)) != STAY {
      if t.players[target.index].Some? {
        VacateMoves(t, target);
      } else {
        assert SeatOf(t, target).None? && Route(t, target).None?;
        hide SeatOf, Route;
      }
    }
  }

  /** Every legal event changes the seating, and the channel tables with it, exactly as `ChangeOf` says. */
  lemma StepMoves(t: Tables, e: Event)
    requires Inv(t) && Legal(t, e)
    ensures Moves(t, Step(t, e), ChangeOf(t, e))
  {
    StayMoves(t);
    hide OnJoinGame, OnHsToDuelist, OnHsToObserver, OnLeaveGame, OnPlayerInfo, Vacate;
    match e
    case ClientJoin(channel, asked) => if t.stage == Begin && asked { ClientJoinMoves(t, channel); }
    case CreateGame(pass) =>
    case PlayerInfo(pos, name) => PlayerInfoMoves(t, pos, name);
    case JoinGame(pos, pass) => if ChangeOf(t, e) != STAY { JoinMoves(t, pos, pass); } else { JoinStays(t, pos, pass); }
    case HsToDuelist(pos) => if ChangeOf(t, e) != STAY { ToDuelistMoves(t, pos); } else { SeatStays(t, pos); }
    case HsToObserver(pos) => if ChangeOf(t, e) != STAY { ToObserverMoves(t, pos); } else { SeatStays(t, pos); }
    case HsKick(pos, target) => KickMoves(t, pos, target);
    case LeaveGame(pos) => LeaveMoves(t, pos);
    case Advance(stage) =>
  }

  // ---------- the host ----------

  predicate InRoom(pos: Netplayer) { pos.Player? || pos.Observer? }

  lemma EmptyMeans(t: Tables)
    requires Sized(t)
    ensures Empty(t) <==> forall pos :: InRoom(pos) ==> SeatOf(t, pos).None?
  {
    if i :| 0 <= i < |t.players| && t.players[i].Some? {
      assert SeatOf(t, Player(i)).Some?;
    } else if i :| 0 <= i < |t.observers.entries| && t.observers.entries[i].Some? {
      assert SeatOf(t, Observer(i)).Some?;
    }
  }

  /** The host stays seated if it is not the one who gets up, or if it is the one who sits down. */
  lemma HostFollows(t: Tables, r: Tables, c: Change)
    requires !t.terminated && HostSeated(t) && Sized(t) && Sized(r) && Reseats(t, r, c)
    requires InRoom(r.host)
    requires (r.host == c.into && c.channel.Some?) || (r.host != c.out && SeatOf(t, r.host).Some?)
    ensures HostSeated(r)
  {
    assert SeatOf(r, r.host).Some?;
    assert Seated(r, r.host).Some?;
  }

  lemma EmptyStays(t: Tables, r: Tables, c: Change)
    requires Sized(t) && Sized(r) && Reseats(t, r, c) && Empty(t) && (c.channel.Some? ==> !InRoom(c.into))
    ensures Empty(r)
  {
    EmptyMeans(t);
    EmptyMeans(r);
    hide SeatOf, Empty;
  }

  /** Nobody but the host moves the host, and it moves with its client or, if that client leaves, to a player who stays. */
  lemma HostStays(t: Tables, e: Event)
    requires Inv(t) && Legal(t, e)
    ensures HostSeated(Step(t, e))
  {
    var r, c := Step(t, e), ChangeOf(t, e);
    StepMoves(t, e);
    HostAfter(t, e);
    EmptyMeans(t);
    hide Chains, LockStep, OwnChannels, OneSeatEach, Step, Empty, Reseats, Reroutes, HostSeated;
    if r.terminated {
      Over(r);
    } else if Empty(t) && !(c.channel.Some? && InRoom(c.into)) {
      EmptyStays(t, r, c);
      Deserted(r);
    } else {
      if !Empty(t) { SeatedHost(t); }
      HostFollows(t, r, c);
    }
  }

  lemma Over(t: Tables) requires t.terminated ensures HostSeated(t) {}

  lemma Deserted(t: Tables) requires Empty(t) ensures HostSeated(t) {}

  lemma SeatedHost(t: Tables)
    requires HostSeated(t) && !t.terminated && !Empty(t)
    ensures InRoom(t.host) && SeatOf(t, t.host).Some?
  {
  }

  /** Who is host after an event that does not end the room. */
  lemma HostAfter(t: Tables, e: Event)
    requires Inv(t) && Legal(t, e)
    ensures var r, c := Step(t, e), ChangeOf(t, e);
      && (!r.terminated && !Empty(t) ==>
            if t.host == c.out && c.channel.Some? then r.host == c.into
            else if t.host == c.out then InRoom(r.host) && r.host != c.out && SeatOf(t, r.host).Some?
            else r.host == t.host)
      && (!r.terminated && Empty(t) && c.channel.Some? && InRoom(c.into) ==> r.host == c.into)
      && (c.channel.Some? && InRoom(t.host) && t.host == c.out ==> InRoom(c.into))
  {
    if !Empty(t) { SeatedHost(t); }
    hide Empty, Insert, TryRemove, Bind, OnPlayerInfo;
    match e
    case LeaveGame(pos) =>
      var other := FirstOther(t.players, pos, 0);
      if pos == t.host && other.Some? {
        LeaveIs(t, pos);
        hide OnLeaveGame;
        assert Seated(t, Player(other.value)).Some?;
      }
    case _ =>
  }

  // ---------- runs ----------

  lemma StepKeeps(t: Tables, e: Event)
    requires Inv(t) && Legal(t, e)
    ensures Inv(Step(t, e))
  {
    StepMoves(t, e);
    HostStays(t, e);
    NewcomerIsNew(t, e);
    hide Chains, LockStep, OwnChannels, OneSeatEach, HostSeated, Sized, Reseats, Reroutes, Step, Legal, ChangeOf;
    ReseatKeeps(t, Step(t, e), ChangeOf(t, e));
  }

  /** Whoever sits down somewhere came from the seat given up, or from nowhere. */
  lemma NewcomerIsNew(t: Tables, e: Event)
    requires Inv(t) && Legal(t, e)
    ensures var c := ChangeOf(t, e);
      c.channel.Some? ==> SeatOf(t, c.out) == c.channel || forall pos :: SeatOf(t, pos) != c.channel
  {
  }

  ghost predicate LegalRun(t: Tables, es: seq<Event>)
    decreases es
  {
    es == [] || (Chains(t) && Legal(t, es[0]) && LegalRun(Step(t, es[0]), es[1..]))
  }

  function Run(t: Tables, es: seq<Event>): Tables
    requires LegalRun(t, es)
    decreases es
  {
    if es == [] then t else Run(Step(t, es[0]), es[1..])
  }

  lemma NewRoomKeeps(seats: nat)
    requires seats <= 0x100
    ensures Inv(NewRoom(seats))
  {
  }

  /**
  In every reachable room the channel tables agree with the seat tables at every position and hand out the same
  keys, each client holds one seat, and until the room is over a room with anyone in it has a seated host.
  */
  lemma {:induction false} RunKeeps(t: Tables, es: seq<Event>)
    requires Inv(t) && LegalRun(t, es)
    ensures Inv(Run(t, es))
    decreases es
  {
    if es != [] {
      StepKeeps(t, es[0]);
      hide Inv, Chains, Legal, Step;
      RunKeeps(Step(t, es[0]), es[1..]);
    }
  }

  /** A message to everybody reaches exactly the clients in the room, each at one position. */
  lemma {:induction false} BroadcastReaches(seats: nat, es: seq<Event>, channel: Channel)
    requires seats <= 0x100 && LegalRun(NewRoom(seats), es)
    ensures var t := Run(NewRoom(seats), es);
      && ((exists pos :: InRoom(pos) && Route(t, pos) == Some(channel)) <==>
          (exists pos :: InRoom(pos) && SeatOf(t, pos) == Some(channel)))
      && (forall p, q :: Route(t, p) == Some(channel) && Route(t, q) == Some(channel) ==> p == q)
  {
    NewRoomKeeps(seats);
    RunKeeps(NewRoom(seats), es);
    var t := Run(NewRoom(seats), es);
    hide Run, LegalRun, SeatOf, Route, Chains, LockStep, HostSeated, Sized;
    assert forall pos :: Route(t, pos) == SeatOf(t, pos);
  }

  /**
  A client whose position is where it sits keeps a true position: after its own request it sits at the position the
  request hands back, and no other client's request moves it unless the host kicks it.
  */
  lemma PositionStaysTrue(t: Tables, e: Event, pos: Netplayer, channel: Channel)
    requires Inv(t) && Legal(t, e) && SeatOf(t, pos) == Some(channel)
    ensures var r, c := Step(t, e), ChangeOf(t, e);
      && (c.out == pos && c.channel.Some? ==> SeatOf(r, c.into) == Some(channel) && (c.into != pos ==> SeatOf(r, pos).None?))
      && (c.out == pos && c.channel.None? ==> e == LeaveGame(pos) || (e.HsKick? && e.target == pos))
      && (c.out == pos && c.channel.None? ==> forall p :: SeatOf(r, p) != Some(channel))
      && (c.out != pos ==> SeatOf(r, pos) == Some(channel))
  {
    StepMoves(t, e);
    if ChangeOf(t, e).channel.Some? { IntoIsVacant(t, e); }
    NewcomerIsNew(t, e);
    WhoLeaves(t, e);
    hide Chains, LockStep, OwnChannels, HostSeated, Sized, Reroutes, Step, SeatOf;
  }

  lemma WhoLeaves(t: Tables, e: Event)
    ensures var c := ChangeOf(t, e);
      && (c.channel.None? && c.out != Unknown ==> e == LeaveGame(c.out) || (e.HsKick? && e.target == c.out))
  {
  }

  /** Nobody sits down on an occupied seat. */
  lemma IntoIsVacant(t: Tables, e: Event)
    requires Inv(t) && Legal(t, e) && ChangeOf(t, e).channel.Some?
    ensures SeatOf(t, ChangeOf(t, e).into).None?
  {
    InsertVacant(t.uninit);
    InsertVacant(t.observers);
  }

  lemma InsertVacant<T>(s: Slab<T>)
    requires Chained(s)
    ensures Get(s, VacantKey(s)).None?
  {
  }
}
