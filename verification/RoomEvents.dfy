/** What each event does to a room, told by the seats. */
module RoomEvents {
  // One lemma for each request (`ygopro/src/ygopro_handlers.rs`), in terms of who sits where before
  // and after it: when it does anything, where the client goes, who is host then, and that nobody
  // else moves.

  import opened Options
  import opened Slabs
  import opened Room

  /** Everybody but the occupants of the two seats stays, with the name they gave. */
  ghost predicate OthersStay(t: Tables, r: Tables, a: Netplayer, b: Netplayer) {
    |r.players| == |t.players| && forall pos :: pos != a && pos != b ==> Seated(r, pos) == Seated(t, pos)
  }

  /** Who sat on one seat sits on another now, which was free. */
  ghost predicate Moved(t: Tables, r: Tables, from: Netplayer, to: Netplayer) {
    && Seated(t, from).Some? && Seated(t, to).None?
    && Seated(r, to) == Seated(t, from) && Seated(r, from).None? && OthersStay(t, r, from, to)
  }

  /** The first free seat, if there is one. */
  ghost predicate FreeSeat(t: Tables, i: U8) {
    i < |t.players| && Seated(t, Player(i)).None? && forall j: U8 :: j < i ==> Seated(t, Player(j)).Some?
  }

  ghost predicate FullTable(t: Tables) { forall i: U8 :: i < |t.players| ==> Seated(t, Player(i)).Some? }

  /** No player and no observer. */
  ghost predicate Deserted(t: Tables) {
    forall pos: Netplayer :: pos.Player? || pos.Observer? ==> Seated(t, pos).None?
  }

  /** Of the room itself only the host may differ. */
  predicate SameRoom(t: Tables, r: Tables) { r.pass == t.pass && r.stage == t.stage && r.terminated == t.terminated }

  lemma DesertedIsEmpty(t: Tables)
    requires Inv(t)
    ensures Deserted(t) <==> Empty(t)
  {
    EmptyMeans(t);
    hide Empty;
    assert forall pos :: SeatOf(t, pos).None? <==> Seated(t, pos).None?;
  }

  lemma SeatFound(t: Tables)
    requires Inv(t)
    ensures var vacant := FirstVacant(t.players, 0);
      if vacant.Some? then AsIndex(vacant.value) == vacant.value && FreeSeat(t, AsIndex(vacant.value)) else FullTable(t)
  {
  }

  /** A new client waits under a key nobody has, without a name, if it asks before the duel begins. */
  lemma ClientJoins(t: Tables, channel: Channel, asked: bool) returns (key: nat)
    requires Inv(t) && Legal(t, ClientJoin(channel, asked))
    ensures var r := Step(t, ClientJoin(channel, asked));
      if t.stage == Begin && asked then
        && key < 0x100 && Seated(t, Undecided(key)).None? && Seated(r, Undecided(key)) == Some(Occupant("", channel))
        && OthersStay(t, r, Undecided(key), Unknown) && SameRoom(t, r) && r.host == t.host
      else r == t
  {
    InsertGets(t.uninit, Occupant("", channel));
    key := VacantKey(t.uninit);
    hide Insert, VacantKey, Chained;
  }

  /** A waiting client gives its name; nobody else's changes. */
  lemma NameGiven(t: Tables, pos: Netplayer, name: string)
    requires Inv(t) && Legal(t, PlayerInfo(pos, name))
    ensures var r := Step(t, PlayerInfo(pos, name));
      && OthersStay(t, r, pos, Unknown) && SameRoom(t, r) && r.host == t.host
      && Seated(r, pos) == (if pos.Undecided? && Seated(t, pos).Some? then Some(Occupant(name, Seated(t, pos).value.channel)) else Seated(t, pos))
  {
  }

  /**
  A waiting client that knows the password, if there is one, takes the first free seat, or watches if there is none;
  it becomes the host if nobody was in the room. Any other request changes nothing.
  */
  lemma GameJoined(t: Tables, pos: Netplayer, pass: string) returns (to: Netplayer)
    requires Inv(t) && Legal(t, JoinGame(pos, pass))
    ensures var r := Step(t, JoinGame(pos, pass));
      if (t.pass == "" || pass == t.pass) && pos.Undecided? && Seated(t, pos).Some? then
        && Moved(t, r, pos, to) && SameRoom(t, r)
        && (if FullTable(t) then to.Observer? else to.Player? && FreeSeat(t, to.index))
        && r.host == if Deserted(t) then to else t.host
      else r == t
  {
    SeatFound(t);
    DesertedIsEmpty(t);
    hide Deserted, Empty;
    to := JoinPosition(t);
    if (t.pass == "" || pass == t.pass) && pos.Undecided? && Seated(t, pos).Some? {
      var who := Seated(t, pos).value;
      RemoveGets(t.uninit, pos.index);
      hide TryRemove;
      if FirstVacant(t.players, 0).Some? {
        hide Insert, VacantKey, Chained, Bind, Inv;
      } else {
        InsertGets(t.observers, who);
        hide Insert, VacantKey, Chained, Bind, Inv, FreeSeat;
      }
    }
  }

  /** An observer takes the first free seat, if there is one; the host stays the host. */
  lemma BecomesDuelist(t: Tables, pos: Netplayer) returns (to: Netplayer)
    requires Inv(t) && Legal(t, HsToDuelist(pos))
    ensures var r := Step(t, HsToDuelist(pos));
      if pos.Observer? && Seated(t, pos).Some? && !FullTable(t) then
        && Moved(t, r, pos, to) && SameRoom(t, r) && to.Player? && FreeSeat(t, to.index)
        && r.host == if t.host == pos then to else t.host
      else r == t
  {
    SeatFound(t);
    to := JoinPosition(t);
    if pos.Observer? && Seated(t, pos).Some? && !FullTable(t) {
      RemoveGets(t.observers, pos.index);
      hide TryRemove, Chained, Bind, Inv;
    }
  }

  /** A player leaves the table to watch; the host stays the host. */
  lemma BecomesObserver(t: Tables, pos: Netplayer) returns (to: Netplayer)
    requires Inv(t) && Legal(t, HsToObserver(pos))
    ensures var r := Step(t, HsToObserver(pos));
      if pos.Player? && Seated(t, pos).Some? then
        && Moved(t, r, pos, to) && SameRoom(t, r) && to.Observer?
        && r.host == if t.host == pos then to else t.host
      else r == t
  {
    to := Observer(AsIndex(VacantKey(t.observers)));
    if pos.Player? && Seated(t, pos).Some? {
      InsertGets(t.observers, Seated(t, pos).value);
      hide Insert, VacantKey, Chained, Bind, Inv;
    }
  }

  /** Before the duel begins the host may send any other player away, and nobody else may. */
  lemma Kicked(t: Tables, kicker: Netplayer, target: Netplayer)
    requires Inv(t) && Legal(t, HsKick(kicker, target))
    ensures var r := Step(t, HsKick(kicker, target));
      if kicker == t.host && t.stage == Begin && target.Player? && target != kicker && Seated(t, target).Some? then
        Seated(r, target).None? && OthersStay(t, r, target, Unknown) && SameRoom(t, r) && r.host == t.host
      else r == t
  {
  }

  /**
  Who leaves is gone. If it was the host, the first other player is host then; without another player the room ends
  with everybody in place. Otherwise it ends exactly if no player and no observer is left.
  */
  lemma Left(t: Tables, pos: Netplayer)
    requires Inv(t) && Legal(t, LeaveGame(pos))
    ensures var r := Step(t, LeaveGame(pos));
      if pos == t.host && NoOther(t, pos) then r == t.(terminated := true)
      else
        && Seated(r, pos).None? && OthersStay(t, r, pos, Unknown) && r.pass == t.pass && r.stage == t.stage
        && (r.terminated <==> Deserted(r))
        && (if pos == t.host then r.host.Player? && FirstBut(t, pos, r.host.index) else r.host == t.host)
  {
    hide FirstOther, FirstBut, NoOther, Vacate, Empty, Deserted, Seated;
    hide Chained, LockStep, OwnChannels, OneSeatEach, HostSeated, Sized;
    var r := Step(t, LeaveGame(pos));
    OtherFound(t, pos);
    StepKeeps(t, LeaveGame(pos));
    if !(pos == t.host && FirstOther(t.players, pos, 0).None?) {
      LeaveIs(t, pos);
      Vacated(t, pos);
      SeatsAside(Vacate(t, pos), r.host, r.terminated);
      DesertedIsEmpty(r);
      hide Inv, OnLeaveGame;
    }
  }

  lemma SeatsAside(t: Tables, host: Netplayer, terminated: bool)
    ensures var r := t.(host := host, terminated := terminated);
      forall pos :: Seated(r, pos) == Seated(t, pos)
  {
  }

  ghost predicate NoOther(t: Tables, pos: Netplayer) {
    forall i: U8 :: Player(i) != pos ==> Seated(t, Player(i)).None?
  }

  /** The first player other than `pos`. */
  ghost predicate FirstBut(t: Tables, pos: Netplayer, i: U8) {
    && Player(i) != pos && Seated(t, Player(i)).Some?
    && forall j: U8 :: j < i && Player(j) != pos ==> Seated(t, Player(j)).None?
  }

  lemma {:induction false} OtherFound(t: Tables, pos: Netplayer)
    requires Inv(t)
    ensures var other := FirstOther(t.players, pos, 0);
      if other.Some? then FirstBut(t, pos, AsIndex(other.value)) && !NoOther(t, pos) else NoOther(t, pos)
  {
    assert |t.players| <= 0x100;
    hide Inv;
    var other := FirstOther(t.players, pos, 0);
    if other.Some? {
      assert AsIndex(other.value) == other.value;
      forall j: U8 | j < other.value && Player(j) != pos ensures Seated(t, Player(j)).None? { assert AsIndex(j) == j; }
      assert Seated(t, Player(AsIndex(other.value))).Some?;
    } else {
      forall j: U8 | Player(j) != pos ensures Seated(t, Player(j)).None? { assert AsIndex(j) == j; }
    }
  }

  lemma Vacated(t: Tables, pos: Netplayer)
    requires Inv(t) && InRange(t, pos)
    ensures var r := Vacate(t, pos);
      Seated(r, pos).None? && OthersStay(t, r, pos, Unknown) && r.pass == t.pass && r.stage == t.stage && r.host == t.host
  {
    match pos
    case Player(_) =>
    case Observer(i) => RemoveGets(t.observers, i);
    case Undecided(i) => RemoveGets(t.uninit, i);
    case Unknown =>
  }

  /** A password and the stage of the duel touch nobody. */
  lemma RoomSet(t: Tables, e: Event)
    requires Inv(t) && Legal(t, e) && (e.CreateGame? || e.Advance?)
    ensures var r := Step(t, e);
      && OthersStay(t, r, Unknown, Unknown) && r.host == t.host && r.terminated == t.terminated
      && r.pass == (if e.CreateGame? then e.pass else t.pass)
      && r.stage == (if e.Advance? then e.stage else t.stage)
  {
  }
}
