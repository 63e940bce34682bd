/**
The room as the source keeps it: two objects' worth of tables that every handler updates in
place, one after the other. Each handler is proved to do what the function of the same name in
`Room` says, and every removal from a channel slab to find its key.
*/
module RoomState {
  import opened Options
  import opened Slabs
  import opened Room
  import R = Room

  lemma ClearTwice(routes: seq<Option<Channel>>, i: nat)
    ensures Bind(routes, i, None) == Bind(Bind(routes, i, None), i, None)
    ensures i < |routes| && routes[i].None? ==> Bind(routes, i, None) == routes
  {
  }

  class Sender {
    var players: seq<Option<Channel>>
    var observers: Slab<Channel>
    var undecided: Slab<Channel>

    constructor ()
      ensures players == [] && observers == Slab([], []) && undecided == Slab([], [])
    {
      players, observers, undecided := [], Slab([], []), Slab([], []);
    }

    /** Grows the slots with unbound channels if the player joins out of order. */
    method SetPlayer(index: nat, channel: Channel)
      modifies `players
      ensures players == Bind(old(players), index, Some(channel))
    {
      if |players| <= index {
        players := players + seq(index + 1 - |players|, _ => None);
      }
      players := players[index := Some(channel)];
    }

    method ClearPlayer(index: nat)
      modifies `players
      ensures players == Bind(old(players), index, None)
    {
      if |players| <= index {
        players := players + seq(index + 1 - |players|, _ => None);
      }
      players := players[index := None];
    }
  }

  class Duel {
    var players: seq<Option<Occupant>>
    var observers: Slab<Occupant>
    var uninit: Slab<Occupant>
    var host: Netplayer
    var pass: string
    var stage: Stage
    var terminated: bool
    const sender: Sender

    function View(): Tables
      reads this, sender
    {
      Tables(players, observers, uninit, sender.players, sender.observers, sender.undecided, host, pass, stage, terminated)
    }

    ghost predicate Valid()
      reads this, sender
    {
      Inv(View())
    }

    constructor (seats: nat)
      requires seats <= 0x100
      ensures Valid() && View() == NewRoom(seats) && fresh(sender)
    {
      players, observers, uninit := seq(seats, _ => None), Slab([], []), Slab([], []);
      host, pass, stage, terminated := Unknown, "", Begin, false;
      sender := new Sender();
      new;
      NewRoomKeeps(seats);
    }

    method OnClientJoin(channel: Channel, asked: bool) returns (position: Option<Netplayer>)
      requires Valid() && Legal(View(), ClientJoin(channel, asked))
      modifies this, sender
      ensures View() == R.OnClientJoin(old(View()), channel, asked)
      ensures position.Some? ==> ChangeOf(old(View()), ClientJoin(channel, asked)).into == position.value
    {
      if stage != Begin || !asked { return None; }
      position := Some(Undecided(AsIndex(VacantKey(uninit))));
      uninit := Insert(uninit, Occupant("", channel));
      sender.undecided := Insert(sender.undecided, channel);
    }

    method OnPlayerInfo(pos: Netplayer, name: string)
      modifies this
      ensures View() == R.OnPlayerInfo(old(View()), pos, name)
    {
      if !pos.Undecided? || Get(uninit, pos.index).None? { return; }
      var waiting := uninit.entries[pos.index].value;
      uninit := uninit.(entries := uninit.entries[pos.index := Some(waiting.(name := name))]);
    }

    method OnJoinGame(pos: Netplayer, given: string) returns (extra: Netplayer)
      requires Valid() && Legal(View(), JoinGame(pos, given))
      modifies this, sender
      ensures View() == R.OnJoinGame(old(View()), pos, given)
      ensures ChangeOf(old(View()), JoinGame(pos, given)).channel.Some? ==> extra == ChangeOf(old(View()), JoinGame(pos, given)).into
    {
      extra := pos;
      if (pass != "" && given != pass) || !pos.Undecided? { return; }
      var found := Get(uninit, pos.index);
      if found.None? { return; }
      var player := found.value;
      uninit := TryRemove(uninit, pos.index);
      sender.undecided := Remove(sender.undecided, pos.index);
      var creator := Empty(View());
      var vacant := FirstVacant(players, 0);
      extra := if vacant.Some? then Player(AsIndex(vacant.value)) else Observer(AsIndex(VacantKey(observers)));
      if creator {
        host := extra;
      }
      if vacant.Some? {
        players := players[vacant.value := Some(player)];
        sender.SetPlayer(vacant.value, player.channel);
      } else {
        observers := Insert(observers, player);
        sender.observers := Insert(sender.observers, player.channel);
      }
    }

    method OnHsToDuelist(pos: Netplayer) returns (extra: Netplayer)
      requires Valid() && Legal(View(), HsToDuelist(pos))
      modifies this, sender
      ensures View() == R.OnHsToDuelist(old(View()), pos)
      ensures ChangeOf(old(View()), HsToDuelist(pos)).channel.Some? ==> extra == ChangeOf(old(View()), HsToDuelist(pos)).into
    {
      extra := pos;
      if !pos.Observer? { return; }
      var vacant := FirstVacant(players, 0);
      if vacant.None? { return; }
      var found := Get(observers, pos.index);
      if found.None? { return; }
      observers := TryRemove(observers, pos.index);
      sender.observers := Remove(sender.observers, pos.index);
      extra := Player(AsIndex(vacant.value));
      if host == pos {
        host := extra;
      }
      players := players[vacant.value := found];
      sender.SetPlayer(vacant.value, found.value.channel);
    }

    method OnHsToObserver(pos: Netplayer) returns (extra: Netplayer)
      requires Valid() && Legal(View(), HsToObserver(pos))
      modifies this, sender
      ensures View() == R.OnHsToObserver(old(View()), pos)
      ensures ChangeOf(old(View()), HsToObserver(pos)).channel.Some? ==> extra == ChangeOf(old(View()), HsToObserver(pos)).into
    {
      extra := pos;
      if !pos.Player? || |players| <= pos.index || players[pos.index].None? { return; }
      var player := players[pos.index].value;
      players := players[pos.index := None];
      sender.ClearPlayer(pos.index);
      extra := Observer(AsIndex(VacantKey(observers)));
      observers := Insert(observers, player);
      sender.observers := Insert(sender.observers, player.channel);
      if host == pos {
        host := extra;
      }
    }

    method OnHsKick(kicker: Netplayer, target: Netplayer)
      requires Valid() && Legal(View(), HsKick(kicker, target))
      modifies this, sender
      ensures View() == R.OnHsKick(old(View()), kicker, target)
    {
      if kicker != host || stage != Begin || !target.Player? || kicker == target { return; }
      if players[target.index].None? { return; }
      sender.ClearPlayer(target.index);
      players := players[target.index := None];
    }

    /** Takes the client out of both table sets. */
    method Vacate(pos: Netplayer)
      requires InRange(View(), pos) && LockStep(View())
      modifies this, sender
      ensures View() == R.Vacate(old(View()), pos)
    {
      match pos
      case Observer(i) =>
        if Get(observers, i).Some? {
          observers := TryRemove(observers, i);
          sender.observers := Remove(sender.observers, i);
        }
      case Player(i) =>
        ghost var before := sender.players;
        if stage == Begin {
          players := players[i := None];
          sender.ClearPlayer(i);
        }
        ClearTwice(before, i);
        players := players[i := None];
        sender.ClearPlayer(i);
      case Undecided(i) =>
        if Get(uninit, i).Some? {
          uninit := TryRemove(uninit, i);
          sender.undecided := Remove(sender.undecided, i);
        }
      case Unknown =>
    }

    /** The result tells whether the room is over. */
    method OnLeaveGame(pos: Netplayer) returns (over: bool)
      requires Valid() && Legal(View(), LeaveGame(pos))
      modifies this, sender
      ensures View() == R.OnLeaveGame(old(View()), pos) && over == terminated
    {
      if pos == host {
        var other := FirstOther(players, pos, 0);
        if other.None? {
          terminated := true;
          return true;
        }
        host := Player(AsIndex(other.value));
      }
      Vacate(pos);
      over := Empty(View());
      terminated := over;
    }

    /** Every legal event takes the room where `Step` says and keeps the invariant. */
    method Process(e: Event) returns (extra: Netplayer)
      requires Valid() && Legal(View(), e)
      modifies this, sender
      ensures Valid() && View() == Step(old(View()), e)
    {
      hide Inv, Chains;
      StepKeeps(View(), e);
      extra := Unknown;
      match e
      case ClientJoin(channel, asked) =>
        var position := OnClientJoin(channel, asked);
        if position.Some? { extra := position.value; }
      case CreateGame(given) => pass := given;
      case PlayerInfo(pos, name) => OnPlayerInfo(pos, name);
      case JoinGame(pos, given) => extra := OnJoinGame(pos, given);
      case HsToDuelist(pos) => extra := OnHsToDuelist(pos);
      case HsToObserver(pos) => extra := OnHsToObserver(pos);
      case HsKick(pos, target) => OnHsKick(pos, target);
      case LeaveGame(pos) => var over := OnLeaveGame(pos);
      case Advance(next) => stage := next;
    }
  }
}
