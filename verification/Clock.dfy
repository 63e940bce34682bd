/** The clock of a duel, as three plugins keep it together. */
module Clock {
  // `time_limit` ticks and charges, `time_backed` gives time back from a budget, `time_compensator`
  // lets a wallet pay for quick confirmations (`ygopro/src/plugin/`). The ledger below records what
  // each of them did; its accounts balance over every run of a turn, in whatever order the handlers
  // of a response run.

  import opened Options

  /** A player's remaining time, wallet and budget: `time_limit`, `time_compensator`, `time_backed`. */
  datatype PlayerClock = PlayerClock(limit: U16, wallet: U16, budget: U16)

  datatype Config = Config(
    hostLimit: U16,
    addTime: U16,
    maxAddTime: U16,
    deposit: U16,
    ignoreUnder: U16,
    initialBalance: int)

  datatype State = State(players: seq<Option<PlayerClock>>, elapsed: U32, lastResponse: Option<nat>)

  const MAX16: U16 := 0xffff
  const MAX32: U32 := 0xffff_ffff

  function Min(a: int, b: int): int { if a < b then a else b }

  /** The elapsed time as the handlers cast it to sixteen bits. */
  function Cut(elapsed: U32): U16 { elapsed % 0x1_0000 }

  function SatSub(a: U16, b: U16): U16 { if a < b then 0 else a - b }

  function SatAdd(a: U16, b: U16): U16 { if a + b > MAX16 then MAX16 else a + b }

  function Clocked(s: State, p: nat): Option<PlayerClock> { if p < |s.players| then s.players[p] else None }

  function SetClock(s: State, p: nat, clock: PlayerClock): State
    requires p < |s.players|
  {
    s.(players := s.players[p := Some(clock)])
  }

  // ---------- the handlers ----------

  /** Every second someone is awaited counts, up to what 32 bits hold; the player awaited times out at the limit. */
  function Tick(c: Config, s: State): State {
    if s.lastResponse.None? || c.hostLimit == 0 then s else s.(elapsed := Min(s.elapsed + 1, MAX32))
  }

  predicate TimesOut(c: Config, s: State) {
    s.lastResponse.Some? && c.hostLimit > 0 && Clocked(s, s.lastResponse.value).Some?
    && Tick(c, s).elapsed >= Clocked(s, s.lastResponse.value).value.limit
  }

  /** The wallet pays for a short enough wait it can afford. */
  predicate WalletPays(c: Config, s: State, p: nat) {
    c.hostLimit > 0 && s.lastResponse == Some(p) && Clocked(s, p).Some?
    && Cut(s.elapsed) < c.ignoreUnder && Cut(s.elapsed) <= Clocked(s, p).value.wallet
  }

  function ConfirmWallet(c: Config, s: State, p: nat): State {
    if !WalletPays(c, s, p) then s
    else
      var clock := Clocked(s, p).value;
      SetClock(s, p, clock.(wallet := clock.wallet - Cut(s.elapsed))).(elapsed := 0)
  }

  predicate ConfirmCharges(c: Config, s: State, p: nat) {
    c.hostLimit > 0 && s.lastResponse == Some(p) && Clocked(s, p).Some?
  }

  function ConfirmLimit(c: Config, s: State, p: nat): State {
    if !ConfirmCharges(c, s, p) then s
    else
      var clock := Clocked(s, p).value;
      SetClock(s, p, clock.(limit := SatSub(clock.limit, Cut(s.elapsed)))).(elapsed := 0)
  }

  /** The three handlers that follow a response; they share a priority, so any order of them may run. */
  datatype Handler = Charge | GiveBack | Deposit

  predicate Earns(c: Config, s: State, p: nat, meaningful: bool) {
    meaningful && Clocked(s, p).Some? && Clocked(s, p).value.budget > 0 && Clocked(s, p).value.limit < c.hostLimit
  }

  function Respond(c: Config, s: State, p: nat, meaningful: bool, h: Handler): State {
    match h
    case Charge =>
      if c.hostLimit == 0 then s
      else if Clocked(s, p).None? then s.(elapsed := 0)
      else
        var clock := Clocked(s, p).value;
        SetClock(s, p, clock.(limit := SatSub(clock.limit, Cut(s.elapsed)))).(elapsed := 0)
    case GiveBack =>
      if !Earns(c, s, p, meaningful) then s
      else
        var clock := Clocked(s, p).value;
        SetClock(s, p, clock.(limit := SatAdd(clock.limit, c.addTime), budget := SatSub(clock.budget, c.addTime)))
    case Deposit =>
      if !Earns(c, s, p, meaningful) then s
      else
        var clock := Clocked(s, p).value;
        SetClock(s, p, clock.(wallet := SatAdd(clock.wallet, c.deposit)))
  }

  function TurnBudget(c: Config): U16 {
    if c.maxAddTime == 0 then (if c.addTime > 0 then c.hostLimit else 0) else c.maxAddTime
  }

  function TurnWallet(c: Config): U16
    requires c.initialBalance < 0x8000
  {
    if c.initialBalance < 0 then c.hostLimit else c.initialBalance
  }

  /** A new turn refills every clock; without a host limit the budget is left alone. */
  function Refilled(c: Config, clock: PlayerClock): PlayerClock
    requires c.initialBalance < 0x8000
  {
    PlayerClock(c.hostLimit, TurnWallet(c), if c.hostLimit > 0 then TurnBudget(c) else clock.budget)
  }

  function Refill(c: Config, players: seq<Option<PlayerClock>>): (r: seq<Option<PlayerClock>>)
    requires c.initialBalance < 0x8000
    ensures |r| == |players|
    ensures forall i :: 0 <= i < |players| ==> r[i] == if players[i].Some? then Some(Refilled(c, players[i].value)) else None
  {
    if players == [] then []
    else [if players[0].Some? then Some(Refilled(c, players[0].value)) else None] + Refill(c, players[1..])
  }

  function NewTurn(c: Config, s: State): State
    requires c.initialBalance < 0x8000
  {
    s.(players := Refill(c, s.players), elapsed := 0)
  }

  // ---------- a turn ----------

  datatype Event =
    | Ticks
    | Confirm(player: nat)
    | Answer(player: nat, meaningful: bool, order: seq<Handler>)
    | Await(player: nat)

  predicate AnyOrder(order: seq<Handler>) {
    |order| == 3 && Charge in order && GiveBack in order && Deposit in order
  }

  function RespondAll(c: Config, s: State, p: nat, meaningful: bool, order: seq<Handler>): State
    decreases order
  {
    if order == [] then s else RespondAll(c, Respond(c, s, p, meaningful, order[0]), p, meaningful, order[1..])
  }

  /** A confirmation goes through the wallet first: its handler has the earlier priority. */
  function Step(c: Config, s: State, e: Event): State {
    match e
    case Ticks => Tick(c, s)
    case Confirm(p) => ConfirmLimit(c, ConfirmWallet(c, s, p), p)
    case Answer(p, meaningful, order) => RespondAll(c, s, p, meaningful, order)
    case Await(p) => s.(lastResponse := Some(p))
  }

  function Run(c: Config, s: State, es: seq<Event>): State
    decreases es
  {
    if es == [] then s else Run(c, Step(c, s, es[0]), es[1..])
  }

  // ---------- the ledger ----------

  /** What a turn did to one player's clock, in seconds. */
  datatype Account = Account(deducted: nat, credited: nat, absorbed: nat, deposited: nat)

  /** All accounts, the seconds that were counted, and the seconds that were dropped without being charged to anyone. */
  datatype Ledger = Ledger(accounts: seq<Account>, ticked: nat, waived: nat)

  const ZERO := Account(0, 0, 0, 0)

  function Opened(players: nat): Ledger { Ledger(seq(players, _ => ZERO), 0, 0) }

  function Entry(l: Ledger, p: nat, a: Account): Ledger {
    if p < |l.accounts| then l.(accounts := l.accounts[p := a]) else l
  }

  function At(l: Ledger, p: nat): Account { if p < |l.accounts| then l.accounts[p] else ZERO }

  /** A charge takes what is left at most; what the limit cannot pay, or sixteen bits cannot hold, is dropped. */
  function Charged(l: Ledger, s: State, p: nat): Ledger {
    if Clocked(s, p).None? then l.(waived := l.waived + s.elapsed)
    else
      var paid := Min(Clocked(s, p).value.limit, Cut(s.elapsed));
      Entry(l, p, At(l, p).(deducted := At(l, p).deducted + paid)).(waived := l.waived + s.elapsed - paid)
  }

  function LogTick(c: Config, l: Ledger, s: State): Ledger {
    if s.lastResponse.None? || c.hostLimit == 0 || s.elapsed == MAX32 then l else l.(ticked := l.ticked + 1)
  }

  function LogWallet(c: Config, l: Ledger, s: State, p: nat): Ledger {
    if !WalletPays(c, s, p) then l
    else Entry(l, p, At(l, p).(absorbed := At(l, p).absorbed + Cut(s.elapsed))).(waived := l.waived + s.elapsed - Cut(s.elapsed))
  }

  function LogConfirm(c: Config, l: Ledger, s: State, p: nat): Ledger {
    if ConfirmCharges(c, s, p) then Charged(l, s, p) else l
  }

  function LogRespond(c: Config, l: Ledger, s: State, p: nat, meaningful: bool, h: Handler): Ledger {
    match h
    case Charge => if c.hostLimit == 0 then l else Charged(l, s, p)
    case GiveBack =>
      if !Earns(c, s, p, meaningful) then l
      else Entry(l, p, At(l, p).(credited := At(l, p).credited + Min(c.addTime, MAX16 - Clocked(s, p).value.limit)))
    case Deposit =>
      if !Earns(c, s, p, meaningful) then l
      else Entry(l, p, At(l, p).(deposited := At(l, p).deposited + Min(c.deposit, MAX16 - Clocked(s, p).value.wallet)))
  }

  function LogAll(c: Config, l: Ledger, s: State, p: nat, meaningful: bool, order: seq<Handler>): Ledger
    decreases order
  {
    if order == [] then l
    else LogAll(c, LogRespond(c, l, s, p, meaningful, order[0]), Respond(c, s, p, meaningful, order[0]), p, meaningful, order[1..])
  }

  function Log(c: Config, l: Ledger, s: State, e: Event): Ledger {
    match e
    case Ticks => LogTick(c, l, s)
    case Confirm(p) => LogConfirm(c, LogWallet(c, l, s, p), ConfirmWallet(c, s, p), p)
    case Answer(p, meaningful, order) => LogAll(c, l, s, p, meaningful, order)
    case Await(_) => l
  }

  function Book(c: Config, l: Ledger, s: State, es: seq<Event>): Ledger
    decreases es
  {
    if es == [] then l else Book(c, Log(c, l, s, es[0]), Step(c, s, es[0]), es[1..])
  }

  // ---------- the accounts balance ----------

  /** Step a of the give-back policy as far as it overshoots: nothing for a step of zero or one. */
  function Overshoot(c: Config): nat { if c.addTime == 0 then 0 else c.addTime - 1 }

  /** Budget that is spent turns into credit; only the last credit may exceed what is left of it. */
  predicate WithinBudget(credited: nat, budget: nat, total: nat, overshoot: nat) {
    credited + budget <= total || (budget == 0 && credited <= total + overshoot)
  }

  predicate Balanced(c: Config, clock: PlayerClock, a: Account)
    requires c.initialBalance < 0x8000
  {
    && clock.limit + a.deducted == c.hostLimit + a.credited
    && clock.limit <= c.hostLimit + Overshoot(c)
    && WithinBudget(a.credited, clock.budget, TurnBudget(c), Overshoot(c))
    && clock.wallet + a.absorbed == TurnWallet(c) + a.deposited
  }

  function Paid(accounts: seq<Account>): nat {
    if accounts == [] then 0 else accounts[0].deducted + accounts[0].absorbed + Paid(accounts[1..])
  }

  ghost predicate Inv(c: Config, s: State, l: Ledger)
    requires c.initialBalance < 0x8000
  {
    && |l.accounts| == |s.players|
    && (forall p :: 0 <= p < |s.players| && s.players[p].Some? ==> Balanced(c, s.players[p].value, l.accounts[p]))
    && l.ticked == s.elapsed + Paid(l.accounts) + l.waived
  }

  lemma {:induction false} PaidUpdate(accounts: seq<Account>, p: nat, a: Account)
    requires p < |accounts|
    ensures Paid(accounts[p := a]) ==
      Paid(accounts) - accounts[p].deducted - accounts[p].absorbed + a.deducted + a.absorbed
    decreases accounts
  {
    var r := accounts[p := a];
    if p == 0 {
      assert r[1..] == accounts[1..];
    } else {
      assert r[1..] == accounts[1..][p - 1 := a];
      PaidUpdate(accounts[1..], p - 1, a);
    }
  }

  lemma {:induction false} PaidNothing(n: nat)
    ensures Paid(seq(n, _ => ZERO)) == 0
    decreases n
  {
    if n > 0 {
      assert seq(n, _ => ZERO)[1..] == seq(n - 1, _ => ZERO);
      PaidNothing(n - 1);
    }
  }

  lemma TurnStarts(c: Config, s: State)
    requires c.initialBalance < 0x8000 && c.hostLimit > 0
    ensures Inv(c, NewTurn(c, s), Opened(|s.players|))
  {
    PaidNothing(|s.players|);
  }

  lemma RespondKeeps(c: Config, s: State, l: Ledger, p: nat, meaningful: bool, h: Handler)
    requires c.initialBalance < 0x8000 && Inv(c, s, l)
    ensures Inv(c, Respond(c, s, p, meaningful, h), LogRespond(c, l, s, p, meaningful, h))
  {
    if p < |s.players| { PaidUpdate(l.accounts, p, At(LogRespond(c, l, s, p, meaningful, h), p)); }
  }

  lemma {:induction false} RespondAllKeeps(c: Config, s: State, l: Ledger, p: nat, meaningful: bool, order: seq<Handler>)
    requires c.initialBalance < 0x8000 && Inv(c, s, l)
    ensures Inv(c, RespondAll(c, s, p, meaningful, order), LogAll(c, l, s, p, meaningful, order))
    decreases order
  {
    hide Inv, Respond, LogRespond;
    if order != [] {
      RespondKeeps(c, s, l, p, meaningful, order[0]);
      RespondAllKeeps(c, Respond(c, s, p, meaningful, order[0]), LogRespond(c, l, s, p, meaningful, order[0]), p, meaningful, order[1..]);
    }
  }

  lemma WalletKeeps(c: Config, s: State, l: Ledger, p: nat)
    requires c.initialBalance < 0x8000 && Inv(c, s, l)
    ensures Inv(c, ConfirmWallet(c, s, p), LogWallet(c, l, s, p))
  {
    if p < |s.players| { PaidUpdate(l.accounts, p, At(LogWallet(c, l, s, p), p)); }
  }

  lemma LimitKeeps(c: Config, s: State, l: Ledger, p: nat)
    requires c.initialBalance < 0x8000 && Inv(c, s, l)
    ensures Inv(c, ConfirmLimit(c, s, p), LogConfirm(c, l, s, p))
  {
    if p < |s.players| { PaidUpdate(l.accounts, p, At(LogConfirm(c, l, s, p), p)); }
  }

  lemma StepKeeps(c: Config, s: State, l: Ledger, e: Event)
    requires c.initialBalance < 0x8000 && Inv(c, s, l)
    ensures Inv(c, Step(c, s, e), Log(c, l, s, e))
  {
    match e
    case Ticks =>
    case Confirm(p) =>
      WalletKeeps(c, s, l, p);
      LimitKeeps(c, ConfirmWallet(c, s, p), LogWallet(c, l, s, p), p);
    case Answer(p, meaningful, order) => RespondAllKeeps(c, s, l, p, meaningful, order);
    case Await(_) =>
  }

  lemma {:induction false} RunKeeps(c: Config, s: State, l: Ledger, es: seq<Event>)
    requires c.initialBalance < 0x8000 && Inv(c, s, l)
    ensures Inv(c, Run(c, s, es), Book(c, l, s, es))
    decreases es
  {
    hide Inv, Step, Log;
    if es != [] {
      StepKeeps(c, s, l, es[0]);
      RunKeeps(c, Step(c, s, es[0]), Log(c, l, s, es[0]), es[1..]);
    }
  }

  /**
  At any moment of a turn, whatever ticked, was confirmed or was answered: remaining and deducted time add up to the
  limit and the credit; the credit stays within the budget and the remaining time within the limit, both but for one
  step; the wallet and what it absorbed add up to its balance and deposits; and every second counted is pending, paid
  by some clock, or waived.
  */
  lemma {:induction false} AccountsBalance(c: Config, s: State, es: seq<Event>, p: nat)
    requires c.initialBalance < 0x8000 && c.hostLimit > 0 && Clocked(Run(c, NewTurn(c, s), es), p).Some?
    ensures var clock := Clocked(Run(c, NewTurn(c, s), es), p).value;
      var book := Book(c, Opened(|s.players|), NewTurn(c, s), es);
      var a := At(book, p);
      && clock.limit + a.deducted == c.hostLimit + a.credited
      && (c.addTime >= 1 ==> a.credited <= TurnBudget(c) + c.addTime - 1 && clock.limit <= c.hostLimit + c.addTime - 1)
      && clock.wallet + a.absorbed == TurnWallet(c) + a.deposited
      && book.ticked == Run(c, NewTurn(c, s), es).elapsed + Paid(book.accounts) + book.waived
  {
    TurnStarts(c, s);
    RunKeeps(c, NewTurn(c, s), Opened(|s.players|), es);
    hide Run, Book, NewTurn;
  }

  // ---------- no second is lost without a timeout ----------

  /** Answers and confirmations come from the player awaited, and nobody else is awaited while time is pending. */
  predicate Orderly(s: State, e: Event) {
    match e
    case Ticks => true
    case Confirm(p) => s.lastResponse == Some(p) && Clocked(s, p).Some?
    case Answer(p, _, order) => s.lastResponse == Some(p) && Clocked(s, p).Some? && AnyOrder(order)
    case Await(p) => s.elapsed == 0 && Clocked(s, p).Some?
  }

  predicate OrderlyRun(c: Config, s: State, es: seq<Event>)
    decreases es
  {
    es == [] || (Orderly(s, es[0]) && (es[0].Ticks? ==> !TimesOut(c, s)) && OrderlyRun(c, Step(c, s, es[0]), es[1..]))
  }

  /** The player awaited has more time left than is pending. */
  ghost predicate InTime(s: State) {
    s.elapsed == 0 || (s.lastResponse.Some? && Clocked(s, s.lastResponse.value).Some?
                       && s.elapsed < Clocked(s, s.lastResponse.value).value.limit)
  }

  lemma RespondInTime(c: Config, s: State, l: Ledger, p: nat, meaningful: bool, h: Handler)
    requires InTime(s) && Clocked(s, p).Some? && s.lastResponse == Some(p)
    ensures var r := Respond(c, s, p, meaningful, h);
      && InTime(r) && Clocked(r, p).Some? && r.lastResponse == s.lastResponse && |r.players| == |s.players|
      && LogRespond(c, l, s, p, meaningful, h).waived == l.waived
  {
  }

  lemma {:induction false} RespondAllInTime(c: Config, s: State, l: Ledger, p: nat, meaningful: bool, order: seq<Handler>)
    requires InTime(s) && Clocked(s, p).Some? && s.lastResponse == Some(p)
    ensures InTime(RespondAll(c, s, p, meaningful, order)) && LogAll(c, l, s, p, meaningful, order).waived == l.waived
    decreases order
  {
    hide InTime, Respond, LogRespond;
    if order != [] {
      RespondInTime(c, s, l, p, meaningful, order[0]);
      RespondAllInTime(c, Respond(c, s, p, meaningful, order[0]), LogRespond(c, l, s, p, meaningful, order[0]), p, meaningful, order[1..]);
    }
  }

  lemma StepInTime(c: Config, s: State, l: Ledger, e: Event)
    requires InTime(s) && Orderly(s, e) && (e.Ticks? ==> !TimesOut(c, s) && (s.lastResponse.Some? ==> Clocked(s, s.lastResponse.value).Some?))
    ensures InTime(Step(c, s, e)) && Log(c, l, s, e).waived == l.waived
  {
    match e
    case Answer(p, meaningful, order) => RespondAllInTime(c, s, l, p, meaningful, order);
    case _ =>
  }

  /** The player awaited keeps a seat. */
  ghost predicate Awaited(s: State) { s.lastResponse.Some? ==> Clocked(s, s.lastResponse.value).Some? }

  lemma {:induction false} RespondAllAwaited(c: Config, s: State, p: nat, meaningful: bool, order: seq<Handler>)
    requires Awaited(s)
    ensures Awaited(RespondAll(c, s, p, meaningful, order))
    decreases order
  {
    if order != [] {
      assert Awaited(Respond(c, s, p, meaningful, order[0]));
      hide Awaited, Respond;
      RespondAllAwaited(c, Respond(c, s, p, meaningful, order[0]), p, meaningful, order[1..]);
    }
  }

  lemma StepAwaited(c: Config, s: State, e: Event)
    requires Awaited(s) && Orderly(s, e)
    ensures Awaited(Step(c, s, e))
  {
    match e
    case Answer(p, meaningful, order) => RespondAllAwaited(c, s, p, meaningful, order);
    case _ =>
  }

  /** In an orderly run without a timeout no second is waived: each is pending or was paid in full. */
  lemma {:induction false} NothingWaived(c: Config, s: State, l: Ledger, es: seq<Event>)
    requires InTime(s) && Awaited(s) && OrderlyRun(c, s, es)
    ensures Book(c, l, s, es).waived == l.waived && InTime(Run(c, s, es))
    decreases es
  {
    if es != [] {
      assert Orderly(s, es[0]) && (es[0].Ticks? ==> !TimesOut(c, s));
      StepInTime(c, s, l, es[0]);
      StepAwaited(c, s, es[0]);
      hide InTime, Awaited, Step, Log, Orderly, TimesOut;
      NothingWaived(c, Step(c, s, es[0]), Log(c, l, s, es[0]), es[1..]);
    }
  }

  // ---------- what each handler does, field by field ----------

  /** Apart from the clock of one player, nothing but the pending time may differ. */
  predicate OnlyClock(s: State, r: State, p: nat) {
    && |r.players| == |s.players| && r.lastResponse == s.lastResponse
    && (forall i :: 0 <= i < |s.players| && i != p ==> r.players[i] == s.players[i])
    && (p < |s.players| ==> (r.players[p].Some? <==> s.players[p].Some?))
  }

  /**
  A tick counts a second while someone is awaited under a limit, up to what 32 bits hold, and times out exactly if the
  player awaited has a seat and no more than the counted seconds left.
  */
  lemma TickCounts(c: Config, s: State)
    ensures var r := Step(c, s, Ticks);
      && r.players == s.players && r.lastResponse == s.lastResponse
      && (s.lastResponse.None? || c.hostLimit == 0 ==> r.elapsed == s.elapsed && !TimesOut(c, s))
      && (s.lastResponse.Some? && c.hostLimit > 0 ==>
        && (s.elapsed < 0xffff_ffff ==> r.elapsed == s.elapsed + 1)
        && (s.elapsed == 0xffff_ffff ==> r.elapsed == s.elapsed)
        && (TimesOut(c, s) <==>
            && s.lastResponse.value < |s.players| && s.players[s.lastResponse.value].Some?
            && s.players[s.lastResponse.value].value.limit <= r.elapsed))
  {
  }

  /**
  A confirmation of the player awaited, under a limit, settles the pending time: from the wallet alone if the time is
  under the threshold and the wallet holds it, otherwise from the limit alone, as far as it goes. Any other
  confirmation changes nothing.
  */
  lemma ConfirmSettles(c: Config, s: State, p: nat)
    ensures var r := Step(c, s, Confirm(p));
      if c.hostLimit > 0 && s.lastResponse == Some(p) && p < |s.players| && s.players[p].Some? then
        OnlyClock(s, r, p) && r.elapsed == 0 &&
        var time, was, now := s.elapsed % 0x1_0000, s.players[p].value, r.players[p].value;
        && now.budget == was.budget
        && (time < c.ignoreUnder && time <= was.wallet ==> now.wallet + time == was.wallet && now.limit == was.limit)
        && (c.ignoreUnder <= time || was.wallet < time ==>
            now.wallet == was.wallet && now.limit == if time < was.limit then was.limit - time else 0)
      else r == s
  {
  }

  /** A response takes the pending time from the limit of the player who gave it, whatever it says. */
  lemma ChargeTakes(c: Config, s: State, p: nat, meaningful: bool)
    ensures var r := Respond(c, s, p, meaningful, Charge);
      && (c.hostLimit == 0 ==> r == s)
      && (c.hostLimit > 0 ==> r.elapsed == 0 && OnlyClock(s, r, p))
      && (c.hostLimit > 0 && p < |s.players| && s.players[p].Some? ==>
            var time, was, now := s.elapsed % 0x1_0000, s.players[p].value, r.players[p].value;
            && now.budget == was.budget && now.wallet == was.wallet
            && now.limit == if time < was.limit then was.limit - time else 0)
  {
  }

  /**
  A meaningful response of a player with budget left and less than the host's limit raises the limit by one step, or by
  what sixteen bits have room for, and takes the step from the budget as far as it goes. Any other response leaves
  limit and budget as they were; the wallet and the pending time are never touched.
  */
  lemma GiveBackRewards(c: Config, s: State, p: nat, meaningful: bool)
    ensures var r := Respond(c, s, p, meaningful, GiveBack);
      && OnlyClock(s, r, p) && r.elapsed == s.elapsed
      && (p < |s.players| && s.players[p].Some? ==>
            var was, now := s.players[p].value, r.players[p].value;
            && now.wallet == was.wallet
            && (meaningful && was.budget > 0 && was.limit < c.hostLimit ==>
                && now.limit == was.limit + (if c.addTime < 0xffff - was.limit then c.addTime else 0xffff - was.limit)
                && now.budget == was.budget - (if c.addTime < was.budget then c.addTime else was.budget))
            && (!meaningful || was.budget == 0 || c.hostLimit <= was.limit ==> now.limit == was.limit && now.budget == was.budget))
  {
  }

  /** The same responses pay the deposit into the wallet, as far as sixteen bits hold it, and no others do. */
  lemma DepositPays(c: Config, s: State, p: nat, meaningful: bool)
    ensures var r := Respond(c, s, p, meaningful, Deposit);
      && OnlyClock(s, r, p) && r.elapsed == s.elapsed
      && (p < |s.players| && s.players[p].Some? ==>
            var was, now := s.players[p].value, r.players[p].value;
            && now.limit == was.limit && now.budget == was.budget
            && (meaningful && was.budget > 0 && was.limit < c.hostLimit ==>
                now.wallet == was.wallet + (if c.deposit < 0xffff - was.wallet then c.deposit else 0xffff - was.wallet))
            && (!meaningful || was.budget == 0 || c.hostLimit <= was.limit ==> now.wallet == was.wallet))
  {
  }

  /** A new turn gives every seated player the host's limit, the opening balance and a fresh budget. */
  lemma TurnRefills(c: Config, s: State, p: nat)
    requires c.initialBalance < 0x8000 && p < |s.players|
    ensures var r := NewTurn(c, s);
      && r.elapsed == 0 && r.lastResponse == s.lastResponse && |r.players| == |s.players|
      && (s.players[p].None? ==> r.players[p].None?)
      && (s.players[p].Some? ==>
            r.players[p].Some? &&
            var was, now := s.players[p].value, r.players[p].value;
            && now.limit == c.hostLimit
            && (c.initialBalance < 0 ==> now.wallet == c.hostLimit)
            && (0 <= c.initialBalance ==> now.wallet == c.initialBalance)
            && (c.hostLimit == 0 ==> now.budget == was.budget)
            && (c.hostLimit > 0 && c.maxAddTime > 0 ==> now.budget == c.maxAddTime)
            && (c.hostLimit > 0 && c.maxAddTime == 0 ==> now.budget == if c.addTime > 0 then c.hostLimit else 0))
  {
  }

  // ---------- only meaningful answers earn time ----------

  predicate Idle(e: Event) { e.Answer? ==> !e.meaningful }

  /** Nobody gained time, nobody's budget moved, and no wallet grew. */
  ghost predicate NoGain(s: State, r: State) {
    && |r.players| == |s.players|
    && forall i :: 0 <= i < |s.players| ==>
        && (r.players[i].Some? <==> s.players[i].Some?)
        && (s.players[i].Some? ==>
              var was, now := s.players[i].value, r.players[i].value;
              now.limit <= was.limit && now.budget == was.budget && now.wallet <= was.wallet)
  }

  lemma {:induction false} IdleAnswer(c: Config, s: State, p: nat, order: seq<Handler>)
    ensures NoGain(s, RespondAll(c, s, p, false, order))
    decreases order
  {
    if order != [] { IdleAnswer(c, Respond(c, s, p, false, order[0]), p, order[1..]); }
  }

  lemma IdleStep(c: Config, s: State, e: Event)
    requires Idle(e)
    ensures NoGain(s, Step(c, s, e))
  {
    if e.Answer? { IdleAnswer(c, s, e.player, e.order); }
  }

  /** However long a stretch of play is, without a meaningful answer no clock gains a second from it. */
  lemma {:induction false} IdleRunEarnsNothing(c: Config, s: State, es: seq<Event>)
    requires forall i :: 0 <= i < |es| ==> Idle(es[i])
    ensures NoGain(s, Run(c, s, es))
    decreases es
  {
    if es != [] {
      IdleStep(c, s, es[0]);
      hide Step;
      IdleRunEarnsNothing(c, Step(c, s, es[0]), es[1..]);
    }
  }

  /**
  An answer whose handlers run with the charge first: the pending time leaves the limit as far as it goes, then a
  meaningful answer gives its step back, wherever the deposit falls.
  */
  lemma AnswerSettles(c: Config, s: State, p: nat, meaningful: bool, order: seq<Handler>)
    requires order == [Charge, GiveBack, Deposit] || order == [Charge, Deposit, GiveBack]
    requires c.hostLimit > 0 && p < |s.players| && s.players[p].Some?
    ensures var r := Step(c, s, Answer(p, meaningful, order));
      OnlyClock(s, r, p) && r.elapsed == 0 &&
      var time, was, now := s.elapsed % 0x1_0000, s.players[p].value, r.players[p].value;
      var left := if time < was.limit then was.limit - time else 0;
      && (meaningful && was.budget > 0 && left < c.hostLimit ==>
          && now.limit == left + (if c.addTime < 0xffff - left then c.addTime else 0xffff - left)
          && now.budget == was.budget - (if c.addTime < was.budget then c.addTime else was.budget))
      && (!meaningful || was.budget == 0 || c.hostLimit <= left ==> now.limit == left && now.budget == was.budget && now.wallet == was.wallet)
  {
    var s1 := Respond(c, s, p, meaningful, order[0]);
    var s2 := Respond(c, s1, p, meaningful, order[1]);
    assert order[1..][1..][1..] == [] && order[1..][0] == order[1] && order[1..][1..][0] == order[2];
    assert RespondAll(c, s1, p, meaningful, order[1..]) == RespondAll(c, s2, p, meaningful, order[1..][1..]);
    assert RespondAll(c, s2, p, meaningful, order[1..][1..]) == Respond(c, s2, p, meaningful, order[2]);
  }

  // ---------- the plugins as they run ----------

  class Plugins {
    const config: Config
    var players: seq<Option<PlayerClock>>
    var elapsed: U32
    var lastResponse: Option<nat>

    constructor (config: Config, seats: nat)
      ensures this.config == config && View() == State(seq(seats, _ => None), 0, None)
    {
      this.config, players, elapsed, lastResponse := config, seq(seats, _ => None), 0, None;
    }

    function View(): State
      reads this
    {
      State(players, elapsed, lastResponse)
    }

    method TimerTick() returns (timedOut: bool)
      modifies `elapsed
      ensures View() == Tick(config, old(View())) && timedOut == TimesOut(config, old(View()))
    {
      if lastResponse.None? || config.hostLimit == 0 { return false; }
      if elapsed < MAX32 {
        elapsed := elapsed + 1;
      }
      var awaited := Clocked(View(), lastResponse.value);
      timedOut := awaited.Some? && elapsed >= awaited.value.limit;
    }

    method ConfirmThroughWallet(p: nat)
      modifies this
      ensures View() == ConfirmWallet(config, old(View()), p)
    {
      if config.hostLimit == 0 || lastResponse != Some(p) { return; }
      var time := Cut(elapsed);
      var clock := Clocked(View(), p);
      if clock.None? { return; }
      if time < config.ignoreUnder && time <= clock.value.wallet {
        players := players[p := Some(clock.value.(wallet := clock.value.wallet - time))];
        elapsed := 0;
      }
    }

    method ConfirmThroughLimit(p: nat)
      modifies this
      ensures View() == ConfirmLimit(config, old(View()), p)
    {
      if config.hostLimit == 0 || lastResponse != Some(p) { return; }
      var clock := Clocked(View(), p);
      if clock.None? { return; }
      players := players[p := Some(clock.value.(limit := SatSub(clock.value.limit, Cut(elapsed))))];
      elapsed := 0;
    }

    method OnTimeConfirm(p: nat)
      modifies this
      ensures View() == Step(config, old(View()), Confirm(p))
    {
      ConfirmThroughWallet(p);
      ConfirmThroughLimit(p);
    }

    /** The pending time is taken from the clock of the player, if there is one, and starts anew in any case. */
    method ChargeResponse(p: nat)
      modifies this
      ensures View() == Respond(config, old(View()), p, true, Charge)
    {
      if config.hostLimit > 0 {
        var time := elapsed;
        elapsed := 0;
        var clock := Clocked(View(), p);
        if clock.Some? {
          players := players[p := Some(clock.value.(limit := SatSub(clock.value.limit, Cut(time))))];
        }
      }
    }

    method GiveBackTime(p: nat, meaningful: bool)
      modifies `players
      ensures View() == Respond(config, old(View()), p, meaningful, GiveBack)
    {
      if !meaningful { return; }
      var clock := Clocked(View(), p);
      if clock.None? { return; }
      if clock.value.budget > 0 && clock.value.limit < config.hostLimit {
        var back := clock.value.(limit := SatAdd(clock.value.limit, config.addTime), budget := SatSub(clock.value.budget, config.addTime));
        players := players[p := Some(back)];
      }
    }

    method DepositTime(p: nat, meaningful: bool)
      modifies `players
      ensures View() == Respond(config, old(View()), p, meaningful, Deposit)
    {
      if !meaningful { return; }
      var clock := Clocked(View(), p);
      if clock.None? { return; }
      if clock.value.budget > 0 && clock.value.limit < config.hostLimit {
        players := players[p := Some(clock.value.(wallet := SatAdd(clock.value.wallet, config.deposit)))];
      }
    }

    /** The handlers of a response, in the order the dispatcher happens to hold them. */
    method OnResponse(p: nat, meaningful: bool, order: seq<Handler>)
      modifies this
      ensures View() == Step(config, old(View()), Answer(p, meaningful, order))
    {
      hide Respond;
      assert order[0..] == order;
      for i := 0 to |order|
        invariant RespondAll(config, View(), p, meaningful, order[i..]) == RespondAll(config, old(View()), p, meaningful, order)
      {
        assert order[i..][1..] == order[i + 1..];
        ChargeIgnoresMeaning(View(), p, meaningful);
        if order[i].Charge? {
          ChargeResponse(p);
        } else if order[i].GiveBack? {
          GiveBackTime(p, meaningful);
        } else {
          DepositTime(p, meaningful);
        }
      }
    }

    lemma ChargeIgnoresMeaning(s: State, p: nat, meaningful: bool)
      ensures Respond(config, s, p, meaningful, Charge) == Respond(config, s, p, true, Charge)
    {
    }

    static function WithLimit(o: Option<PlayerClock>, limit: U16): Option<PlayerClock> {
      if o.Some? then Some(o.value.(limit := limit)) else None
    }

    static function WithBudget(o: Option<PlayerClock>, budget: U16): Option<PlayerClock> {
      if o.Some? then Some(o.value.(budget := budget)) else None
    }

    static function WithWallet(o: Option<PlayerClock>, wallet: U16): Option<PlayerClock> {
      if o.Some? then Some(o.value.(wallet := wallet)) else None
    }

    method ResetLimits()
      modifies this
      ensures elapsed == 0 && lastResponse == old(lastResponse) && |players| == |old(players)|
      ensures forall i :: 0 <= i < |players| ==> players[i] == WithLimit(old(players)[i], config.hostLimit)
    {
      for i := 0 to |players|
        invariant |players| == |old(players)| && lastResponse == old(lastResponse)
        invariant forall j :: i <= j < |players| ==> players[j] == old(players)[j]
        invariant forall j :: 0 <= j < i ==> players[j] == WithLimit(old(players)[j], config.hostLimit)
      {
        if players[i].Some? {
          players := players[i := WithLimit(players[i], config.hostLimit)];
        }
      }
      elapsed := 0;
    }

    method ResetBudgets()
      modifies `players
      ensures |players| == |old(players)|
      ensures config.hostLimit == 0 ==> players == old(players)
      ensures config.hostLimit > 0 ==> forall i :: 0 <= i < |players| ==> players[i] == WithBudget(old(players)[i], TurnBudget(config))
    {
      if config.hostLimit == 0 { return; }
      for i := 0 to |players|
        invariant |players| == |old(players)|
        invariant forall j :: i <= j < |players| ==> players[j] == old(players)[j]
        invariant forall j :: 0 <= j < i ==> players[j] == WithBudget(old(players)[j], TurnBudget(config))
      {
        if players[i].Some? {
          players := players[i := WithBudget(players[i], TurnBudget(config))];
        }
      }
    }

    method ResetWallets()
      requires config.initialBalance < 0x8000
      modifies `players
      ensures |players| == |old(players)|
      ensures forall i :: 0 <= i < |players| ==> players[i] == WithWallet(old(players)[i], TurnWallet(config))
    {
      for i := 0 to |players|
        invariant |players| == |old(players)|
        invariant forall j :: i <= j < |players| ==> players[j] == old(players)[j]
        invariant forall j :: 0 <= j < i ==> players[j] == WithWallet(old(players)[j], TurnWallet(config))
      {
        if players[i].Some? {
          players := players[i := WithWallet(players[i], TurnWallet(config))];
        }
      }
    }

    method OnNewTurn()
      requires config.initialBalance < 0x8000
      modifies this
      ensures View() == NewTurn(config, old(View()))
    {
      ResetLimits();
      ResetBudgets();
      ResetWallets();
      assert players == Refill(config, old(players));
    }
  }
}
