/**
 The write-ahead spending ledger of a provider trial: `reservation` and `TrialBudget`
 (backend/acceptance/trial_budget.py), and the reserve / call / settle / fail discipline of
 `GuardedMessages.create` (backend/acceptance/provider_trial.py) for any number of threads.
 Amounts are in millionths of a dollar.
 */
module TrialLedger {
  import opened Sums
  import opened Wrappers

  const MAX_CALLS := 16
  const MAX_TURNS := 4
  const MAX_MICRO_USD := 500_000
  const MAX_OUTPUT := 2048
  const MAX_INPUT_BYTES := 100_000
  const INPUT_MICRO_USD := 3
  const OUTPUT_MICRO_USD := 15
  const ENVELOPE_TOKENS := 16_384

  /** `allowed`: the model and the shape of the request are the permitted ones. */
  datatype Request = Request(allowed: bool, maxTokens: int, wireBytes: nat)

  /** What a reservation sets aside for one call. */
  datatype Reserve = Reserve(input: nat, output: nat)

  function Price(input: nat, output: nat): nat { input * INPUT_MICRO_USD + output * OUTPUT_MICRO_USD }

  function Reservation(r: Request): (amount: Option<Reserve>)
    ensures amount.Some? <==> r.allowed && 1 <= r.maxTokens <= MAX_OUTPUT && r.wireBytes <= MAX_INPUT_BYTES
    ensures amount.Some? ==>
      && amount.value.input - ENVELOPE_TOKENS == r.wireBytes && amount.value.output == r.maxTokens
      && 49_167 <= Price(amount.value.input, amount.value.output) <= 379_872 <= MAX_MICRO_USD
  {
    if !r.allowed || !(1 <= r.maxTokens <= MAX_OUTPUT) || r.wireBytes > MAX_INPUT_BYTES then None
    else Some(Reserve(r.wireBytes + ENVELOPE_TOKENS, r.maxTokens))
  }

  datatype Call = Call(reserve: Reserve, bound: nat, settled: bool)

  datatype Line =
    | Created
    | TurnStarted(identity: string)
    | Reserved(call: nat, bound: nat)
    | Usage(call: nat, bound: nat)
    | Stopped

  /** How one append ends: durable; failed with nothing written; or failed with the line written. */
  datatype Io = Durable | Lost | WrittenButRaised

  datatype Ledger = Ledger(
    calls: seq<Call>, turns: set<string>, stopped: bool, replaying: bool, journal: seq<Line>)

  /** The usage a response reports; None where it is malformed or names a forbidden feature. */
  type Report = Option<Reserve>

  // ----- totals -----

  function Amount(): nat -> int { (amount: nat) => amount }

  function Total(s: seq<nat>): nat {
    SumGrows(Amount(), s);
    Sum(Amount(), s)
  }

  function Bounds(calls: seq<Call>): (b: seq<nat>)
    ensures |b| == |calls| && forall i :: 0 <= i < |b| ==> b[i] == calls[i].bound
  {
    seq(|calls|, i requires 0 <= i < |calls| => calls[i].bound)
  }

  /** The property `charged_bound`. */
  function Charged(l: Ledger): nat { Total(Bounds(l.calls)) }

  /** The bound of each call as the journal alone tells it: the last line about a call counts. */
  function ReplayLine(before: seq<nat>, line: Line): seq<nat> {
    match line
    case Reserved(k, amount) => if k < |before| then before[k := amount] else before + [amount]
    case Usage(k, amount) => if k < |before| then before[k := amount] else before
    case _ => before
  }

  function Replayed(journal: seq<Line>): seq<nat> {
    if journal == [] then []
    else ReplayLine(Replayed(journal[..|journal| - 1]), journal[|journal| - 1])
  }

  // ----- the operations, each atomic under the lock -----

  function Append(l: Ledger, line: Line, io: Io): Ledger {
    var written := if io.Lost? then l else l.(journal := l.journal + [line]);
    if io.Durable? then written else written.(stopped := true)
  }

  function Turn(l: Ledger, identity: string, replay: bool, io: Io): Ledger {
    if replay then if identity in l.turns then l.(replaying := true) else l
    else if l.stopped || identity in l.turns || |l.turns| >= MAX_TURNS then l
    else
      var m := Append(l, TurnStarted(identity), io);
      if io.Durable? then m.(turns := l.turns + {identity}, replaying := false) else m
  }

  predicate MayReserve(l: Ledger, r: Request, expired: bool) {
    && !expired && !l.stopped && !l.replaying && l.turns != {} && |l.calls| < MAX_CALLS
    && Reservation(r).Some?
    && Charged(l) + Price(Reservation(r).value.input, Reservation(r).value.output) <= MAX_MICRO_USD
  }

  function ReserveCall(l: Ledger, r: Request, expired: bool, io: Io): Ledger {
    if expired then l.(stopped := true)
    else if l.stopped || l.replaying || l.turns == {} || |l.calls| >= MAX_CALLS then l
    else if Reservation(r).None? then l
    else
      var amount := Reservation(r).value;
      var price := Price(amount.input, amount.output);
      if Charged(l) + price > MAX_MICRO_USD then l.(stopped := true)
      else
        var m := Append(l, Reserved(|l.calls|, price), io);
        if io.Durable? then m.(calls := l.calls + [Call(amount, price, false)]) else m
  }

  predicate Settles(l: Ledger, ticket: nat, usage: Report)
    requires ticket < |l.calls|
  {
    && !l.calls[ticket].settled && usage.Some?
    && usage.value.input <= l.calls[ticket].reserve.input
    && usage.value.output <= l.calls[ticket].reserve.output
  }

  function Settle(l: Ledger, ticket: nat, usage: Report, io: Io): Ledger
    requires ticket < |l.calls|
  {
    if !Settles(l, ticket, usage) then l.(stopped := true)
    else
      var amount := Price(usage.value.input, usage.value.output);
      var m := Append(l, Usage(ticket, amount), io);
      if io.Durable? then
        m.(calls := l.calls[ticket := l.calls[ticket].(bound := amount, settled := true)])
      else m
  }

  function Fail(l: Ledger, io: Io): Ledger {
    Append(l.(stopped := true), Stopped, io)
  }

  // ----- the class -----

  /** The object the application holds; each method is one locked region. */
  class TrialBudget {
    var calls: seq<Call>
    var turns: set<string>
    var stopped: bool
    var replaying: bool
    var journal: seq<Line>

    function State(): Ledger reads this { Ledger(calls, turns, stopped, replaying, journal) }

    /** The limits hold, and the journal never promises more than the books. */
    ghost predicate Valid() reads this { LedgerInv(State()) }

    constructor ()
      ensures Valid() && State() == Ledger([], {}, false, false, [Created])
    {
      calls, turns, stopped, replaying, journal := [], {}, false, false, [Created];
      new;
      NewLedgerInv();
    }

    /** A part of the methods below, between which the invariant need not hold. */
    method AppendLine(line: Line, io: Io) returns (ok: bool)
      modifies this`journal, this`stopped
      ensures State() == Append(old(State()), line, io)
      ensures ok <==> io.Durable?
    {
      if !io.Lost? { journal := journal + [line]; }
      if !io.Durable? { stopped := true; }
      return io.Durable?;
    }

    method StartTurn(identity: string, replay: bool, io: Io) returns (ok: bool)
      requires Valid()
      modifies this
      ensures Valid() && State() == Turn(old(State()), identity, replay, io)
      ensures ok && !replay ==> turns == old(turns) + {identity} && identity !in old(turns)
      ensures !replay ==>
                (ok <==> !old(stopped) && identity !in old(turns) && |old(turns)| < MAX_TURNS && io.Durable?)
      ensures replay ==> (ok <==> identity in old(turns)) && turns == old(turns) && stopped == old(stopped)
    {
      TurnKeepsInv(State(), identity, replay, io);
      if replay {
        if identity !in turns { return false; }
        replaying := true;
        return true;
      }
      if stopped || identity in turns || |turns| >= MAX_TURNS { return false; }
      ok := AppendLine(TurnStarted(identity), io);
      if ok { turns, replaying := turns + {identity}, false; }
    }

    method ChargedBound() returns (total: nat)
      ensures total == Charged(State())
    {
      total := 0;
      var k := 0;
      assert Bounds(calls)[..0] == [];
      while k < |calls|
        invariant 0 <= k <= |calls| && total == Total(Bounds(calls)[..k])
      {
        total := total + calls[k].bound;
        assert Bounds(calls)[..k + 1][..k] == Bounds(calls)[..k];
        k := k + 1;
      }
      assert Bounds(calls)[..k] == Bounds(calls);
    }

    /** Grants a ticket exactly when every limit allows it and the line is durable. */
    method ReserveTicket(r: Request, expired: bool, io: Io) returns (ticket: Option<nat>)
      requires Valid()
      modifies this
      ensures Valid() && State() == ReserveCall(old(State()), r, expired, io)
      ensures ticket.Some? <==> MayReserve(old(State()), r, expired) && io.Durable?
      ensures ticket.Some? ==> ticket.value == |old(calls)| && |calls| == |old(calls)| + 1
      ensures ticket.Some? ==>
                && !expired && !old(stopped) && !old(replaying) && old(turns) != {} && |old(calls)| < MAX_CALLS
                && Reservation(r).Some?
                && old(Charged(State())) + Price(Reservation(r).value.input, Reservation(r).value.output)
                   <= MAX_MICRO_USD
      ensures expired ==> stopped
    {
      ReserveKeepsInv(State(), r, expired, io);
      if expired {
        stopped := true;
        return None;
      }
      if stopped || replaying || turns == {} || |calls| >= MAX_CALLS { return None; }
      var amount := Reservation(r);
      if amount.None? { return None; }
      var price := Price(amount.value.input, amount.value.output);
      var charged := ChargedBound();
      if charged + price > MAX_MICRO_USD {
        stopped := true;
        return None;
      }
      var ok := AppendLine(Reserved(|calls|, price), io);
      if !ok { return None; }
      calls := calls + [Call(amount.value, price, false)];
      return Some(|calls| - 1);
    }

    method SettleTicket(ticket: nat, usage: Report, io: Io) returns (ok: bool)
      requires Valid() && ticket < |calls|
      modifies this
      ensures Valid() && State() == Settle(old(State()), ticket, usage, io)
      ensures ok <==> old(Settles(State(), ticket, usage)) && io.Durable?
      ensures Charged(State()) <= old(Charged(State()))
      ensures stopped <==> old(stopped) || !ok
    {
      SettleKeepsInv(State(), ticket, usage, io);
      if !Settles(State(), ticket, usage) {
        stopped := true;
        return false;
      }
      var amount := Price(usage.value.input, usage.value.output);
      ok := AppendLine(Usage(ticket, amount), io);
      if ok { calls := calls[ticket := calls[ticket].(bound := amount, settled := true)]; }
    }

    method StopTrial(io: Io)
      requires Valid()
      modifies this
      ensures Valid() && State() == Fail(old(State()), io)
      ensures stopped && calls == old(calls) && turns == old(turns)
    {
      NeutralAppendKeepsInv(State().(stopped := true), Stopped, io);
      stopped := true;
      var ok := AppendLine(Stopped, io);
    }
  }

  // ----- threads -----

  /** Where a thread stands in `GuardedMessages.create`. */
  datatype Thread = Idle | Calling(ticket: nat) | Failing

  /**
   `spent[t]` is what the provider really charges for ticket t: at most its reservation, and at most
   the ledger's price of any usage it is settled with. It need not be the ledger's price, which is
   deliberately above the provider's.
   */
  datatype World = World(ledger: Ledger, threads: seq<Thread>, spent: seq<nat>)

  datatype Event =
    | StartsTurn(identity: string, replay: bool, io: Io)
    | Reserves(thread: nat, r: Request, expired: bool, io: Io, spent: nat)
    | Returns(thread: nat, usage: Report, io: Io)
    | Raises(thread: nat)
    | Fails(thread: nat, io: Io)

  predicate Enabled(w: World, e: Event) {
    match e
    case StartsTurn(_, _, _) => true
    case Reserves(t, r, _, _, spent) =>
      && t < |w.threads| && w.threads[t].Idle?
      && (Reservation(r).Some? ==> spent <= Price(Reservation(r).value.input, Reservation(r).value.output))
    case Returns(t, usage, _) =>
      && t < |w.threads| && w.threads[t].Calling?
      && w.threads[t].ticket < |w.ledger.calls| && w.threads[t].ticket < |w.spent|
      && (Settles(w.ledger, w.threads[t].ticket, usage) ==>
            w.spent[w.threads[t].ticket] <= Price(usage.value.input, usage.value.output))
    case Raises(t) => t < |w.threads| && w.threads[t].Calling?
    case Fails(t, _) => t < |w.threads| && w.threads[t].Failing?
  }

  function Step(w: World, e: Event): World
    requires Enabled(w, e)
  {
    match e
    case StartsTurn(identity, replay, io) => w.(ledger := Turn(w.ledger, identity, replay, io))
    case Reserves(t, r, expired, io, spent) =>
      var l := ReserveCall(w.ledger, r, expired, io);
      if MayReserve(w.ledger, r, expired) && io.Durable?
      then World(l, w.threads[t := Calling(|w.ledger.calls|)], w.spent + [spent])
      else w.(ledger := l)
    case Returns(t, usage, io) =>
      var ticket := w.threads[t].ticket;
      var done := Settles(w.ledger, ticket, usage) && io.Durable?;
      w.(ledger := Settle(w.ledger, ticket, usage, io), threads := w.threads[t := if done then Idle else Failing])
    case Raises(t) => w.(threads := w.threads[t := Failing])
    case Fails(t, io) => w.(ledger := Fail(w.ledger, io), threads := w.threads[t := Idle])
  }

  predicate IsRun(w: World, events: seq<Event>)
    decreases |events|
  {
    events == [] || (Enabled(w, events[0]) && IsRun(Step(w, events[0]), events[1..]))
  }

  function Run(w: World, events: seq<Event>): World
    requires IsRun(w, events)
    decreases |events|
  {
    if events == [] then w else Run(Step(w, events[0]), events[1..])
  }

  // the provider's published prices, which the ledger's are to exceed
  const PROVIDER_INPUT_MICRO_USD := 2
  const PROVIDER_OUTPUT_MICRO_USD := 10

  /** A call charged at the provider's own prices may return with its usage, whatever that is. */
  lemma ProviderPriceIsCovered(w: World, t: nat, usage: Reserve, io: Io)
    requires t < |w.threads| && w.threads[t].Calling?
    requires w.threads[t].ticket < |w.ledger.calls| && w.threads[t].ticket < |w.spent|
    requires w.spent[w.threads[t].ticket] ==
             usage.input * PROVIDER_INPUT_MICRO_USD + usage.output * PROVIDER_OUTPUT_MICRO_USD
    ensures Enabled(w, Returns(t, Some(usage), io))
  {
  }

  predicate Initial(w: World) {
    && w.ledger == Ledger([], {}, false, false, [Created])
    && w.spent == []
    && forall t :: 0 <= t < |w.threads| ==> w.threads[t].Idle?
  }

  // ----- the invariant -----

  /** An unsettled call keeps its whole reservation; a settled one what was used, within it. */
  predicate CallInv(c: Call) {
    var whole := Price(c.reserve.input, c.reserve.output);
    && (if c.settled then c.bound <= whole else c.bound == whole)
    && whole >= 49_167
  }

  /** A reservation that may have reached the journal although it was never granted. */
  function Phantom(l: Ledger): nat {
    var r := Replayed(l.journal);
    if |r| > |l.calls| then r[|l.calls|] else 0
  }

  ghost predicate LedgerInv(l: Ledger) {
    && |l.calls| <= MAX_CALLS && |l.turns| <= MAX_TURNS
    && (forall i :: 0 <= i < |l.calls| ==> CallInv(l.calls[i]))
    && Charged(l) + Phantom(l) <= MAX_MICRO_USD
    && var r := Replayed(l.journal);
       && (|r| == |l.calls| || (|r| == |l.calls| + 1 && l.stopped))
       && (forall i :: 0 <= i < |l.calls| ==> r[i] <= l.calls[i].bound)
  }

  ghost predicate SpentInv(w: World) {
    && |w.spent| == |w.ledger.calls|
    && |Replayed(w.ledger.journal)| >= |w.spent|
    && (forall i :: 0 <= i < |w.spent| ==> w.spent[i] <= Replayed(w.ledger.journal)[i])
  }

  ghost predicate ThreadsInv(w: World) {
    && (forall t :: 0 <= t < |w.threads| && w.threads[t].Calling? ==>
          w.threads[t].ticket < |w.ledger.calls| && !w.ledger.calls[w.threads[t].ticket].settled)
    && (forall t, u :: 0 <= t < u < |w.threads| && w.threads[t].Calling? && w.threads[u].Calling? ==>
          w.threads[t].ticket != w.threads[u].ticket)
  }

  ghost predicate Inv(w: World) { LedgerInv(w.ledger) && SpentInv(w) && ThreadsInv(w) }

  /** The effect of one more journal line on what a replay of the journal finds. */
  lemma ReplayedAppend(journal: seq<Line>, line: Line)
    ensures Replayed(journal + [line]) == ReplayLine(Replayed(journal), line)
  {
    assert (journal + [line])[..|journal|] == journal;
  }

  lemma NeutralAppendKeepsInv(l: Ledger, line: Line, io: Io)
    requires LedgerInv(l) && !line.Reserved? && !line.Usage?
    ensures LedgerInv(Append(l, line, io))
    ensures Replayed(Append(l, line, io).journal) == Replayed(l.journal)
  {
    ReplayedAppend(l.journal, line);
  }

  lemma TurnKeepsInv(l: Ledger, identity: string, replay: bool, io: Io)
    requires LedgerInv(l)
    ensures LedgerInv(Turn(l, identity, replay, io))
    ensures Turn(l, identity, replay, io).calls == l.calls
    ensures Replayed(Turn(l, identity, replay, io).journal) == Replayed(l.journal)
  {
    NeutralAppendKeepsInv(l, TurnStarted(identity), io);
  }

  lemma ReservedBooks(l: Ledger, r: Request, expired: bool, io: Io)
    requires LedgerInv(l)
    ensures
      var m := ReserveCall(l, r, expired, io);
      if MayReserve(l, r, expired) && io.Durable? then
        var price := Price(Reservation(r).value.input, Reservation(r).value.output);
        m.calls == l.calls + [Call(Reservation(r).value, price, false)]
        && Replayed(m.journal) == Replayed(l.journal) + [price]
      else m.calls == l.calls && Replayed(l.journal) <= Replayed(m.journal)
  {
    if MayReserve(l, r, expired) {
      var amount := Reservation(r).value;
      var price := Price(amount.input, amount.output);
      ReplayedAppend(l.journal, Reserved(|l.calls|, price));
    }
  }

  lemma ReserveKeepsInv(l: Ledger, r: Request, expired: bool, io: Io)
    requires LedgerInv(l)
    ensures LedgerInv(ReserveCall(l, r, expired, io))
  {
    if MayReserve(l, r, expired) {
      var amount := Reservation(r).value;
      var price := Price(amount.input, amount.output);
      if io.Durable? {
        GrantKeepsInv(l, amount, price);
      } else {
        ReplayedAppend(l.journal, Reserved(|l.calls|, price));
      }
    }
  }

  /** A granted reservation whose line is durable; there is no phantom while the trial goes on. */
  lemma GrantKeepsInv(l: Ledger, amount: Reserve, price: nat)
    requires LedgerInv(l) && !l.stopped && |l.calls| < MAX_CALLS && Charged(l) + price <= MAX_MICRO_USD
    requires price == Price(amount.input, amount.output) >= 49_167
    ensures
      var journal := l.journal + [Reserved(|l.calls|, price)];
      LedgerInv(l.(journal := journal, calls := l.calls + [Call(amount, price, false)]))
  {
    var calls := l.calls + [Call(amount, price, false)];
    ReplayedAppend(l.journal, Reserved(|l.calls|, price));
    assert Bounds(calls) == Bounds(l.calls) + [price];
    Snoc(Amount(), Bounds(l.calls), price);
  }

  lemma PriceMonotone(used: Reserve, whole: Reserve)
    requires used.input <= whole.input && used.output <= whole.output
    ensures Price(used.input, used.output) <= Price(whole.input, whole.output)
  {
  }

  /** The books after one call is settled, whether or not the ledger learned of its line. */
  lemma SettledBooks(l: Ledger, ticket: nat, usage: Reserve, io: Io)
    requires LedgerInv(l) && ticket < |l.calls| && Settles(l, ticket, Some(usage))
    ensures
      var m := Settle(l, ticket, Some(usage), io);
      var amount := Price(usage.input, usage.output);
      && amount <= l.calls[ticket].bound
      && Charged(m) <= Charged(l)
      && Replayed(m.journal) == (if io.Lost? then Replayed(l.journal) else Replayed(l.journal)[ticket := amount])
  {
    assert CallInv(l.calls[ticket]);
    PriceMonotone(usage, l.calls[ticket].reserve);
    var amount := Price(usage.input, usage.output);
    ReplayedAppend(l.journal, Usage(ticket, amount));
    var m := Settle(l, ticket, Some(usage), io);
    if io.Durable? {
      assert Bounds(m.calls) == Bounds(l.calls)[ticket := amount];
      UpdateAdds(Amount(), Bounds(l.calls), ticket, amount);
    }
  }

  lemma SettleKeepsInv(l: Ledger, ticket: nat, usage: Report, io: Io)
    requires LedgerInv(l) && ticket < |l.calls|
    ensures LedgerInv(Settle(l, ticket, usage, io))
    ensures Charged(Settle(l, ticket, usage, io)) <= Charged(l)
  {
    if Settles(l, ticket, usage) {
      SettledBooks(l, ticket, usage.value, io);
      var m := Settle(l, ticket, usage, io);
      assert Phantom(m) == Phantom(l);
      forall i | 0 <= i < |m.calls| ensures CallInv(m.calls[i]) {
        assert CallInv(l.calls[i]);
      }
    }
  }

  lemma SettleKeepsSpent(w: World, t: nat, usage: Report, io: Io)
    requires Inv(w) && Enabled(w, Returns(t, usage, io))
    ensures SpentInv(Step(w, Returns(t, usage, io))) && ThreadsInv(Step(w, Returns(t, usage, io)))
  {
    var ticket := w.threads[t].ticket;
    if Settles(w.ledger, ticket, usage) {
      SettledBooks(w.ledger, ticket, usage.value, io);
    }
  }

  lemma ReserveKeepsSpent(w: World, t: nat, r: Request, expired: bool, io: Io, spent: nat)
    requires Inv(w) && Enabled(w, Reserves(t, r, expired, io, spent))
    ensures SpentInv(Step(w, Reserves(t, r, expired, io, spent)))
    ensures ThreadsInv(Step(w, Reserves(t, r, expired, io, spent)))
  {
    ReservedBooks(w.ledger, r, expired, io);
  }

  lemma ReserveStepKeepsInv(w: World, t: nat, r: Request, expired: bool, io: Io, spent: nat)
    requires Inv(w) && Enabled(w, Reserves(t, r, expired, io, spent))
    ensures Inv(Step(w, Reserves(t, r, expired, io, spent)))
  {
    ReserveKeepsInv(w.ledger, r, expired, io);
    ReserveKeepsSpent(w, t, r, expired, io, spent);
  }

  lemma ReturnStepKeepsInv(w: World, t: nat, usage: Report, io: Io)
    requires Inv(w) && Enabled(w, Returns(t, usage, io))
    ensures Inv(Step(w, Returns(t, usage, io)))
  {
    SettleKeepsInv(w.ledger, w.threads[t].ticket, usage, io);
    SettleKeepsSpent(w, t, usage, io);
  }

  lemma StepKeepsInv(w: World, e: Event)
    requires Inv(w) && Enabled(w, e)
    ensures Inv(Step(w, e))
  {
    match e
    case StartsTurn(identity, replay, io) =>
      TurnKeepsInv(w.ledger, identity, replay, io);
      SameBooksKeepInv(w, Turn(w.ledger, identity, replay, io), w.threads);
    case Reserves(t, r, expired, io, spent) => ReserveStepKeepsInv(w, t, r, expired, io, spent);
    case Returns(t, usage, io) => ReturnStepKeepsInv(w, t, usage, io);
    case Raises(t) => SameBooksKeepInv(w, w.ledger, w.threads[t := Failing]);
    case Fails(t, io) =>
      NeutralAppendKeepsInv(w.ledger.(stopped := true), Stopped, io);
      SameBooksKeepInv(w, Fail(w.ledger, io), w.threads[t := Idle]);
  }

  /** A step that touches no call and lets no thread call keeps all that is said of threads. */
  lemma SameBooksKeepInv(w: World, l: Ledger, threads: seq<Thread>)
    requires Inv(w) && LedgerInv(l)
    requires l.calls == w.ledger.calls && Replayed(l.journal) == Replayed(w.ledger.journal)
    requires |threads| == |w.threads|
    requires forall t :: 0 <= t < |threads| ==> threads[t] == w.threads[t] || !threads[t].Calling?
    ensures Inv(World(l, threads, w.spent))
  {
  }

  lemma {:induction false} RunKeepsInv(w: World, events: seq<Event>)
    requires Inv(w) && IsRun(w, events)
    ensures Inv(Run(w, events))
    decreases |events|
  {
    if events != [] {
      StepKeepsInv(w, events[0]);
      RunKeepsInv(Step(w, events[0]), events[1..]);
    }
  }

  lemma NewLedgerInv()
    ensures LedgerInv(Ledger([], {}, false, false, [Created])) && Replayed([Created]) == []
  {
    assert [Created][..0] == [];
  }

  lemma InitialInv(w: World)
    requires Initial(w)
    ensures Inv(w)
  {
    NewLedgerInv();
  }

  // ----- what holds of every run -----

  lemma BooksBalance(spent: seq<nat>, replayed: seq<nat>, bounds: seq<nat>)
    requires |spent| == |bounds| && (|replayed| == |bounds| || |replayed| == |bounds| + 1)
    requires forall i :: 0 <= i < |bounds| ==> spent[i] <= replayed[i] <= bounds[i]
    ensures Total(spent) <= Total(replayed)
    ensures Total(replayed) <= Total(bounds) + (if |replayed| > |bounds| then replayed[|bounds|] else 0)
  {
    SumMonotone(Amount(), spent, replayed);
    var n := |bounds|;
    SumMonotone(Amount(), replayed[..n], bounds);
    if |replayed| > n {
      assert replayed == replayed[..n] + [replayed[n]];
      Snoc(Amount(), replayed[..n], replayed[n]);
    } else {
      assert replayed == replayed[..n];
    }
  }

  /**
   Journal soundness: whatever appends failed, and whether or not they had written their line, what
   was really spent is at most what a replay of the journal adds up to, and that is within budget.
   */
  lemma JournalIsSound(w: World, events: seq<Event>)
    requires Initial(w) && IsRun(w, events)
    ensures Total(Run(w, events).spent) <= Total(Replayed(Run(w, events).ledger.journal)) <= MAX_MICRO_USD
  {
    InitialInv(w);
    RunKeepsInv(w, events);
    var x := Run(w, events);
    BooksBalance(x.spent, Replayed(x.ledger.journal), Bounds(x.ledger.calls));
  }

  /** Every reachable ledger keeps its limits, and an unsettled call keeps its whole reservation. */
  lemma LimitsHold(w: World, events: seq<Event>)
    requires Initial(w) && IsRun(w, events)
    ensures
      var l := Run(w, events).ledger;
      && Charged(l) <= MAX_MICRO_USD && |l.calls| <= MAX_CALLS && |l.turns| <= MAX_TURNS
      && (forall i :: 0 <= i < |l.calls| && !l.calls[i].settled ==>
            l.calls[i].bound == 3 * l.calls[i].reserve.input + 15 * l.calls[i].reserve.output)
      && CountUnsettled(l.calls) <= 10
  {
    InitialInv(w);
    RunKeepsInv(w, events);
    var l := Run(w, events).ledger;
    UnsettledCost(l.calls);
    assert forall i :: 0 <= i < |l.calls| ==> CallInv(l.calls[i]);
  }

  function CountUnsettled(calls: seq<Call>): nat {
    if calls == [] then 0
    else CountUnsettled(calls[..|calls| - 1]) + (if calls[|calls| - 1].settled then 0 else 1)
  }

  /** The envelope allowance alone costs so much that ten unsettled calls fill the budget. */
  lemma {:induction false} UnsettledCost(calls: seq<Call>)
    requires forall i :: 0 <= i < |calls| ==> CallInv(calls[i])
    ensures CountUnsettled(calls) * 49_167 <= Total(Bounds(calls))
  {
    if calls != [] {
      var n := |calls| - 1;
      UnsettledCost(calls[..n]);
      assert Bounds(calls)[..n] == Bounds(calls[..n]);
      assert CallInv(calls[n]);
    }
  }

  /** A request the trial would grant if only the budget allowed it. */
  predicate OnlyBudgetIsMissing(l: Ledger, r: Request) {
    && !l.stopped && !l.replaying && l.turns != {} && |l.calls| < MAX_CALLS && Reservation(r).Some?
    && Charged(l) + Price(Reservation(r).value.input, Reservation(r).value.output) > MAX_MICRO_USD
  }

  /** A reservation is granted and durable, or it stops the trial, or it changes nothing at all. */
  lemma ReserveEndsOneWay(l: Ledger, r: Request, expired: bool, io: Io)
    ensures
      var m := ReserveCall(l, r, expired, io);
      && (m.stopped <==>
            || l.stopped || expired || OnlyBudgetIsMissing(l, r)
            || (MayReserve(l, r, expired) && !io.Durable?))
      && (|m.calls| == |l.calls| + 1 <==> MayReserve(l, r, expired) && io.Durable?)
      && (m.journal != l.journal ==> MayReserve(l, r, expired) && !io.Lost?)
      && m.turns == l.turns && m.replaying == l.replaying
  {
  }

  /** What lets a call be reserved, each condition on its own. */
  lemma ReservedOnlyWhen(l: Ledger, r: Request, expired: bool)
    ensures
      MayReserve(l, r, expired) <==>
      && !expired && !l.stopped && !l.replaying && l.turns != {} && |l.calls| < 16
      && r.allowed && 1 <= r.maxTokens <= 2048 && r.wireBytes <= 100_000
      && Charged(l) + 3 * (r.wireBytes + 16_384) + 15 * r.maxTokens <= 500_000
  {
  }

  /** A settlement that is refused, or whose line is not durable, stops the trial, and only that. */
  lemma RefusedSettlementStops(l: Ledger, ticket: nat, usage: Report, io: Io)
    requires ticket < |l.calls|
    ensures
      var m := Settle(l, ticket, usage, io);
      && (m.stopped <==> l.stopped || !Settles(l, ticket, usage) || !io.Durable?)
      && (m.calls != l.calls ==> Settles(l, ticket, usage) && io.Durable?)
      && (Settles(l, ticket, usage) && io.Durable? ==> m.calls[ticket].settled)
      && (Settles(l, ticket, usage) <==>
            && !l.calls[ticket].settled && usage.Some?
            && usage.value.input <= l.calls[ticket].reserve.input
            && usage.value.output <= l.calls[ticket].reserve.output)
  {
  }

  /** A failed call stops the trial, whatever becomes of the line that says so. */
  lemma FailureStops(l: Ledger, io: Io)
    ensures Fail(l, io).stopped && Fail(l, io).calls == l.calls && Fail(l, io).turns == l.turns
  {
  }

  /** A new turn is granted exactly while the trial goes on, once per identity, four times. */
  lemma TurnEndsOneWay(l: Ledger, identity: string, io: Io)
    ensures
      var m := Turn(l, identity, false, io);
      && (m.turns != l.turns <==> !l.stopped && identity !in l.turns && |l.turns| < 4 && io.Durable?)
      && (m.turns != l.turns ==> m.turns == l.turns + {identity} && !m.replaying)
      && (m.turns == l.turns ==> m.replaying == l.replaying)
      && (m.stopped <==> l.stopped || (identity !in l.turns && |l.turns| < 4 && !io.Durable?))
  {
  }

  /** A replay is for a turn that was started, and does nothing but end reserving. */
  lemma ReplayOnlySetsItsFlag(l: Ledger, identity: string, io: Io)
    ensures Turn(l, identity, true, io) == if identity in l.turns then l.(replaying := true) else l
  {
  }

  /** The events that end the trial. */
  predicate Stops(w: World, e: Event)
    requires Enabled(w, e)
  {
    match e
    case Fails(_, _) => true
    case Reserves(_, r, expired, io, _) =>
      expired || OnlyBudgetIsMissing(w.ledger, r) || (MayReserve(w.ledger, r, expired) && !io.Durable?)
    case Returns(t, usage, io) => !Settles(w.ledger, w.threads[t].ticket, usage) || !io.Durable?
    case _ => false
  }

  /**
   After a failed call, a refused settlement, a lost line, the end of the trial's time or its cost limit,
   no thread ever reserves a call again.
   */
  lemma NothingIsReservedAfter(w: World, e: Event, events: seq<Event>)
    requires Enabled(w, e) && Stops(w, e) && IsRun(Step(w, e), events)
    ensures Step(w, e).ledger.stopped && Run(Step(w, e), events).ledger.stopped
    ensures |Run(Step(w, e), events).ledger.calls| == |w.ledger.calls|
  {
    StopsAtOnce(w, e);
    StoppedIsForEver(Step(w, e), events);
  }

  lemma StopsAtOnce(w: World, e: Event)
    requires Enabled(w, e) && Stops(w, e)
    ensures Step(w, e).ledger.stopped && |Step(w, e).ledger.calls| == |w.ledger.calls|
  {
    match e
    case Fails(_, io) => FailureStops(w.ledger, io);
    case Reserves(_, r, expired, io, _) => ReserveEndsOneWay(w.ledger, r, expired, io);
    case Returns(t, usage, io) => RefusedSettlementStops(w.ledger, w.threads[t].ticket, usage, io);
    case _ =>
  }

  /** A call that raises, or is not settled durably, leads its thread to `Fails` before anything else. */
  lemma FailureIsFollowed(w: World, e: Event, t: nat)
    requires Enabled(w, e) && t < |w.threads| && w.threads[t].Calling?
    requires e == Raises(t) || (e.Returns? && e.thread == t)
    ensures Step(w, e).threads[t] ==
            if e.Returns? && Settles(w.ledger, w.threads[t].ticket, e.usage) && e.io.Durable? then Idle else Failing
  {
  }

  /** `stopped` is absorbing, and nothing is reserved once it is set. */
  lemma {:induction false} StoppedIsForEver(w: World, events: seq<Event>)
    requires IsRun(w, events) && w.ledger.stopped
    ensures Run(w, events).ledger.stopped
    ensures |Run(w, events).ledger.calls| == |w.ledger.calls|
    decreases |events|
  {
    if events != [] {
      StoppedIsForEver(Step(w, events[0]), events[1..]);
    }
  }

  predicate IsNewTurn(e: Event) { e.StartsTurn? && !e.replay }

  /** Between a replay and the next new turn no reservation succeeds, in any thread. */
  lemma {:induction false} ReplayReservesNothing(w: World, events: seq<Event>)
    requires IsRun(w, events) && w.ledger.replaying
    requires forall i :: 0 <= i < |events| ==> !IsNewTurn(events[i])
    ensures Run(w, events).ledger.replaying
    ensures |Run(w, events).ledger.calls| == |w.ledger.calls|
    decreases |events|
  {
    if events != [] {
      assert !IsNewTurn(events[0]);
      ReplayReservesNothing(Step(w, events[0]), events[1..]);
    }
  }

  // ----- the bound of ten is reached -----

  lemma {:induction false} RunSnoc(w: World, events: seq<Event>, e: Event)
    requires IsRun(w, events) && Enabled(Run(w, events), e)
    ensures IsRun(w, events + [e]) && Run(w, events + [e]) == Step(Run(w, events), e)
    decreases |events|
  {
    if events == [] {
      assert ([] + [e])[1..] == [];
    } else {
      RunSnoc(Step(w, events[0]), events[1..], e);
      assert (events + [e])[1..] == events[1..] + [e];
    }
  }

  const TEN_THREADS := World(Ledger([], {}, false, false, [Created]), seq(10, i => Idle), [])

  /** n calls are open, each of at most a tenth of the budget, and the other threads are idle. */
  ghost predicate OpenCalls(x: World, n: nat) {
    && AllOpen(x.ledger.calls, n)
    && !x.ledger.stopped && !x.ledger.replaying && x.ledger.turns != {}
    && |x.threads| == 10 && forall t :: n <= t < 10 ==> x.threads[t].Idle?
  }

  ghost predicate AllOpen(calls: seq<Call>, n: nat) {
    |calls| == n && CountUnsettled(calls) == n && Total(Bounds(calls)) <= n * 50_000
  }

  lemma AllOpenSnoc(calls: seq<Call>, n: nat, amount: Reserve, price: nat)
    requires AllOpen(calls, n) && price <= 50_000
    ensures AllOpen(calls + [Call(amount, price, false)], n + 1)
  {
    var more := calls + [Call(amount, price, false)];
    assert more[..n] == calls;
    assert Bounds(more) == Bounds(calls) + [price];
    Snoc(Amount(), Bounds(calls), price);
  }

  predicate IsSmall(r: Request) {
    && Reservation(r).Some?
    && Price(Reservation(r).value.input, Reservation(r).value.output) <= 50_000
  }

  lemma SmallFits(l: Ledger, n: nat, r: Request)
    requires n < 10 && IsSmall(r) && AllOpen(l.calls, n)
    requires !l.stopped && !l.replaying && l.turns != {}
    ensures MayReserve(l, r, false)
    ensures
      var m := ReserveCall(l, r, false, Durable);
      AllOpen(m.calls, n + 1) && !m.stopped && !m.replaying && m.turns != {}
  {
    var amount := Reservation(r).value;
    AllOpenSnoc(l.calls, n, amount, Price(amount.input, amount.output));
    assert Charged(l) <= 450_000;
  }

  lemma OpenOneMore(x: World, n: nat, r: Request)
    requires n < 10 && IsSmall(r) && OpenCalls(x, n)
    ensures Enabled(x, Reserves(n, r, false, Durable, 0))
    ensures OpenCalls(Step(x, Reserves(n, r, false, Durable, 0)), n + 1)
  {
    SmallFits(x.ledger, n, r);
    var y := Step(x, Reserves(n, r, false, Durable, 0));
    assert y.ledger == ReserveCall(x.ledger, r, false, Durable);
    assert y.threads == x.threads[n := Calling(|x.ledger.calls|)];
  }

  lemma {:induction false} OpenMany(r: Request, n: nat) returns (events: seq<Event>)
    requires n <= 10 && IsSmall(r)
    ensures IsRun(TEN_THREADS, events) && OpenCalls(Run(TEN_THREADS, events), n)
  {
    if n == 0 {
      events := [] + [StartsTurn("turn", false, Durable)];
      RunSnoc(TEN_THREADS, [], StartsTurn("turn", false, Durable));
      assert Bounds([]) == [];
    } else {
      events := OpenMany(r, n - 1);
      OpenOneMore(Run(TEN_THREADS, events), n - 1, r);
      RunSnoc(TEN_THREADS, events, Reserves(n - 1, r, false, Durable, 0));
      events := events + [Reserves(n - 1, r, false, Durable, 0)];
    }
  }

  /** Ten threads can have a call each open at once, with any request of at most 277 bytes for one token. */
  lemma TenCallsCanBeOpen(wireBytes: nat) returns (events: seq<Event>)
    requires wireBytes <= 277
    ensures Initial(TEN_THREADS) && IsRun(TEN_THREADS, events)
    ensures CountUnsettled(Run(TEN_THREADS, events).ledger.calls) == 10
  {
    events := OpenMany(Request(true, 1, wireBytes), 10);
  }
}
