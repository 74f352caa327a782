/**
 The daily usage ledger of dynamic policies: one event per signal, one total per policy,
 day and chain. Native amounts are whole hundred-millionths, the scale of the columns.
*/
module UsageModel {
  import opened Wrappers

  type Chain = string
  type Contract = string

  datatype Budget = Budget(perTrade: nat, daily: int)

  datatype TargetRow = TargetRow(active: bool, chain: Chain, contract: Contract, hash: string)

  datatype PolicyRow = PolicyRow(
    enabled: bool, live: bool, kolEnabled: bool, revision: nat, hash: string, target: Option<TargetRow>,
    budgets: map<Chain, Budget>, events: set<string>, perTokenBuys: int, newTokens: int)

  datatype Signal = Signal(
    id: nat, policy: nat, revision: nat, hash: string, chain: Chain, contract: Contract, activity: string,
    sourceAt: Option<int>, signalAt: Option<int>)

  /** What the evaluation reads besides the ledger; the policy row is locked until the commit. */
  datatype World = World(
    liveEnabled: bool, now: int, today: int, maxAge: nat, row: Option<PolicyRow>, openPositions: nat, tokenBuys: nat)

  datatype EventStatus = Reserved | Committed | Released

  /** `charged` records what a commit added to the day's spending. */
  datatype Event = Event(
    signal: nat, policy: nat, date: int, chain: Chain, contract: Contract, amount: nat, counts: bool,
    status: EventStatus, charged: int)

  datatype DayKey = DayKey(policy: nat, date: int, chain: Chain)

  datatype Day = Day(spent: int, reserved: int, newTokens: int, signals: int)

  datatype Usage = Usage(events: seq<Event>, days: map<DayKey, Day>)

  const Unused := Day(0, 0, 0, 0)

  datatype Blocker =
    | LiveDisabled | PolicyNotFound | PolicyNotLive | RevisionChanged | ContextChanged | TargetChanged
    | BudgetNotConfigured | EventNotAllowed | SourceTimeMissing | SignalExpired | PositionExists | TokenBuyLimit
    | DailyTokenLimit | DailyBudgetExceeded

  function KeyOf(e: Event): DayKey {
    DayKey(e.policy, e.date, e.chain)
  }

  function DayOf(u: Usage, key: DayKey): Day {
    if key in u.days then u.days[key] else Unused
  }

  function KeyFor(signal: Signal, today: int): DayKey {
    DayKey(signal.policy, today, signal.chain)
  }

  /** An event that still stands for its token on its day. */
  predicate Stands(e: Event, key: DayKey, contract: Contract) {
    KeyOf(e) == key && e.contract == contract && e.status != Released
  }

  predicate TokenSeen(events: seq<Event>, key: DayKey, contract: Contract) {
    exists i :: 0 <= i < |events| && Stands(events[i], key, contract)
  }

  predicate HasEvent(events: seq<Event>, signal: nat) {
    exists i :: 0 <= i < |events| && events[i].signal == signal
  }

  // ----- evaluation -----

  predicate TargetHolds(signal: Signal, row: PolicyRow) {
    && row.target.Some? && row.target.value.active
    && row.target.value.chain == signal.chain && row.target.value.contract == signal.contract
    && row.target.value.hash == row.hash
  }

  function BornAt(signal: Signal): Option<int> {
    if signal.sourceAt.Some? then signal.sourceAt else signal.signalAt
  }

  predicate TooOld(signal: Signal, w: World) {
    BornAt(signal).None? || w.now < BornAt(signal).value || w.now - BornAt(signal).value > w.maxAge
  }

  predicate Budgeted(signal: Signal, w: World) {
    w.row.Some? && signal.chain in w.row.value.budgets
  }

  function BudgetOf(signal: Signal, w: World): Budget
    requires Budgeted(signal, w)
  {
    w.row.value.budgets[signal.chain]
  }

  predicate TokenLimitHit(u: Usage, signal: Signal, w: World)
    requires Budgeted(signal, w)
  {
    var key := KeyFor(signal, w.today);
    !TokenSeen(u.events, key, signal.contract) && DayOf(u, key).newTokens >= w.row.value.newTokens
  }

  predicate BuyLimitHit(w: World) {
    w.row.Some? && w.tokenBuys >= w.row.value.perTokenBuys
  }

  predicate BudgetHit(u: Usage, signal: Signal, w: World)
    requires Budgeted(signal, w)
  {
    var day := DayOf(u, KeyFor(signal, w.today));
    day.spent + day.reserved + BudgetOf(signal, w).perTrade > BudgetOf(signal, w).daily
  }

  /** Everything that must hold for the signal to be authorized, in one place. */
  predicate Authorized(u: Usage, signal: Signal, w: World) {
    && w.liveEnabled && w.row.Some?
    && w.row.value.enabled && w.row.value.live && w.row.value.kolEnabled
    && w.row.value.revision == signal.revision && w.row.value.hash == signal.hash
    && TargetHolds(signal, w.row.value)
    && signal.chain in w.row.value.budgets
    && signal.activity in w.row.value.events
    && signal.sourceAt.Some? && !TooOld(signal, w)
    && w.openPositions == 0 && w.tokenBuys < w.row.value.perTokenBuys
    && !TokenLimitHit(u, signal, w) && !BudgetHit(u, signal, w)
  }

  // ----- reserving and settling -----

  function Reservation(u: Usage, signal: Signal, w: World): Event
    requires Budgeted(signal, w)
  {
    Event(signal.id, signal.policy, w.today, signal.chain, signal.contract, BudgetOf(signal, w).perTrade,
          !TokenSeen(u.events, KeyFor(signal, w.today), signal.contract), Reserved, 0)
  }

  function Counted(counts: bool): int {
    if counts then 1 else 0
  }

  function AddReservation(u: Usage, e: Event): Usage {
    var key := KeyOf(e);
    var day := DayOf(u, key);
    Usage(u.events + [e],
          u.days[key := Day(day.spent, day.reserved + e.amount, day.newTokens + Counted(e.counts), day.signals + 1)])
  }

  /** The ledger after a reservation attempt; a rejected one and a repeat leave it alone. */
  function Reserve(u: Usage, signal: Signal, w: World): Usage {
    if !Authorized(u, signal, w) || HasEvent(u.events, signal.id) then u
    else AddReservation(u, Reservation(u, signal, w))
  }

  function Max(a: int, b: int): int {
    if a < b then b else a
  }

  /** What a commit charges: the actual amount when the caller has a finite one. */
  function Charge(e: Event, status: EventStatus, actual: Option<int>): int {
    if status != Committed then 0 else if actual.Some? then actual.value else e.amount
  }

  function Settled(e: Event, status: EventStatus, actual: Option<int>): Event {
    e.(status := status, charged := Charge(e, status, actual))
  }

  function SettledDay(day: Day, e: Event, status: EventStatus, actual: Option<int>): Day {
    day.(reserved := Max(0, day.reserved - e.amount), spent := day.spent + Charge(e, status, actual),
         newTokens := Max(0, day.newTokens - Counted(status == Released && e.counts)))
  }

  function SettleAt(u: Usage, i: nat, status: EventStatus, actual: Option<int>): Usage
    requires i < |u.events|
  {
    var e := u.events[i];
    var key := KeyOf(e);
    Usage(u.events[i := Settled(e, status, actual)],
          if key in u.days then u.days[key := SettledDay(u.days[key], e, status, actual)] else u.days)
  }

  datatype Op =
    | DoReserve(signal: Signal, w: World)
    | DoSettle(id: nat, status: EventStatus, actual: Option<int>)

  /** The reserved event of a signal; signals have at most one event. */
  function Open(events: seq<Event>, signal: nat): (r: Option<nat>)
    ensures r.Some? ==> r.value < |events| && events[r.value].signal == signal && events[r.value].status == Reserved
    ensures r.None? ==> forall i :: 0 <= i < |events| ==> !(events[i].signal == signal && events[i].status == Reserved)
  {
    if events == [] then None
    else if events[|events| - 1].signal == signal && events[|events| - 1].status == Reserved then Some(|events| - 1)
    else Open(events[..|events| - 1], signal)
  }

  function Settle(u: Usage, id: nat, status: EventStatus, actual: Option<int>): Usage {
    match Open(u.events, id)
    case None => u
    case Some(i) => if status == Reserved then u else SettleAt(u, i, status, actual)
  }

  function Apply(u: Usage, op: Op): Usage {
    match op
    case DoReserve(signal, w) => Reserve(u, signal, w)
    case DoSettle(id, status, actual) => Settle(u, id, status, actual)
  }

  function Run(u: Usage, ops: seq<Op>): Usage
    decreases |ops|
  {
    if ops == [] then u else Run(Apply(u, ops[0]), ops[1..])
  }
}

/**
 What the ledger's totals mean: they are always the sums over the events, so the clamps
 never act; spending is capped; and exactly when the new-token count is the token count.
*/
module UsageTheorems {
  import opened Wrappers
  import opened UsageModel

  // ----- sums over the events -----

  function Sum(events: seq<Event>, f: Event -> int): int {
    if events == [] then 0 else Sum(events[..|events| - 1], f) + f(events[|events| - 1])
  }

  lemma SumAppend(events: seq<Event>, e: Event, f: Event -> int)
    ensures Sum(events + [e], f) == Sum(events, f) + f(e)
  {
    assert (events + [e])[..|events|] == events;
  }

  lemma {:induction false} SumUpdate(events: seq<Event>, i: nat, e: Event, f: Event -> int)
    requires i < |events|
    ensures Sum(events[i := e], f) == Sum(events, f) - f(events[i]) + f(e)
    decreases |events|
  {
    var last := |events| - 1;
    if i == last {
      assert events[i := e][..last] == events[..last];
    } else {
      assert events[i := e][..last] == events[..last][i := e];
      SumUpdate(events[..last], i, e, f);
    }
  }

  /** A sum of values that are never negative is at least each of them. */
  lemma {:induction false} SumAtLeast(events: seq<Event>, i: nat, f: Event -> int)
    requires i < |events| && forall e :: f(e) >= 0
    ensures Sum(events, f) >= f(events[i])
    decreases |events|
  {
    var last := |events| - 1;
    if i < last { SumAtLeast(events[..last], i, f); } else if last > 0 { SumAtLeast(events[..last], 0, f); }
  }

  function ReservedIn(key: DayKey): Event -> int {
    e => if KeyOf(e) == key && e.status == Reserved then e.amount else 0
  }

  function SpentIn(key: DayKey): Event -> int {
    e => if KeyOf(e) == key && e.status == Committed then e.charged else 0
  }

  function NewIn(key: DayKey): Event -> int {
    e => Counted(KeyOf(e) == key && e.counts && e.status != Released)
  }

  function SignalsIn(key: DayKey): Event -> int {
    e => Counted(KeyOf(e) == key)
  }

  // ----- conservation -----

  ghost predicate DayBalances(events: seq<Event>, key: DayKey, day: Day) {
    && day.reserved == Sum(events, ReservedIn(key))
    && day.spent == Sum(events, SpentIn(key))
    && day.newTokens == Sum(events, NewIn(key))
    && day.signals == Sum(events, SignalsIn(key))
  }

  ghost predicate Balanced(u: Usage) {
    && (forall key :: DayBalances(u.events, key, DayOf(u, key)))
    && (forall i :: 0 <= i < |u.events| ==> KeyOf(u.events[i]) in u.days)
  }

  ghost predicate OneEventEach(events: seq<Event>) {
    forall i, j :: 0 <= i < j < |events| ==> events[i].signal != events[j].signal
  }

  predicate CountsFor(e: Event, key: DayKey, contract: Contract) {
    Stands(e, key, contract) && e.counts
  }

  ghost predicate OneCounterEach(events: seq<Event>) {
    forall i, j :: 0 <= i < j < |events| && CountsFor(events[i], KeyOf(events[j]), events[j].contract)
      ==> !CountsFor(events[j], KeyOf(events[j]), events[j].contract)
  }

  ghost predicate LedgerInv(u: Usage) {
    Balanced(u) && OneEventEach(u.events) && OneCounterEach(u.events)
  }

  lemma AddBalances(u: Usage, e: Event)
    requires Balanced(u) && e.status == Reserved
    ensures Balanced(AddReservation(u, e))
  {
    var v := AddReservation(u, e);
    forall key ensures DayBalances(v.events, key, DayOf(v, key)) {
      assert DayBalances(u.events, key, DayOf(u, key));
      SumAppend(u.events, e, ReservedIn(key));
      SumAppend(u.events, e, SpentIn(key));
      SumAppend(u.events, e, NewIn(key));
      SumAppend(u.events, e, SignalsIn(key));
    }
  }

  lemma ReserveKeeps(u: Usage, signal: Signal, w: World)
    requires LedgerInv(u)
    ensures LedgerInv(Reserve(u, signal, w))
  {
    if Authorized(u, signal, w) && !HasEvent(u.events, signal.id) {
      AddBalances(u, Reservation(u, signal, w));
    }
  }

  /** The subtractions a settlement makes never go below zero, so neither clamp acts. */
  lemma ClampsNeverAct(u: Usage, i: nat, status: EventStatus)
    requires Balanced(u) && i < |u.events| && u.events[i].status == Reserved
    ensures var e, day := u.events[i], DayOf(u, KeyOf(u.events[i]));
            && day.reserved - e.amount >= 0
            && day.newTokens - Counted(status == Released && e.counts) >= 0
  {
    var key := KeyOf(u.events[i]);
    assert DayBalances(u.events, key, DayOf(u, key));
    SumAtLeast(u.events, i, ReservedIn(key));
    SumAtLeast(u.events, i, NewIn(key));
  }

  lemma SettleBalances(u: Usage, i: nat, status: EventStatus, actual: Option<int>)
    requires Balanced(u) && i < |u.events| && u.events[i].status == Reserved && status != Reserved
    ensures Balanced(SettleAt(u, i, status, actual))
  {
    var v := SettleAt(u, i, status, actual);
    var e := Settled(u.events[i], status, actual);
    ClampsNeverAct(u, i, status);
    forall key ensures DayBalances(v.events, key, DayOf(v, key)) {
      assert DayBalances(u.events, key, DayOf(u, key));
      SumUpdate(u.events, i, e, ReservedIn(key));
      SumUpdate(u.events, i, e, SpentIn(key));
      SumUpdate(u.events, i, e, NewIn(key));
      SumUpdate(u.events, i, e, SignalsIn(key));
    }
  }

  lemma SettleKeeps(u: Usage, id: nat, status: EventStatus, actual: Option<int>)
    requires LedgerInv(u)
    ensures LedgerInv(Settle(u, id, status, actual))
  {
    var i := Open(u.events, id);
    if i.Some? && status != Reserved { SettleBalances(u, i.value, status, actual); }
  }

  /** Conservation over every run: the day totals are the sums of the events. */
  lemma {:induction false} RunKeeps(u: Usage, ops: seq<Op>)
    requires LedgerInv(u)
    ensures LedgerInv(Run(u, ops))
    decreases |ops|
  {
    if ops != [] {
      match ops[0] {
        case DoReserve(signal, w) => ReserveKeeps(u, signal, w);
        case DoSettle(id, status, actual) => SettleKeeps(u, id, status, actual);
      }
      RunKeeps(Apply(u, ops[0]), ops[1..]);
    }
  }

  // ----- repeats -----

  /** A signal reserves once, whatever the ledger, the policy or the clock became since. */
  lemma {:induction false} ReserveOnce(u: Usage, signal: Signal, w: World, ops: seq<Op>, later: World)
    requires HasEvent(Reserve(u, signal, w).events, signal.id)
    ensures var v := Run(Reserve(u, signal, w), ops); Reserve(v, signal, later) == v
  {
    EventsStay(Reserve(u, signal, w), ops, signal.id);
  }

  /** An event settles once: a later settlement of the signal finds nothing open. */
  lemma SettleOnce(u: Usage, id: nat, status: EventStatus, actual: Option<int>, ops: seq<Op>,
                   status': EventStatus, actual': Option<int>)
    requires LedgerInv(u) && Open(u.events, id).Some? && status != Reserved
    ensures var v := Run(Settle(u, id, status, actual), ops); Settle(v, id, status', actual') == v
  {
    var i := Open(u.events, id).value;
    var v := Settle(u, id, status, actual);
    assert v.events[i].signal == id && v.events[i].status != Reserved;
    SettleKeeps(u, id, status, actual);
    SettledStays(v, ops, i);
    RunKeeps(v, ops);
  }

  lemma {:induction false} EventsStay(u: Usage, ops: seq<Op>, id: nat)
    requires HasEvent(u.events, id)
    ensures HasEvent(Run(u, ops).events, id)
    decreases |ops|
  {
    if ops != [] {
      var i :| 0 <= i < |u.events| && u.events[i].signal == id;
      assert Apply(u, ops[0]).events[i].signal == id;
      EventsStay(Apply(u, ops[0]), ops[1..], id);
    }
  }

  /** A settled event never changes again. */
  lemma {:induction false} SettledStays(u: Usage, ops: seq<Op>, i: nat)
    requires i < |u.events| && u.events[i].status != Reserved
    ensures i < |Run(u, ops).events| && Run(u, ops).events[i] == u.events[i]
    decreases |ops|
  {
    if ops != [] { SettledStays(Apply(u, ops[0]), ops[1..], i); }
  }

  // ----- who is authorized -----

  /** An event that was not released stands for this token of this policy on this day and chain. */
  ghost predicate TokenStands(u: Usage, policy: nat, date: int, chain: Chain, contract: Contract) {
    exists i :: 0 <= i < |u.events| && u.events[i].policy == policy && u.events[i].date == date && u.events[i].chain == chain
                && u.events[i].contract == contract && u.events[i].status != Released
  }

  lemma StandsIsSeen(u: Usage, policy: nat, date: int, chain: Chain, contract: Contract)
    ensures TokenStands(u, policy, date, chain, contract) <==> TokenSeen(u.events, DayKey(policy, date, chain), contract)
  {
    var key := DayKey(policy, date, chain);
    if TokenSeen(u.events, key, contract) {
      var i :| 0 <= i < |u.events| && Stands(u.events[i], key, contract);
    }
    if i :| 0 <= i < |u.events| && u.events[i].policy == policy && u.events[i].date == date && u.events[i].chain == chain
            && u.events[i].contract == contract && u.events[i].status != Released {
      assert Stands(u.events[i], key, contract);
    }
  }

  /**
   A signal is authorized exactly when live trading, the policy as it is now, its target, the age of
   the source, the token's positions and buys, the day's new tokens and the day's budget all allow it.
  */
  lemma AuthorizedExactly(u: Usage, signal: Signal, w: World)
    ensures Authorized(u, signal, w) <==>
              && w.liveEnabled && w.row.Some?
              && var row := w.row.value;
              && row.enabled && row.live && row.kolEnabled && row.revision == signal.revision && row.hash == signal.hash
              && row.target == Some(TargetRow(true, signal.chain, signal.contract, signal.hash))
              && signal.activity in row.events
              && signal.sourceAt.Some? && 0 <= w.now - signal.sourceAt.value <= w.maxAge
              && w.openPositions == 0 && w.tokenBuys < row.perTokenBuys
              && signal.chain in row.budgets
              && var day, budget := DayOf(u, DayKey(signal.policy, w.today, signal.chain)), row.budgets[signal.chain];
              && day.spent + day.reserved + budget.perTrade <= budget.daily
              && (day.newTokens < row.newTokens || TokenStands(u, signal.policy, w.today, signal.chain, signal.contract))
  {
    StandsIsSeen(u, signal.policy, w.today, signal.chain, signal.contract);
    hide TokenStands, TokenSeen, DayOf;
  }

  // ----- what one operation does to the day -----

  predicate Adds(u: Usage, signal: Signal, w: World) {
    Authorized(u, signal, w) && !HasEvent(u.events, signal.id)
  }

  /** A new reservation books the policy's amount per trade for its chain, today, and a token once. */
  lemma ReservationBooks(u: Usage, signal: Signal, w: World)
    requires LedgerInv(u) && Adds(u, signal, w)
    ensures signal.chain in w.row.value.budgets
    ensures var key := DayKey(signal.policy, w.today, signal.chain);
            var before, after := DayOf(u, key), DayOf(Reserve(u, signal, w), key);
            var seen := exists i :: 0 <= i < |u.events| && u.events[i].policy == signal.policy && u.events[i].date == w.today
                          && u.events[i].chain == signal.chain && u.events[i].contract == signal.contract
                          && u.events[i].status != Released;
            && after.reserved == before.reserved + w.row.value.budgets[signal.chain].perTrade
            && after.spent == before.spent && after.signals == before.signals + 1
            && after.newTokens == before.newTokens + (if seen then 0 else 1)
            && forall k :: k != key ==> DayOf(Reserve(u, signal, w), k) == DayOf(u, k)
  {
    var key := DayKey(signal.policy, w.today, signal.chain);
    if TokenSeen(u.events, key, signal.contract) {
      var i :| 0 <= i < |u.events| && Stands(u.events[i], key, signal.contract);
    }
    if i :| 0 <= i < |u.events| && u.events[i].policy == signal.policy && u.events[i].date == w.today
            && u.events[i].chain == signal.chain && u.events[i].contract == signal.contract && u.events[i].status != Released {
      assert Stands(u.events[i], key, signal.contract);
    }
  }

  /** What an operation spends of a day: a commit of a reserved event its actual amount, or the amount reserved. */
  ghost function SpentBy(u: Usage, op: Op, key: DayKey): int {
    if op.DoSettle? && op.status == Committed && ReservedFor(u, op.id, key) then
      if op.actual.Some? then op.actual.value else AmountOf(u, op.id)
    else 0
  }

  /** The signal has a reserved event on this day. */
  ghost predicate ReservedFor(u: Usage, id: nat, key: DayKey) {
    exists i :: 0 <= i < |u.events| && u.events[i].signal == id && u.events[i].status == Reserved
                && DayKey(u.events[i].policy, u.events[i].date, u.events[i].chain) == key
  }

  ghost function AmountOf(u: Usage, id: nat): (r: int)
    ensures OneEventEach(u.events) ==>
              forall i :: 0 <= i < |u.events| && u.events[i].signal == id && u.events[i].status == Reserved ==>
                r == u.events[i].amount
  {
    if i :| 0 <= i < |u.events| && u.events[i].signal == id && u.events[i].status == Reserved then u.events[i].amount else 0
  }

  /**
   A commit of a reserved event adds the actual amount, or the amount reserved when there is none,
   to the spending of the event's own day, takes the reserved amount off it, and leaves the rest.
  */
  lemma CommitSpends(u: Usage, id: nat, actual: Option<int>, i: nat)
    requires LedgerInv(u) && i < |u.events| && u.events[i].signal == id && u.events[i].status == Reserved
    ensures var e, v := u.events[i], Settle(u, id, Committed, actual);
            var key := DayKey(e.policy, e.date, e.chain);
            && DayOf(v, key).spent == DayOf(u, key).spent + (if actual.Some? then actual.value else e.amount)
            && DayOf(v, key).reserved == DayOf(u, key).reserved - e.amount
            && DayOf(v, key).newTokens == DayOf(u, key).newTokens && DayOf(v, key).signals == DayOf(u, key).signals
            && (forall k :: k != key ==> DayOf(v, k) == DayOf(u, k))
            && |v.events| == |u.events| && v.events[i].status == Committed
            && forall j :: 0 <= j < |u.events| && j != i ==> v.events[j] == u.events[j]
  {
    assert Open(u.events, id) == Some(i);
    ClampsNeverAct(u, i, Committed);
  }

  /** A release spends nothing: it takes the reserved amount off the day, and the token it counted. */
  lemma ReleaseGivesBack(u: Usage, id: nat, actual: Option<int>, i: nat)
    requires LedgerInv(u) && i < |u.events| && u.events[i].signal == id && u.events[i].status == Reserved
    ensures var e, v := u.events[i], Settle(u, id, Released, actual);
            var key := DayKey(e.policy, e.date, e.chain);
            && DayOf(v, key).spent == DayOf(u, key).spent
            && DayOf(v, key).reserved == DayOf(u, key).reserved - e.amount
            && DayOf(v, key).newTokens == DayOf(u, key).newTokens - (if e.counts then 1 else 0)
            && DayOf(v, key).signals == DayOf(u, key).signals
            && (forall k :: k != key ==> DayOf(v, k) == DayOf(u, k))
            && |v.events| == |u.events| && v.events[i].status == Released
            && forall j :: 0 <= j < |u.events| && j != i ==> v.events[j] == u.events[j]
  {
    assert Open(u.events, id) == Some(i);
    ClampsNeverAct(u, i, Released);
  }

  /** A settlement of a signal without a reserved event, and one that does neither, change nothing. */
  lemma OtherSettlements(u: Usage, id: nat, status: EventStatus, actual: Option<int>)
    requires status == Reserved || forall i :: 0 <= i < |u.events| && u.events[i].signal == id ==> u.events[i].status != Reserved
    ensures Settle(u, id, status, actual) == u
  {
  }

  lemma OpSpends(u: Usage, op: Op, key: DayKey)
    requires LedgerInv(u)
    ensures DayOf(Apply(u, op), key).spent == DayOf(u, key).spent + SpentBy(u, op, key)
  {
    match op
    case DoReserve(signal, w) => if Adds(u, signal, w) { ReservationBooks(u, signal, w); }
    case DoSettle(id, status, actual) =>
      if i :| 0 <= i < |u.events| && u.events[i].signal == id && u.events[i].status == Reserved {
        SettlementSpends(u, id, status, actual, i, key);
      } else {
        OtherSettlements(u, id, status, actual);
      }
  }

  lemma SettlementSpends(u: Usage, id: nat, status: EventStatus, actual: Option<int>, i: nat, key: DayKey)
    requires LedgerInv(u) && i < |u.events| && u.events[i].signal == id && u.events[i].status == Reserved
    ensures DayOf(Settle(u, id, status, actual), key).spent == DayOf(u, key).spent + SpentBy(u, DoSettle(id, status, actual), key)
  {
    assert ReservedFor(u, id, key) <==> DayKey(u.events[i].policy, u.events[i].date, u.events[i].chain) == key;
    match status
    case Committed => CommitSpends(u, id, actual, i);
    case Released => ReleaseGivesBack(u, id, actual, i);
    case Reserved => OtherSettlements(u, id, status, actual);
  }

  /** The sum of what the operations of a run spend, each read off the state it meets. */
  ghost function RunSpent(u: Usage, ops: seq<Op>, key: DayKey): int
    decreases |ops|
  {
    if ops == [] then 0 else SpentBy(u, ops[0], key) + RunSpent(Apply(u, ops[0]), ops[1..], key)
  }

  lemma ApplyKeeps(u: Usage, op: Op)
    requires LedgerInv(u)
    ensures LedgerInv(Apply(u, op))
  {
    match op
    case DoReserve(signal, w) => ReserveKeeps(u, signal, w);
    case DoSettle(id, status, actual) => SettleKeeps(u, id, status, actual);
  }

  /** Over every run a day's spending grows by exactly what its commits were told they cost. */
  lemma {:induction false} RunSpends(u: Usage, ops: seq<Op>, key: DayKey)
    requires LedgerInv(u)
    ensures DayOf(Run(u, ops), key).spent == DayOf(u, key).spent + RunSpent(u, ops, key)
    decreases |ops|
  {
    if ops != [] {
      OpSpends(u, ops[0], key);
      ApplyKeeps(u, ops[0]);
      hide Apply, LedgerInv, SpentBy;
      RunSpends(Apply(u, ops[0]), ops[1..], key);
    }
  }

  // ----- the spending cap -----

  /** How far an operation's commit goes over what had been reserved for it. */
  ghost function OverrunBy(u: Usage, op: Op, key: DayKey): int {
    if op.DoSettle? && op.status == Committed && op.actual.Some? && ReservedFor(u, op.id, key)
    then Max(0, op.actual.value - AmountOf(u, op.id)) else 0
  }

  ghost function RunOverrun(u: Usage, ops: seq<Op>, key: DayKey): int
    decreases |ops|
  {
    if ops == [] then 0 else OverrunBy(u, ops[0], key) + RunOverrun(Apply(u, ops[0]), ops[1..], key)
  }

  /** A new reservation leaves the day within the policy's daily budget, and a new token within the limit. */
  lemma ReservationFitsBudget(u: Usage, signal: Signal, w: World)
    requires LedgerInv(u) && Adds(u, signal, w)
    ensures signal.chain in w.row.value.budgets
    ensures var day := DayOf(Reserve(u, signal, w), DayKey(signal.policy, w.today, signal.chain));
            && day.spent + day.reserved <= w.row.value.budgets[signal.chain].daily
            && (day.newTokens > DayOf(u, DayKey(signal.policy, w.today, signal.chain)).newTokens ==>
                  day.newTokens <= w.row.value.newTokens)
  {
    ReservationBooks(u, signal, w);
  }

  /** Every authorization for this day and chain offered at most these limits. */
  predicate WithinLimits(op: Op, key: DayKey, daily: int, tokens: int) {
    op.DoReserve? && KeyFor(op.signal, op.w.today) == key && Budgeted(op.signal, op.w) ==>
      BudgetOf(op.signal, op.w).daily <= daily && op.w.row.value.newTokens <= tokens
  }

  /** Within the limits, but for an amount by which commits went over. */
  predicate Capped(day: Day, daily: int, tokens: int, overrun: int) {
    day.spent + day.reserved <= daily + overrun && day.newTokens <= tokens
  }

  lemma OpCapped(u: Usage, op: Op, key: DayKey, daily: int, tokens: int, overrun: int)
    requires LedgerInv(u) && Capped(DayOf(u, key), daily, tokens, overrun) && overrun >= 0
    requires WithinLimits(op, key, daily, tokens)
    ensures Capped(DayOf(Apply(u, op), key), daily, tokens, overrun + OverrunBy(u, op, key))
  {
    match op
    case DoReserve(signal, w) => if Adds(u, signal, w) { ReservationBooks(u, signal, w); }
    case DoSettle(id, status, actual) =>
      if i :| 0 <= i < |u.events| && u.events[i].signal == id && u.events[i].status == Reserved {
        SettlementCapped(u, id, status, actual, i, key, daily, tokens, overrun);
      } else {
        OtherSettlements(u, id, status, actual);
      }
  }

  lemma SettlementCapped(u: Usage, id: nat, status: EventStatus, actual: Option<int>, i: nat, key: DayKey, daily: int,
                         tokens: int, overrun: int)
    requires LedgerInv(u) && i < |u.events| && u.events[i].signal == id && u.events[i].status == Reserved
    requires Capped(DayOf(u, key), daily, tokens, overrun)
    ensures Capped(DayOf(Settle(u, id, status, actual), key), daily, tokens,
                   overrun + OverrunBy(u, DoSettle(id, status, actual), key))
  {
    assert ReservedFor(u, id, key) <==> DayKey(u.events[i].policy, u.events[i].date, u.events[i].chain) == key;
    match status
    case Committed => CommitSpends(u, id, actual, i);
    case Released => ReleaseGivesBack(u, id, actual, i);
    case Reserved => OtherSettlements(u, id, status, actual);
  }

  /**
   Over a whole run a day's spending and reservations exceed the daily budget by no more than the
   commits' own amounts exceeded what had been reserved for them, and its new tokens stay within
   the limit.
  */
  lemma {:induction false} RunCapped(u: Usage, ops: seq<Op>, key: DayKey, daily: int, tokens: int, overrun: int)
    requires LedgerInv(u) && Capped(DayOf(u, key), daily, tokens, overrun) && overrun >= 0
    requires forall i :: 0 <= i < |ops| ==> WithinLimits(ops[i], key, daily, tokens)
    ensures Capped(DayOf(Run(u, ops), key), daily, tokens, overrun + RunOverrun(u, ops, key))
    decreases |ops|
  {
    if ops != [] {
      OpCapped(u, ops[0], key, daily, tokens, overrun);
      ApplyKeeps(u, ops[0]);
      assert OverrunBy(u, ops[0], key) >= 0;
      hide Apply, LedgerInv, OverrunBy, WithinLimits, Capped;
      RunCapped(Apply(u, ops[0]), ops[1..], key, daily, tokens, overrun + OverrunBy(u, ops[0], key));
    }
  }

  // ----- when a reservation stands behind a signal -----

  /**
   An authorized attempt returns the same answer whether it reserved, repeated, or met a
   settled event. A live reservation stands behind the answer exactly when the signal had
   no event or its event was still reserved.
  */
  lemma AnswerIsBacked(u: Usage, signal: Signal, w: World)
    requires LedgerInv(u) && Authorized(u, signal, w)
    ensures Open(Reserve(u, signal, w).events, signal.id).Some?
        <==> !HasEvent(u.events, signal.id) || Open(u.events, signal.id).Some?
  {
    var v := Reserve(u, signal, w);
    if !HasEvent(u.events, signal.id) {
      assert v.events[|u.events|].signal == signal.id && v.events[|u.events|].status == Reserved;
    }
  }

  // ----- new tokens and distinct tokens -----

  /** The tokens a day's events stand for, and those among them that are counted. */
  ghost function TokensOf(events: seq<Event>, key: DayKey): set<Contract> {
    set i | 0 <= i < |events| && Stands(events[i], key, events[i].contract) :: events[i].contract
  }

  ghost function CountedTokens(events: seq<Event>, key: DayKey): set<Contract> {
    set i | 0 <= i < |events| && CountsFor(events[i], key, events[i].contract) :: events[i].contract
  }

  /** The counter is the number of counted tokens: no token is counted twice. */
  lemma {:induction false} CounterCountsTokens(events: seq<Event>, key: DayKey)
    requires OneCounterEach(events)
    ensures Sum(events, NewIn(key)) == |CountedTokens(events, key)|
  {
    if events != [] {
      var front, e := events[..|events| - 1], events[|events| - 1];
      CounterCountsTokens(front, key);
      assert events == front + [e];
      if CountsFor(e, key, e.contract) {
        assert e.contract !in CountedTokens(front, key);
        assert events[|front|] == e;
        assert CountedTokens(events, key) == CountedTokens(front, key) + {e.contract} by { TokensGrow(front, e, key); }
      } else {
        assert CountedTokens(events, key) == CountedTokens(front, key) by { TokensGrow(front, e, key); }
      }
    }
  }

  lemma TokensGrow(front: seq<Event>, e: Event, key: DayKey)
    ensures CountedTokens(front + [e], key)
         == CountedTokens(front, key) + if CountsFor(e, key, e.contract) then {e.contract} else {}
  {
    var events := front + [e];
    forall c | c in CountedTokens(front, key) ensures c in CountedTokens(events, key) {
      var i :| 0 <= i < |front| && CountsFor(front[i], key, front[i].contract) && front[i].contract == c;
      assert events[i] == front[i];
    }
    if CountsFor(e, key, e.contract) { assert events[|front|] == e; }
  }

  /** Every token seen on its day is counted on its day. */
  ghost predicate CountIsExact(events: seq<Event>) {
    forall i :: 0 <= i < |events| && events[i].status != Released ==>
      CounterOf(events, KeyOf(events[i]), events[i].contract)
  }

  ghost predicate CounterOf(events: seq<Event>, key: DayKey, contract: Contract) {
    exists j :: 0 <= j < |events| && CountsFor(events[j], key, contract)
  }

  /** While exact, the counter is the number of distinct tokens of the day. */
  lemma ExactCountIsTokens(u: Usage, key: DayKey)
    requires LedgerInv(u) && CountIsExact(u.events)
    ensures DayOf(u, key).newTokens == |TokensOf(u.events, key)|
  {
    assert DayBalances(u.events, key, DayOf(u, key));
    CounterCountsTokens(u.events, key);
    forall c ensures c in TokensOf(u.events, key) <==> c in CountedTokens(u.events, key) {
      if c in TokensOf(u.events, key) {
        var i :| 0 <= i < |u.events| && Stands(u.events[i], key, u.events[i].contract) && u.events[i].contract == c;
        assert CounterOf(u.events, key, c);
        var j :| 0 <= j < |u.events| && CountsFor(u.events[j], key, c);
        assert u.events[j].contract == c;
      }
    }
    assert TokensOf(u.events, key) == CountedTokens(u.events, key);
  }

  /** Another event stands for the same token on the same day. */
  ghost predicate Shared(events: seq<Event>, i: nat)
    requires i < |events|
  {
    exists j :: 0 <= j < |events| && j != i && Stands(events[j], KeyOf(events[i]), events[i].contract)
  }

  lemma OnlyCounter(events: seq<Event>, i: nat, k: nat)
    requires OneCounterEach(events) && i < |events| && k < |events| && i != k
    requires CountsFor(events[i], KeyOf(events[i]), events[i].contract)
    ensures !CountsFor(events[k], KeyOf(events[i]), events[i].contract)
  {
  }

  lemma ReserveStaysExact(u: Usage, signal: Signal, w: World)
    requires LedgerInv(u) && CountIsExact(u.events)
    ensures CountIsExact(Reserve(u, signal, w).events)
  {
    if Adds(u, signal, w) {
      var e := Reservation(u, signal, w);
      var events := u.events + [e];
      forall i | 0 <= i < |events| && events[i].status != Released
        ensures CounterOf(events, KeyOf(events[i]), events[i].contract)
      {
        var seen := if i < |u.events| then Some(i) else SeenAt(u.events, KeyOf(e), e.contract);
        if seen.Some? {
          assert CounterOf(u.events, KeyOf(u.events[seen.value]), u.events[seen.value].contract);
          var j :| 0 <= j < |u.events| && CountsFor(u.events[j], KeyOf(events[i]), events[i].contract);
          assert events[j] == u.events[j];
        } else {
          assert events[|u.events|] == e && CountsFor(e, KeyOf(e), e.contract);
        }
      }
    }
  }

  ghost function SeenAt(events: seq<Event>, key: DayKey, contract: Contract): (r: Option<nat>)
    ensures r.Some? ==> r.value < |events| && Stands(events[r.value], key, contract)
    ensures r.None? ==> !TokenSeen(events, key, contract)
  {
    if TokenSeen(events, key, contract) then
      var i :| 0 <= i < |events| && Stands(events[i], key, contract);
      Some(i)
    else None
  }

  /**
   The count stops matching the tokens exactly when a release takes a counting event away
   from a token another event still stands for; every other settlement keeps it exact.
  */
  lemma SettleStaysExact(u: Usage, id: nat, status: EventStatus, actual: Option<int>)
    requires LedgerInv(u) && CountIsExact(u.events) && Open(u.events, id).Some? && status != Reserved
    ensures var i := Open(u.events, id).value;
            CountIsExact(Settle(u, id, status, actual).events)
            <==> !(status == Released && u.events[i].counts && Shared(u.events, i))
  {
    var i := Open(u.events, id).value;
    var e := u.events[i];
    var after := Settle(u, id, status, actual).events;
    assert after == u.events[i := Settled(e, status, actual)];
    if status == Released && e.counts && Shared(u.events, i) {
      var j :| 0 <= j < |u.events| && j != i && Stands(u.events[j], KeyOf(e), e.contract);
      assert after[j] == u.events[j];
      forall k | 0 <= k < |after| ensures !CountsFor(after[k], KeyOf(e), e.contract) {
        if k != i { OnlyCounter(u.events, i, k); }
      }
      assert !CounterOf(after, KeyOf(after[j]), after[j].contract);
    } else {
      forall k | 0 <= k < |after| && after[k].status != Released
        ensures CounterOf(after, KeyOf(after[k]), after[k].contract)
      {
        assert CounterOf(u.events, KeyOf(u.events[k]), u.events[k].contract);
        var j :| 0 <= j < |u.events| && CountsFor(u.events[j], KeyOf(u.events[k]), u.events[k].contract);
        assert CountsFor(after[j], KeyOf(after[k]), after[k].contract);
      }
    }
  }

  // ----- the two ways a reader may be misled, as runs -----

  const POLICY := PolicyRow(
    true, true, true, 1, "hash", Some(TargetRow(true, "bsc", "0xa", "hash")), map["bsc" := Budget(1, 10)], {"post"}, 5, 5)

  const TODAY := World(true, 0, 7, 1000, Some(POLICY), 0, 0)
  const TODAYS_KEY := DayKey(1, 7, "bsc")
  const NOTHING := Usage([], map[])

  /** A signal of the policy for its one token. */
  function SignalOf(id: nat): Signal {
    Signal(id, 1, 1, "hash", "bsc", "0xa", "post", Some(0), Some(0))
  }

  function EventOf(id: nat, counts: bool, status: EventStatus): Event {
    Event(id, 1, 7, "bsc", "0xa", 1, counts, status, 0)
  }

  lemma FirstReservation(id: nat)
    ensures Authorized(NOTHING, SignalOf(id), TODAY)
    ensures Reserve(NOTHING, SignalOf(id), TODAY)
         == Usage([EventOf(id, true, Reserved)], map[TODAYS_KEY := Day(0, 1, 1, 1)])
  {
  }

  lemma SecondReservation(u: Usage)
    requires u == Usage([EventOf(1, true, Reserved)], map[TODAYS_KEY := Day(0, 1, 1, 1)])
    ensures Reserve(u, SignalOf(2), TODAY)
         == Usage([EventOf(1, true, Reserved), EventOf(2, false, Reserved)], map[TODAYS_KEY := Day(0, 2, 1, 2)])
  {
    assert Stands(u.events[0], TODAYS_KEY, "0xa");
    assert TokenSeen(u.events, TODAYS_KEY, "0xa");
    assert Authorized(u, SignalOf(2), TODAY);
  }

  lemma FirstReleased(u: Usage)
    requires u == Usage([EventOf(1, true, Reserved), EventOf(2, false, Reserved)], map[TODAYS_KEY := Day(0, 2, 1, 2)])
    ensures Settle(u, 1, Released, None)
         == Usage([EventOf(1, true, Released), EventOf(2, false, Reserved)], map[TODAYS_KEY := Day(0, 1, 0, 2)])
  {
    assert u.events[..1] == [EventOf(1, true, Reserved)];
    assert u.events[0].signal == 1 && u.events[0].status == Reserved;
    assert Open(u.events, 1) == Some(0);
  }

  lemma UncountedToken(u: Usage)
    requires u == Usage([EventOf(1, true, Released), EventOf(2, false, Reserved)], map[TODAYS_KEY := Day(0, 1, 0, 2)])
    ensures !CountIsExact(u.events) && DayOf(u, TODAYS_KEY).newTokens == 0 && TokensOf(u.events, TODAYS_KEY) == {"0xa"}
  {
    assert u.events[1] == EventOf(2, false, Reserved) && Stands(u.events[1], TODAYS_KEY, "0xa");
    assert "0xa" in TokensOf(u.events, TODAYS_KEY);
    assert !CounterOf(u.events, TODAYS_KEY, "0xa");
  }

  lemma NothingBalances()
    ensures LedgerInv(NOTHING)
  {
  }

  /**
   Two signals reserve for one token and the first is released: the token still stands, but the
   day's counter says that there is none.
  */
  lemma ReleaseCanUndercount()
    ensures var u := Run(NOTHING, [DoReserve(SignalOf(1), TODAY), DoReserve(SignalOf(2), TODAY), DoSettle(1, Released, None)]);
            && LedgerInv(u) && !CountIsExact(u.events)
            && DayOf(u, TODAYS_KEY).newTokens == 0 && TokensOf(u.events, TODAYS_KEY) == {"0xa"}
  {
    hide CountIsExact, TokensOf, LedgerInv, Run, Reserve, Settle, DayOf, EventOf, SignalOf;
    var ops := [DoReserve(SignalOf(1), TODAY), DoReserve(SignalOf(2), TODAY), DoSettle(1, Released, None)];
    FirstReservation(1);
    SecondReservation(Reserve(NOTHING, SignalOf(1), TODAY));
    FirstReleased(Reserve(Reserve(NOTHING, SignalOf(1), TODAY), SignalOf(2), TODAY));
    NothingBalances();
    RunKeeps(NOTHING, ops);
    RunsInThree(ops);
    UncountedToken(Run(NOTHING, ops));
  }

  lemma RunsInThree(ops: seq<Op>)
    requires |ops| == 3
    ensures Run(NOTHING, ops) == Apply(Apply(Apply(NOTHING, ops[0]), ops[1]), ops[2])
  {
    assert ops[1..][1..] == [ops[2]] && ops[1..][0] == ops[1] && [ops[2]][1..] == [];
    assert Run(NOTHING, ops) == Run(Apply(NOTHING, ops[0]), ops[1..]);
    assert Run(Apply(Apply(NOTHING, ops[0]), ops[1]), [ops[2]]) == Apply(Apply(Apply(NOTHING, ops[0]), ops[1]), ops[2]);
    hide Apply;
  }

  lemma OneReleased(u: Usage)
    requires u == Usage([EventOf(1, true, Reserved)], map[TODAYS_KEY := Day(0, 1, 1, 1)])
    ensures Settle(u, 1, Released, None) == Usage([EventOf(1, true, Released)], map[TODAYS_KEY := Day(0, 0, 0, 1)])
  {
    assert u.events[0].signal == 1 && u.events[0].status == Reserved;
    assert Open(u.events, 1) == Some(0);
  }

  lemma AuthorizedAgain(u: Usage)
    requires u == Usage([EventOf(1, true, Released)], map[TODAYS_KEY := Day(0, 0, 0, 1)])
    ensures Authorized(u, SignalOf(1), TODAY) && HasEvent(u.events, 1)
  {
    assert u.events[0].signal == 1;
    assert !TokenSeen(u.events, TODAYS_KEY, "0xa");
  }

  /** A signal reserves, is released, and reserves again: it is authorized, and nothing is reserved for it. */
  lemma ReleasedAnswerIsUnbacked()
    ensures var u := Settle(Reserve(NOTHING, SignalOf(1), TODAY), 1, Released, None);
            && Authorized(u, SignalOf(1), TODAY) && Reserve(u, SignalOf(1), TODAY) == u
            && Open(Reserve(u, SignalOf(1), TODAY).events, 1).None?
  {
    FirstReservation(1);
    var one := Reserve(NOTHING, SignalOf(1), TODAY);
    OneReleased(one);
    var u := Settle(one, 1, Released, None);
    AuthorizedAgain(u);
    hide Authorized, HasEvent;
    assert Open(u.events, 1).None?;
  }
}

/** The ledger's tables as they are updated, and the evaluation that pushes its blockers. */
module UsageLedger {
  import opened Wrappers
  import opened UsageModel
  import opened UsageTheorems

  /** The order in which the evaluation reports. */
  function Rank(b: Blocker): nat {
    match b
    case LiveDisabled => 0
    case PolicyNotFound => 1
    case PolicyNotLive => 2
    case RevisionChanged => 3
    case ContextChanged => 4
    case TargetChanged => 5
    case BudgetNotConfigured => 6
    case EventNotAllowed => 7
    case SourceTimeMissing => 8
    case SignalExpired => 9
    case PositionExists => 10
    case TokenBuyLimit => 11
    case DailyTokenLimit => 12
    case DailyBudgetExceeded => 13
  }

  predicate Blocks(b: Blocker, u: Usage, signal: Signal, w: World) {
    match b
    case LiveDisabled => !w.liveEnabled
    case PolicyNotFound => w.row.None?
    case PolicyNotLive => w.row.Some? && !(w.row.value.enabled && w.row.value.live && w.row.value.kolEnabled)
    case RevisionChanged => w.row.Some? && w.row.value.revision != signal.revision
    case ContextChanged => w.row.Some? && w.row.value.hash != signal.hash
    case TargetChanged => w.row.Some? && !TargetHolds(signal, w.row.value)
    case BudgetNotConfigured => w.row.Some? && signal.chain !in w.row.value.budgets
    case EventNotAllowed => w.row.Some? && signal.activity !in w.row.value.events
    case SourceTimeMissing => signal.sourceAt.None?
    case SignalExpired => TooOld(signal, w)
    case PositionExists => Budgeted(signal, w) && w.openPositions > 0
    case TokenBuyLimit => Budgeted(signal, w) && BuyLimitHit(w)
    case DailyTokenLimit => Budgeted(signal, w) && TokenLimitHit(u, signal, w)
    case DailyBudgetExceeded => Budgeted(signal, w) && BudgetHit(u, signal, w)
  }

  /** Exactly the blockers that apply among the first `n`, in order. */
  ghost predicate Reported(blockers: seq<Blocker>, n: nat, u: Usage, signal: Signal, w: World) {
    && (forall b :: b in blockers <==> Rank(b) < n && Blocks(b, u, signal, w))
    && (forall i, j :: 0 <= i < j < |blockers| ==> Rank(blockers[i]) < Rank(blockers[j]))
  }

  method Check(blockers: seq<Blocker>, b: Blocker, hit: bool, ghost u: Usage, ghost signal: Signal, ghost w: World)
    returns (r: seq<Blocker>)
    requires Reported(blockers, Rank(b), u, signal, w) && hit == Blocks(b, u, signal, w)
    ensures Reported(r, Rank(b) + 1, u, signal, w)
  {
    r := if hit then blockers + [b] else blockers;
    forall c ensures c in r <==> Rank(c) < Rank(b) + 1 && Blocks(c, u, signal, w) {
      if Rank(c) == Rank(b) { SameRank(b, c); }
    }
  }

  lemma SameRank(a: Blocker, b: Blocker)
    requires Rank(a) == Rank(b)
    ensures a == b
  {
  }

  /** Nothing blocks exactly when everything an authorization needs holds. */
  lemma NoBlockerMeansAuthorized(u: Usage, signal: Signal, w: World)
    ensures Authorized(u, signal, w) <==> forall b :: !Blocks(b, u, signal, w)
  {
    if forall b :: !Blocks(b, u, signal, w) {
      assert !Blocks(LiveDisabled, u, signal, w) && !Blocks(PolicyNotFound, u, signal, w);
      assert !Blocks(PolicyNotLive, u, signal, w) && !Blocks(RevisionChanged, u, signal, w);
      assert !Blocks(ContextChanged, u, signal, w) && !Blocks(TargetChanged, u, signal, w);
      assert !Blocks(BudgetNotConfigured, u, signal, w) && !Blocks(EventNotAllowed, u, signal, w);
      assert !Blocks(SourceTimeMissing, u, signal, w) && !Blocks(SignalExpired, u, signal, w);
      assert !Blocks(PositionExists, u, signal, w) && !Blocks(TokenBuyLimit, u, signal, w);
      assert !Blocks(DailyTokenLimit, u, signal, w) && !Blocks(DailyBudgetExceeded, u, signal, w);
    }
  }

  /** A signal counts as expired exactly when its best time is missing, lies ahead, or is older than the maximum age. */
  lemma ExpiresExactly(u: Usage, signal: Signal, w: World)
    ensures Blocks(SignalExpired, u, signal, w) <==>
              if signal.sourceAt.Some? then !(0 <= w.now - signal.sourceAt.value <= w.maxAge)
              else signal.signalAt.None? || !(0 <= w.now - signal.signalAt.value <= w.maxAge)
  {
  }

  /** Reports every blocker that applies and no other, the first of them as the error's code. */
  method Evaluate(u: Usage, signal: Signal, w: World) returns (blockers: seq<Blocker>)
    ensures forall b :: b in blockers <==> Blocks(b, u, signal, w)
    ensures forall i, j :: 0 <= i < j < |blockers| ==> Rank(blockers[i]) < Rank(blockers[j])
    ensures blockers == [] <==> Authorized(u, signal, w)
  {
    hide Reported, Blocks, Authorized, Rank;
    blockers := CheckPolicy(u, signal, w);
    blockers := CheckAge(blockers, u, signal, w);
    blockers := CheckUsage(blockers, u, signal, w);
    AllReported(blockers, u, signal, w);
    NoBlockerMeansAuthorized(u, signal, w);
  }

  /** The checks on the source time, made even when the policy is already refused. */
  method CheckAge(before: seq<Blocker>, u: Usage, signal: Signal, w: World) returns (blockers: seq<Blocker>)
    requires Reported(before, 8, u, signal, w)
    ensures Reported(blockers, 10, u, signal, w)
  {
    hide Reported, TooOld;
    blockers := Check(before, SourceTimeMissing, signal.sourceAt.None?, u, signal, w);
    blockers := Check(blockers, SignalExpired, TooOld(signal, w), u, signal, w);
  }

  /** The checks on positions and usage, made when the chain has a budget. */
  method CheckUsage(before: seq<Blocker>, u: Usage, signal: Signal, w: World) returns (blockers: seq<Blocker>)
    requires Reported(before, 10, u, signal, w)
    ensures Reported(blockers, 14, u, signal, w)
  {
    var budgeted := Budgeted(signal, w);
    hide Reported, TokenLimitHit, BudgetHit, Budgeted;
    blockers := Check(before, PositionExists, budgeted && w.openPositions > 0, u, signal, w);
    blockers := Check(blockers, TokenBuyLimit, budgeted && BuyLimitHit(w), u, signal, w);
    blockers := Check(blockers, DailyTokenLimit, budgeted && TokenLimitHit(u, signal, w), u, signal, w);
    blockers := Check(blockers, DailyBudgetExceeded, budgeted && BudgetHit(u, signal, w), u, signal, w);
  }

  lemma AllReported(blockers: seq<Blocker>, u: Usage, signal: Signal, w: World)
    requires Reported(blockers, 14, u, signal, w)
    ensures forall b :: b in blockers <==> Blocks(b, u, signal, w)
    ensures forall i, j :: 0 <= i < j < |blockers| ==> Rank(blockers[i]) < Rank(blockers[j])
    ensures blockers == [] <==> forall b :: !Blocks(b, u, signal, w)
  {
    forall b ensures b in blockers <==> Blocks(b, u, signal, w) { assert Rank(b) < 14; }
    if blockers != [] { assert blockers[0] in blockers; }
  }

  /** The checks on the policy row and its target. */
  method CheckPolicy(u: Usage, signal: Signal, w: World) returns (blockers: seq<Blocker>)
    ensures Reported(blockers, 8, u, signal, w)
  {
    var row := w.row;
    blockers := [];
    assert Reported(blockers, 0, u, signal, w);
    hide Reported;
    blockers := Check(blockers, LiveDisabled, !w.liveEnabled, u, signal, w);
    blockers := Check(blockers, PolicyNotFound, row.None?, u, signal, w);
    blockers := Check(blockers, PolicyNotLive,
                      row.Some? && (!row.value.enabled || !row.value.live || !row.value.kolEnabled), u, signal, w);
    blockers := Check(blockers, RevisionChanged, row.Some? && row.value.revision != signal.revision, u, signal, w);
    blockers := Check(blockers, ContextChanged, row.Some? && row.value.hash != signal.hash, u, signal, w);
    blockers := Check(blockers, TargetChanged, row.Some? && !TargetHolds(signal, row.value), u, signal, w);
    blockers := Check(blockers, BudgetNotConfigured, row.Some? && signal.chain !in row.value.budgets, u, signal, w);
    blockers := Check(blockers, EventNotAllowed, row.Some? && signal.activity !in row.value.events, u, signal, w);
  }

  class Ledger {
    var events: seq<Event>
    var days: map<DayKey, Day>

    ghost function State(): Usage
      reads this
    {
      Usage(events, days)
    }

    constructor ()
      ensures State() == Usage([], map[]) && LedgerInv(State())
    {
      events, days := [], map[];
    }

    method Reserve(signal: Signal, w: World) returns (r: Result<bool, Blocker>)
      requires LedgerInv(State())
      modifies this
      ensures LedgerInv(State()) && State() == UsageModel.Reserve(old(State()), signal, w)
      ensures r.Success? <==> Authorized(old(State()), signal, w)
      ensures r.Success? ==> r.value == !HasEvent(old(events), signal.id)
      ensures r == Success(true) ==>
                && signal.chain in w.row.value.budgets
                && var key := DayKey(signal.policy, w.today, signal.chain);
                && DayOf(State(), key).spent == DayOf(old(State()), key).spent
                && DayOf(State(), key).reserved
                   == DayOf(old(State()), key).reserved + w.row.value.budgets[signal.chain].perTrade
    {
      ReserveKeeps(State(), signal, w);
      if Adds(State(), signal, w) { ReservationBooks(State(), signal, w); }
      hide LedgerInv, Blocks, AddReservation, TokenSeen, HasEvent, Rank;
      var blockers := Evaluate(Usage(events, days), signal, w);
      if blockers != [] { return Failure(blockers[0]); }
      hide TokenLimitHit, BudgetHit, TargetHolds, TooOld;
      var budget := w.row.value.budgets[signal.chain];
      hide Authorized;
      if HasEvent(events, signal.id) { return Success(false); }
      var key := DayKey(signal.policy, w.today, signal.chain);
      var counts := !TokenSeen(events, key, signal.contract);
      Book(Event(signal.id, signal.policy, w.today, signal.chain, signal.contract, budget.perTrade, counts, Reserved, 0));
      r := Success(true);
    }

    /** Inserts the event and its share of the day's totals. */
    method Book(e: Event)
      modifies this
      ensures State() == AddReservation(old(State()), e)
    {
      events := events + [e];
      var key := DayKey(e.policy, e.date, e.chain);
      var added := if e.counts then 1 else 0;
      if key in days {
        var day := days[key];
        days := days[key := day.(reserved := day.reserved + e.amount, newTokens := day.newTokens + added,
                                 signals := day.signals + 1)];
      } else {
        days := days[key := Day(0, e.amount, added, 1)];
      }
    }

    method Settle(id: nat, status: EventStatus, actual: Option<int>) returns (r: Result<bool, string>)
      requires LedgerInv(State())
      modifies this
      ensures LedgerInv(State()) && State() == UsageModel.Settle(old(State()), id, status, actual)
      ensures r == if status == Reserved then Failure("Invalid dynamic usage settlement")
                   else Success(Open(old(events), id).Some?)
      ensures forall i :: 0 <= i < |old(events)| && old(events)[i].signal == id && old(events)[i].status == Reserved ==>
                var e := old(events)[i];
                var key := DayKey(e.policy, e.date, e.chain);
                var before, after := DayOf(old(State()), key), DayOf(State(), key);
                && (status == Committed ==> after.spent == before.spent + if actual.Some? then actual.value else e.amount)
                && (status == Released ==> after.spent == before.spent)
                && (status != Reserved ==> after.reserved == before.reserved - e.amount)
    {
      ghost var u := State();
      forall i | 0 <= i < |u.events| && u.events[i].signal == id && u.events[i].status == Reserved
        ensures var e, v := u.events[i], UsageModel.Settle(u, id, status, actual);
                var key := DayKey(e.policy, e.date, e.chain);
                && (status == Committed ==>
                      DayOf(v, key).spent == DayOf(u, key).spent + if actual.Some? then actual.value else e.amount)
                && (status == Released ==> DayOf(v, key).spent == DayOf(u, key).spent)
                && (status != Reserved ==> DayOf(v, key).reserved == DayOf(u, key).reserved - e.amount)
      {
        if status == Committed { CommitSpends(u, id, actual, i); }
        if status == Released { ReleaseGivesBack(u, id, actual, i); }
      }
      if status == Reserved { return Failure("Invalid dynamic usage settlement"); }
      SettleKeeps(State(), id, status, actual);
      var found := Open(events, id);
      if found.None? { return Success(false); }
      var e := events[found.value];
      var amount := if status == Committed && actual.Some? then actual.value else e.amount;
      events := events[found.value := e.(status := status, charged := if status == Committed then amount else 0)];
      var key := DayKey(e.policy, e.date, e.chain);
      if key in days {
        var day := days[key];
        days := days[key := day.(
          reserved := Max(0, day.reserved - e.amount),
          spent := day.spent + (if status == Committed then amount else 0),
          newTokens := Max(0, day.newTokens - (if status == Released && e.counts then 1 else 0)))];
      }
      r := Success(true);
    }
  }
}
