/** The life of automatic trade orders: creation under per-strategy limits, approval, rejection, cancellation,
    submission and fills, as serial steps on the order table. */
module OrderMachine {
  import opened Options
  import Sizing

  const DAY_SECONDS := 86400

  datatype Status = PendingApproval | Pending | Submitted | Open | Closed | Cancelled | Rejected | Error

  /** A row of the order table; its id is its position, as rows are never deleted. */
  datatype Order = Order(symbol: string, strategy: nat, eventDate: int, createdAt: int, status: Status, isPaper: bool,
                         quantity: int)

  datatype Strategy = Strategy(active: bool, paper: bool, requiresApproval: bool, maxTradesPerDay: int,
                               maxConcurrent: int, terms: Sizing.Terms)

  datatype Desk = Desk(strategies: map<nat, Strategy>, orders: seq<Order>)

  /** Waiting, working or filled: counts as an open position. */
  predicate Active(s: Status) { s.Submitted? || s.Open? || s.PendingApproval? || s.Pending? }

  /** Does not count towards the daily number of trades. */
  predicate Void(s: Status) { s.Rejected? || s.Error? || s.Cancelled? }

  predicate Terminal(s: Status) { s.Closed? || Void(s) }

  function DayOf(time: int): int { time / DAY_SECONDS }

  // ---- counting ---------------------------------------------------------------------------------

  /** Which orders of a strategy a query counts. */
  datatype Scope = ActiveNow | CreatedSince(time: int) | CreatedOn(day: int) | DatedOn(day: int)

  predicate InScope(scope: Scope, o: Order) {
    match scope
    case ActiveNow => Active(o.status)
    case CreatedSince(time) => time <= o.createdAt && !Void(o.status)
    case CreatedOn(day) => DayOf(o.createdAt) == day && !Void(o.status)
    case DatedOn(day) => o.eventDate == day && !Void(o.status)
  }

  function Count(orders: seq<Order>, strategy: nat, scope: Scope): nat {
    if orders == [] then 0
    else
      var o := orders[|orders| - 1];
      Count(orders[..|orders| - 1], strategy, scope) + (if o.strategy == strategy && InScope(scope, o) then 1 else 0)
  }

  /** The orders a query counts, by position. */
  ghost function Selected(orders: seq<Order>, strategy: nat, scope: Scope): set<nat> {
    set i: nat | i < |orders| && orders[i].strategy == strategy && InScope(scope, orders[i])
  }

  lemma {:induction false} CountIsSize(orders: seq<Order>, strategy: nat, scope: Scope)
    ensures Count(orders, strategy, scope) == |Selected(orders, strategy, scope)|
  {
    if orders != [] {
      CountIsSize(orders[..|orders| - 1], strategy, scope);
      LastSelected(orders, strategy, scope);
      hide Selected, InScope;
    }
  }

  lemma {:induction false} LastSelected(orders: seq<Order>, strategy: nat, scope: Scope)
    requires orders != []
    ensures var last := |orders| - 1;
            && Selected(orders, strategy, scope)
               == Selected(orders[..last], strategy, scope)
                  + (if orders[last].strategy == strategy && InScope(scope, orders[last]) then {last} else {})
            && last !in Selected(orders[..last], strategy, scope)
  {
    hide InScope;
  }

  // ---- the steps ----------------------------------------------------------------------------------

  /** An alert that may become an order, with everything the outside world decides about it. */
  datatype Attempt = Attempt(
    strategy: nat, symbol: string, now: int, createdAt: int,
    liveEnabled: bool, gatePasses: bool, lockFree: bool, sessionAllowed: bool,
    trigger: Option<real>, side: Option<Sizing.Side>, equity: real, brokerAccepts: bool
  )

  /** What polling the broker finds about a submitted order. */
  datatype Fill = Filled | SlippedTooFar | Vanished

  datatype Action =
    | Create(attempt: Attempt)
    | Approve(id: nat)
    | Reject(id: nat)
    | Cancel(id: nat, brokerCancels: bool)
    | SubmitApproved(id: nat, brokerAccepts: bool)
    | PollEntry(id: nat, fill: Fill)
    | PollExit(id: nat)
    | DeleteStrategy(strategy: nat)

  /** Rule, strategy, kill switch and position cap. */
  predicate BasicsPass(strategies: map<nat, Strategy>, a: Attempt) {
    && a.strategy in strategies && strategies[a.strategy].active
    && (strategies[a.strategy].paper
        || (a.liveEnabled && strategies[a.strategy].terms.maxPositionUsd.Some?
            && strategies[a.strategy].terms.maxPositionUsd.value > 0.0))
  }

  predicate KeyTaken(orders: seq<Order>, symbol: string, strategy: nat, date: int) {
    exists i :: 0 <= i < |orders| && orders[i].symbol == symbol && orders[i].strategy == strategy
        && orders[i].eventDate == date
  }

  predicate WithinCapacity(orders: seq<Order>, id: nat, s: Strategy, today: int) {
    && Count(orders, id, CreatedSince(today * DAY_SECONDS)) < s.maxTradesPerDay
    && Count(orders, id, ActiveNow) < s.maxConcurrent
  }

  /** Number of shares, or none when price, side, equity or size rule the trade out. */
  function SizedQuantity(s: Strategy, a: Attempt): Option<int> {
    if a.trigger.None? || a.trigger.value <= 0.0 || a.side.None? || a.equity <= 0.0 then None
    else
      var q := Sizing.Calculate(s.terms, a.trigger.value, a.side.value, a.equity).quantity;
      if q <= 0 then None else Some(q)
  }

  predicate Creates(d: Desk, a: Attempt) {
    && BasicsPass(d.strategies, a)
    && !KeyTaken(d.orders, a.symbol, a.strategy, DayOf(a.now))
    && a.gatePasses && a.lockFree
    && WithinCapacity(d.orders, a.strategy, d.strategies[a.strategy], DayOf(a.now))
    && a.sessionAllowed && SizedQuantity(d.strategies[a.strategy], a).Some?
  }

  /** The status an order has when its creating call returns. */
  function StatusAfterCreation(s: Strategy, brokerAccepts: bool): Status {
    if s.requiresApproval then PendingApproval else if s.paper || brokerAccepts then Submitted else Error
  }

  function NewOrder(s: Strategy, a: Attempt): Order
    requires SizedQuantity(s, a).Some?
  {
    Order(a.symbol, a.strategy, DayOf(a.now), a.createdAt, StatusAfterCreation(s, a.brokerAccepts), s.paper,
        SizedQuantity(s, a).value)
  }

  /** The status an order moves to, or its own status when the guard of the step refuses. */
  function NextStatus(d: Desk, action: Action): Status
    requires !action.Create? && !action.DeleteStrategy? && action.id < |d.orders|
  {
    var o := d.orders[action.id];
    match action
    case Approve(_) =>
      if o.status.PendingApproval? && o.strategy in d.strategies then
        if d.strategies[o.strategy].paper then Submitted else Pending
      else o.status
    case Reject(_) => if o.status.PendingApproval? then Rejected else o.status
    case Cancel(_, brokerCancels) =>
      if !Active(o.status) then o.status
      else if !o.isPaper && (o.status.Submitted? || o.status.Open?) && !brokerCancels then o.status
      else Cancelled
    case SubmitApproved(_, brokerAccepts) =>
      if o.status.Pending? then (if brokerAccepts then Submitted else Error) else o.status
    case PollEntry(_, fill) => if o.status.Submitted? then (if fill.Filled? then Open else Rejected) else o.status
    case PollExit(_) => if o.status.Open? then Closed else o.status
  }

  function Step(d: Desk, action: Action): Desk {
    match action
    case Create(a) =>
      if Creates(d, a) then d.(orders := d.orders + [NewOrder(d.strategies[a.strategy], a)]) else d
    case DeleteStrategy(s) =>
      if s in d.strategies && Count(d.orders, s, ActiveNow) == 0 then
        d.(strategies := d.strategies[s := d.strategies[s].(active := false)])
      else d
    case _ =>
      if action.id < |d.orders| then
        d.(orders := d.orders[action.id := d.orders[action.id].(status := NextStatus(d, action))])
      else d
  }

  function Run(d: Desk, actions: seq<Action>): Desk {
    if actions == [] then d else Step(Run(d, actions[..|actions| - 1]), actions[|actions| - 1])
  }

  // ---- what every reachable table keeps --------------------------------------------------------------

  function AtLeastZero(n: int): nat { if n < 0 then 0 else n }

  ghost predicate LimitsHold(orders: seq<Order>, id: nat, s: Strategy) {
    && Count(orders, id, ActiveNow) <= AtLeastZero(s.maxConcurrent)
    && (forall day: int :: Count(orders, id, CreatedOn(day)) <= AtLeastZero(s.maxTradesPerDay))
    && (forall day: int :: Count(orders, id, DatedOn(day)) <= AtLeastZero(s.maxTradesPerDay))
    && (!s.active ==> Count(orders, id, ActiveNow) == 0)
  }

  ghost predicate KeysUnique(orders: seq<Order>) {
    forall i, j :: 0 <= i < j < |orders| ==>
      !(orders[i].symbol == orders[j].symbol && orders[i].strategy == orders[j].strategy
          && orders[i].eventDate == orders[j].eventDate)
  }

  ghost predicate RowsSound(orders: seq<Order>) {
    forall i :: 0 <= i < |orders| ==> orders[i].quantity > 0 && orders[i].eventDate * DAY_SECONDS <= orders[i].createdAt
  }

  ghost predicate Invariant(d: Desk) {
    && (forall id: nat :: id in d.strategies ==> LimitsHold(d.orders, id, d.strategies[id]))
    && KeysUnique(d.orders) && RowsSound(d.orders)
  }

  ghost predicate ClockRuns(actions: seq<Action>) {
    forall i :: 0 <= i < |actions| && actions[i].Create? ==> actions[i].attempt.now <= actions[i].attempt.createdAt
  }

  /** Counting fewer orders in one scope than in another. */
  lemma {:induction false} CountWithin(orders: seq<Order>, strategy: nat, a: Scope, b: Scope)
    requires forall i :: 0 <= i < |orders| && InScope(a, orders[i]) ==> InScope(b, orders[i])
    ensures Count(orders, strategy, a) <= Count(orders, strategy, b)
  {
    if orders != [] { CountWithin(orders[..|orders| - 1], strategy, a, b); }
  }

  lemma {:induction false} CountAppend(orders: seq<Order>, o: Order, strategy: nat, scope: Scope)
    ensures Count(orders + [o], strategy, scope)
            == Count(orders, strategy, scope) + if o.strategy == strategy && InScope(scope, o) then 1 else 0
  {
    assert (orders + [o])[..|orders|] == orders;
  }

  /** No status change adds an order to a count. */
  lemma {:induction false} CountAfterStatus(orders: seq<Order>, i: nat, status: Status, strategy: nat, scope: Scope)
    requires i < |orders|
    requires Active(status) ==> Active(orders[i].status)
    requires Void(orders[i].status) ==> Void(status)
    ensures Count(orders[i := orders[i].(status := status)], strategy, scope) <= Count(orders, strategy, scope)
  {
    var last := |orders| - 1;
    var changed := orders[i := orders[i].(status := status)];
    if i < last {
      CountAfterStatus(orders[..last], i, status, strategy, scope);
      assert changed[..last] == orders[..last][i := orders[i].(status := status)];
    } else {
      assert changed[..last] == orders[..last];
    }
  }

  lemma {:induction false} StatusNeverRevives(d: Desk, action: Action)
    requires !action.Create? && !action.DeleteStrategy? && action.id < |d.orders|
    ensures var before, after := d.orders[action.id].status, NextStatus(d, action);
            && (Active(after) ==> Active(before)) && (Void(before) ==> Void(after))
            && (Terminal(before) ==> after == before)
  {
  }

  lemma {:induction false} StatusStepKeepsInvariant(d: Desk, action: Action)
    requires Invariant(d) && !action.Create? && !action.DeleteStrategy? && action.id < |d.orders|
    ensures Invariant(Step(d, action))
  {
    StatusNeverRevives(d, action);
    var status, after := NextStatus(d, action), Step(d, action);
    forall id: nat | id in d.strategies ensures LimitsHold(after.orders, id, d.strategies[id]) {
      assert LimitsHold(d.orders, id, d.strategies[id]);
      forall scope: Scope ensures Count(after.orders, id, scope) <= Count(d.orders, id, scope) {
        CountAfterStatus(d.orders, action.id, status, id, scope);
      }
    }
  }

  /** The check against the limits is strict enough for the order about to be added, whatever day it is by the
      time the row is written. */
  lemma {:induction false} CreateKeepsLimits(orders: seq<Order>, o: Order, s: Strategy, id: nat)
    requires LimitsHold(orders, id, s) && RowsSound(orders)
    requires o.strategy == id ==>
               s.active && WithinCapacity(orders, id, s, o.eventDate) && o.eventDate * DAY_SECONDS <= o.createdAt
    ensures LimitsHold(orders + [o], id, s)
  {
    forall scope: Scope
      ensures Count(orders + [o], id, scope)
              == Count(orders, id, scope) + if o.strategy == id && InScope(scope, o) then 1 else 0
    {
      CountAppend(orders, o, id, scope);
    }
    if o.strategy == id {
      CountWithin(orders, id, CreatedOn(DayOf(o.createdAt)), CreatedSince(o.eventDate * DAY_SECONDS));
      CountWithin(orders, id, DatedOn(o.eventDate), CreatedSince(o.eventDate * DAY_SECONDS));
    }
  }

  lemma {:induction false} CreateKeepsInvariant(d: Desk, a: Attempt)
    requires Invariant(d) && a.now <= a.createdAt
    ensures Invariant(Step(d, Create(a)))
  {
    if Creates(d, a) {
      var o, after := NewOrder(d.strategies[a.strategy], a), Step(d, Create(a));
      NewRowIsSound(d.orders, o);
      hide Count, KeyTaken, LimitsHold, WithinCapacity, KeysUnique, RowsSound, SizedQuantity;
      forall id: nat | id in d.strategies ensures LimitsHold(after.orders, id, d.strategies[id]) {
        assert LimitsHold(d.orders, id, d.strategies[id]);
        CreateKeepsLimits(d.orders, o, d.strategies[id], id);
      }
    }
  }

  lemma {:induction false} NewRowIsSound(orders: seq<Order>, o: Order)
    requires KeysUnique(orders) && RowsSound(orders)
    requires !KeyTaken(orders, o.symbol, o.strategy, o.eventDate) && o.quantity > 0
        && o.eventDate * DAY_SECONDS <= o.createdAt
    ensures KeysUnique(orders + [o]) && RowsSound(orders + [o])
  {
  }

  lemma {:induction false} StepKeepsInvariant(d: Desk, action: Action)
    requires Invariant(d) && (action.Create? ==> action.attempt.now <= action.attempt.createdAt)
    ensures Invariant(Step(d, action))
  {
    match action {
      case Create(a) => CreateKeepsInvariant(d, a);
      case DeleteStrategy(s) =>
        var after := Step(d, action);
        forall id: nat | id in after.strategies ensures LimitsHold(after.orders, id, after.strategies[id]) {
          assert LimitsHold(d.orders, id, d.strategies[id]);
        }
      case _ => if action.id < |d.orders| { StatusStepKeepsInvariant(d, action); }
    }
  }

  /** Over any serial run of steps, from any sound table and in particular from an empty one: no strategy ever
      has more active orders than it may hold at once, nor on any day, by creation or by event date, more
      non-void orders than it may place a day; no two orders share symbol, strategy and date; and a deleted
      strategy has no active order. */
  lemma {:induction false} RunKeepsInvariant(d: Desk, actions: seq<Action>)
    requires Invariant(d) && ClockRuns(actions)
    ensures Invariant(Run(d, actions))
  {
    if actions != [] {
      RunKeepsInvariant(d, actions[..|actions| - 1]);
      StepKeepsInvariant(Run(d, actions[..|actions| - 1]), actions[|actions| - 1]);
    }
  }

  lemma {:induction false} EmptyTableIsSound(strategies: map<nat, Strategy>)
    ensures Invariant(Desk(strategies, []))
  {
    forall id: nat | id in strategies ensures LimitsHold([], id, strategies[id]) {}
  }

  /** The table is an audit trail: a run only adds rows and changes statuses, and a finished order stays as it is. */
  lemma {:induction false} RunIsAuditTrail(d: Desk, actions: seq<Action>, i: nat)
    requires i < |d.orders|
    ensures var after := Run(d, actions);
            && |d.orders| <= |after.orders|
            && after.orders[i] == d.orders[i].(status := after.orders[i].status)
            && (Terminal(d.orders[i].status) ==> after.orders[i] == d.orders[i])
  {
    if actions != [] {
      var init, last := actions[..|actions| - 1], actions[|actions| - 1];
      RunIsAuditTrail(d, init, i);
      if !last.Create? && !last.DeleteStrategy? && last.id < |Run(d, init).orders| {
        StatusNeverRevives(Run(d, init), last);
      }
    }
  }

  // ---- when an order is placed, and which -------------------------------------------------------------------

  /** The strategy's orders that were created since `since` and have not come to nothing. */
  ghost function TradesSince(orders: seq<Order>, strategy: nat, since: int): set<nat> {
    set i: nat | i < |orders| && orders[i].strategy == strategy && since <= orders[i].createdAt
                 && !orders[i].status.Rejected? && !orders[i].status.Error? && !orders[i].status.Cancelled?
  }

  /** Its orders that wait, work or are filled. */
  ghost function OpenPositions(orders: seq<Order>, strategy: nat): set<nat> {
    set i: nat | i < |orders| && orders[i].strategy == strategy
                 && !orders[i].status.Rejected? && !orders[i].status.Error? && !orders[i].status.Cancelled?
                 && !orders[i].status.Closed?
  }

  /** All that has to be given for an order, short of its size: an active strategy, and a live one only with the kill
      switch on and a cap; no order of that key on that day; the gate, the lock and the session; fewer trades and open
      positions than the limits; and a price, a side and an equity to size it on. */
  ghost predicate MayTrade(d: Desk, a: Attempt) {
    && a.strategy in d.strategies
    && var s := d.strategies[a.strategy];
    && s.active
    && (!s.paper ==> a.liveEnabled && s.terms.maxPositionUsd.Some? && s.terms.maxPositionUsd.value > 0.0)
    && (forall i :: 0 <= i < |d.orders| && d.orders[i].symbol == a.symbol && d.orders[i].strategy == a.strategy ==>
          d.orders[i].eventDate != a.now / 86400)
    && a.gatePasses && a.lockFree && a.sessionAllowed
    && |TradesSince(d.orders, a.strategy, a.now / 86400 * 86400)| < s.maxTradesPerDay
    && |OpenPositions(d.orders, a.strategy)| < s.maxConcurrent
    && a.trigger.Some? && a.trigger.value > 0.0 && a.side.Some? && a.equity > 0.0
  }

  /** The largest number of shares that fits the equity budget and the cap. */
  ghost predicate LargestThatFits(t: Sizing.Terms, trigger: real, side: Sizing.Side, equity: real, quantity: int) {
    && Sizing.Fits(t, trigger, side, equity, quantity)
    && forall shares: int :: Sizing.Fits(t, trigger, side, equity, shares) ==> shares <= quantity
  }

  /** The row an attempt leaves in the table: its own key and times, the status the strategy calls for, and for usable
      terms the largest number of shares that fits the equity budget and the cap. */
  ghost predicate IsRowOf(o: Order, s: Strategy, a: Attempt) {
    && o.symbol == a.symbol && o.strategy == a.strategy && o.createdAt == a.createdAt && o.isPaper == s.paper
    && o.eventDate * 86400 <= a.now < (o.eventDate + 1) * 86400
    && o.quantity > 0 && a.trigger.Some? && a.side.Some?
    && (Sizing.Usable(s.terms, a.trigger.value, a.side.value, a.equity) ==>
          LargestThatFits(s.terms, a.trigger.value, a.side.value, a.equity, o.quantity))
    && (s.requiresApproval ==> o.status.PendingApproval?)
    && (!s.requiresApproval ==> if s.paper || a.brokerAccepts then o.status.Submitted? else o.status.Error?)
  }

  lemma {:induction false} CreatesMeansMayTrade(d: Desk, a: Attempt)
    ensures Creates(d, a) <==> MayTrade(d, a) && SizedQuantity(d.strategies[a.strategy], a).Some?
  {
    var since := DayOf(a.now) * DAY_SECONDS;
    CountIsSize(d.orders, a.strategy, CreatedSince(since));
    CountIsSize(d.orders, a.strategy, ActiveNow);
    assert Selected(d.orders, a.strategy, CreatedSince(since)) == TradesSince(d.orders, a.strategy, since);
    assert Selected(d.orders, a.strategy, ActiveNow) == OpenPositions(d.orders, a.strategy);
    hide Selected, TradesSince, OpenPositions, Count, Sizing.Calculate;
  }

  /** With a positive stop percentage an attempt gets a size exactly if its terms are usable and one share fits. */
  lemma {:induction false} SizedIff(s: Strategy, a: Attempt)
    requires a.trigger.Some? && a.trigger.value > 0.0 && a.side.Some? && a.equity > 0.0
    ensures var usable := Sizing.Usable(s.terms, a.trigger.value, a.side.value, a.equity);
            var sized := SizedQuantity(s, a);
            && (Sizing.StopPct(s.terms) > 0.0 ==>
                  (sized.Some? <==> usable && Sizing.Fits(s.terms, a.trigger.value, a.side.value, a.equity, 1)))
            && (sized.Some? ==> sized.value > 0)
            && (sized.Some? && usable ==>
                  LargestThatFits(s.terms, a.trigger.value, a.side.value, a.equity, sized.value))
  {
    hide Sizing.Calculate, Sizing.Fits;
    if Sizing.Usable(s.terms, a.trigger.value, a.side.value, a.equity) {
      Sizing.QuantityIsLargest(s.terms, a.trigger.value, a.side.value, a.equity);
    }
    if Sizing.StopPct(s.terms) > 0.0 {
      Sizing.ShareAffordableIff(s.terms, a.trigger.value, a.side.value, a.equity);
    }
  }

  lemma {:induction false} NewOrderIsRow(s: Strategy, a: Attempt)
    requires SizedQuantity(s, a).Some?
    ensures IsRowOf(NewOrder(s, a), s, a)
  {
    SizedIff(s, a);
    assert a.trigger.Some? && a.side.Some?;
    hide SizedQuantity, LargestThatFits, Sizing.Usable;
  }

  /** What a creation does to the table, in the terms of an observer. */
  lemma {:induction false} MaybeExecuteMeans(d: Desk, a: Attempt)
    ensures Creates(d, a) ==>
              MayTrade(d, a) && IsRowOf(NewOrder(d.strategies[a.strategy], a), d.strategies[a.strategy], a)
    ensures MayTrade(d, a) && Sizing.StopPct(d.strategies[a.strategy].terms) > 0.0 ==>
              var t := d.strategies[a.strategy].terms;
              (Creates(d, a) <==> && Sizing.Usable(t, a.trigger.value, a.side.value, a.equity)
                                  && Sizing.Fits(t, a.trigger.value, a.side.value, a.equity, 1))
  {
    CreatesMeansMayTrade(d, a);
    hide Creates, SizedQuantity, NewOrder, IsRowOf, Sizing.Usable, Sizing.Fits;
    if MayTrade(d, a) {
      SizedIff(d.strategies[a.strategy], a);
      if Creates(d, a) { NewOrderIsRow(d.strategies[a.strategy], a); }
    }
  }

  // ---- what no run can do ---------------------------------------------------------------------------------

  /** An order that waits for approval never reaches the broker without it: as long as nobody approves it, it waits, or
      is rejected or cancelled, whatever else happens. */
  lemma {:induction false} UnapprovedIsNeverSubmitted(d: Desk, actions: seq<Action>, i: nat)
    requires i < |d.orders| && d.orders[i].status.PendingApproval?
    requires Approve(i) !in actions
    ensures var after := Run(d, actions);
            i < |after.orders| && after.orders[i].status in {PendingApproval, Rejected, Cancelled}
  {
    if actions != [] {
      var init, last := actions[..|actions| - 1], actions[|actions| - 1];
      UnapprovedIsNeverSubmitted(d, init, i);
      assert last in actions;
      hide Step;
      StaysUnsubmitted(Run(d, init), last, i);
    }
  }

  lemma {:induction false} StaysUnsubmitted(d: Desk, action: Action, i: nat)
    requires i < |d.orders| && d.orders[i].status in {PendingApproval, Rejected, Cancelled} && action != Approve(i)
    ensures var after := Step(d, action);
            i < |after.orders| && after.orders[i].status in {PendingApproval, Rejected, Cancelled}
  {
    hide Creates, NewOrder, Count;
  }

  /** Positions open only by a fill of a submitted order and close only by an exit; one that slipped too far or is gone
      at the broker is no longer active. */
  lemma {:induction false} PositionsOpenByFill(d: Desk, action: Action)
    requires !action.Create? && !action.DeleteStrategy? && action.id < |d.orders|
    ensures var before, after := d.orders[action.id].status, NextStatus(d, action);
            && (after.Open? && !before.Open? <==> before.Submitted? && action == PollEntry(action.id, Filled))
            && (after.Closed? && !before.Closed? <==> before.Open? && action.PollExit?)
            && (action.PollEntry? && before.Submitted? && !action.fill.Filled? ==> after.Rejected?)
  {
  }

  lemma {:induction false} NoneActiveIff(orders: seq<Order>, id: nat)
    ensures Count(orders, id, ActiveNow) == 0
            <==> forall i :: 0 <= i < |orders| && orders[i].strategy == id ==>
                   orders[i].status in {Closed, Cancelled, Rejected, Error}
  {
    if orders != [] { NoneActiveIff(orders[..|orders| - 1], id); }
  }

  /** Every status either counts as an open position or is final. */
  lemma {:induction false} ActiveOrFinal(s: Status)
    ensures Active(s) <==> s !in {Closed, Cancelled, Rejected, Error}
    ensures Void(s) <==> s in {Cancelled, Rejected, Error}
    ensures Terminal(s) <==> !Active(s)
  {
  }

  // ---- the table that the endpoints and tasks update in place ---------------------------------------------

  class TradingDesk {
    var strategies: map<nat, Strategy>
    var orders: seq<Order>

    constructor (strategies: map<nat, Strategy>)
      ensures State() == Desk(strategies, []) && Invariant(State())
    {
      this.strategies, this.orders := strategies, [];
      EmptyTableIsSound(strategies);
    }

    function State(): Desk
      reads this
    {
      Desk(strategies, orders)
    }

    /** `maybe_execute`: None when the attempt is skipped, otherwise the id of the new order. */
    method MaybeExecute(a: Attempt) returns (id: Option<nat>)
      requires Invariant(State()) && a.now <= a.createdAt
      modifies this`orders
      ensures State() == Step(old(State()), Create(a)) && Invariant(State())
      ensures id.None? ==> orders == old(orders)
      ensures id.Some? ==>
                && MayTrade(old(State()), a) && id.value == |old(orders)| == |orders| - 1
                && orders[..id.value] == old(orders) && IsRowOf(orders[id.value], strategies[a.strategy], a)
      ensures MayTrade(old(State()), a) && Sizing.StopPct(strategies[a.strategy].terms) > 0.0 ==>
                var t := strategies[a.strategy].terms;
                (id.Some? <==> && Sizing.Usable(t, a.trigger.value, a.side.value, a.equity)
                               && Sizing.Fits(t, a.trigger.value, a.side.value, a.equity, 1))
    {
      hide Sizing.Fits, Sizing.Usable, LargestThatFits, IsRowOf, MayTrade;
      hide Invariant, KeyTaken, WithinCapacity, Count, SizedQuantity;
      MaybeExecuteMeans(State(), a);
      CreateKeepsInvariant(State(), a);
      if !BasicsPass(strategies, a) {
        return None;
      }
      var strategy := strategies[a.strategy];
      var today := DayOf(a.now);
      if KeyTaken(orders, a.symbol, a.strategy, today) || !a.gatePasses || !a.lockFree {
        return None;
      }
      if !WithinCapacity(orders, a.strategy, strategy, today) || !a.sessionAllowed {
        return None;
      }
      var quantity := SizedQuantity(strategy, a);
      if quantity.None? {
        return None;
      }
      var row := |orders|;
      var initial := if strategy.requiresApproval then PendingApproval else Pending;
      orders := orders + [Order(a.symbol, a.strategy, today, a.createdAt, initial, strategy.paper, quantity.value)];
      id := Some(row);
      if !strategy.requiresApproval {
        if strategy.paper {
          SetStatus(row, Submitted);
        } else {
          SubmitToBroker(row, a.brokerAccepts);
        }
      }
    }

    method SetStatus(id: nat, status: Status)
      requires id < |orders|
      modifies this`orders
      ensures orders == old(orders)[id := old(orders)[id].(status := status)]
    {
      orders := orders[id := orders[id].(status := status)];
    }

    /** Marked as failed first and put right on success. */
    method SubmitToBroker(id: nat, brokerAccepts: bool)
      requires id < |orders|
      modifies this`orders
      ensures orders == old(orders)[id := old(orders)[id].(status := if brokerAccepts then Submitted else Error)]
    {
      SetStatus(id, Error);
      if brokerAccepts {
        SetStatus(id, Submitted);
      }
    }

    /** Each of the following answers whether its status guard let it through. */
    method ApproveOrder(id: nat) returns (ok: bool)
      requires Invariant(State())
      modifies this`orders
      ensures State() == Step(old(State()), Approve(id)) && Invariant(State())
      ensures ok <==> id < old(|orders|) && old(orders)[id].status.PendingApproval?
                      && old(orders)[id].strategy in strategies
      ensures orders == if !ok then old(orders) else
                var o := old(orders)[id];
                old(orders)[id := o.(status := if strategies[o.strategy].paper then Submitted else Pending)]
    {
      StepKeepsInvariant(State(), Approve(id));
      if id >= |orders| || !orders[id].status.PendingApproval? || orders[id].strategy !in strategies {
        return false;
      }
      SetStatus(id, if strategies[orders[id].strategy].paper then Submitted else Pending);
      return true;
    }

    method RejectOrder(id: nat) returns (ok: bool)
      requires Invariant(State())
      modifies this`orders
      ensures State() == Step(old(State()), Reject(id)) && Invariant(State())
      ensures ok <==> id < old(|orders|) && old(orders)[id].status.PendingApproval?
      ensures orders == if ok then old(orders)[id := old(orders)[id].(status := Rejected)] else old(orders)
    {
      StepKeepsInvariant(State(), Reject(id));
      if id >= |orders| || !orders[id].status.PendingApproval? {
        return false;
      }
      SetStatus(id, Rejected);
      return true;
    }

    method CancelOrder(id: nat, brokerCancels: bool) returns (ok: bool)
      requires Invariant(State())
      modifies this`orders
      ensures State() == Step(old(State()), Cancel(id, brokerCancels)) && Invariant(State())
      ensures ok <==> && id < old(|orders|)
                      && var o := old(orders)[id];
                         && o.status in {PendingApproval, Pending, Submitted, Open}
                         && (o.isPaper || o.status.PendingApproval? || o.status.Pending? || brokerCancels)
      ensures orders == if ok then old(orders)[id := old(orders)[id].(status := Cancelled)] else old(orders)
    {
      StepKeepsInvariant(State(), Cancel(id, brokerCancels));
      if id >= |orders| || !Active(orders[id].status) {
        return false;
      }
      var atBroker := !orders[id].isPaper && (orders[id].status.Submitted? || orders[id].status.Open?);
      if atBroker && !brokerCancels {
        return false;
      }
      SetStatus(id, Cancelled);
      return true;
    }

    method SubmitApprovedOrder(id: nat, brokerAccepts: bool) returns (ok: bool)
      requires Invariant(State())
      modifies this`orders
      ensures State() == Step(old(State()), SubmitApproved(id, brokerAccepts)) && Invariant(State())
      ensures ok <==> id < old(|orders|) && old(orders)[id].status.Pending?
      ensures orders == if !ok then old(orders)
                        else old(orders)[id := old(orders)[id].(status := if brokerAccepts then Submitted else Error)]
    {
      StepKeepsInvariant(State(), SubmitApproved(id, brokerAccepts));
      if id >= |orders| || !orders[id].status.Pending? {
        return false;
      }
      SubmitToBroker(id, brokerAccepts);
      return true;
    }

    /** Soft delete, refused while the strategy has active orders. */
    method DeleteStrategy(id: nat) returns (ok: bool)
      requires Invariant(State())
      modifies this`strategies
      ensures State() == Step(old(State()), Action.DeleteStrategy(id)) && Invariant(State())
      ensures ok <==> && id in old(strategies)
                      && forall i :: 0 <= i < |orders| && orders[i].strategy == id ==>
                           orders[i].status in {Closed, Cancelled, Rejected, Error}
      ensures strategies == if ok then old(strategies)[id := old(strategies)[id].(active := false)] else old(strategies)
    {
      NoneActiveIff(orders, id);
      StepKeepsInvariant(State(), Action.DeleteStrategy(id));
      if id !in strategies || Count(orders, id, ActiveNow) > 0 {
        return false;
      }
      strategies := strategies[id := strategies[id].(active := false)];
      return true;
    }
  }
}
