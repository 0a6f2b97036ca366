/** The sync and process coroutines of the live scanner and its reconnect task, as atomic steps between awaits:
    any await may let any of the others go first. */
module ScannerLoops {
  import opened Options

  datatype Item = Item(securityType: string, exchange: string)

  /** Where the sync coroutine waits. `todo` is what its current loop has still to visit. */
  datatype SyncAt =
    | Fetching                                             // for the watchlist
    | Sleeping(outcome: Option<map<string, Item>>)         // with the watchlist of the pass just ended, if it was read
    | Dropping(symbol: string, todo: seq<string>, current: map<string, Item>, add: seq<string>)   // to unsubscribe
    | Seeding(symbol: string, todo: seq<string>, current: map<string, Item>)                      // for seed data
    | Adding(symbol: string, todo: seq<string>, current: map<string, Item>)                       // to subscribe

  /** Where the process coroutine waits. */
  datatype ProcessAt =
    | Idle                                           // for the queue, or in a publish call
    | ReportingLoss                                  // to publish the loss of the feed
    | ReSeeding(symbol: string, todo: seq<string>)   // for seed data, while it resubscribes
    | ReAdding(symbol: string, todo: seq<string>)    // to subscribe, while it resubscribes

  /** Aggregators are told apart by number: `made` have been made so far. `reconnects` holds, per reconnect task in
      the order of creation, whether it is done; `recoveries` counts the recovery tags on the queue. */
  datatype State = State(
    subscribed: set<string>, items: map<string, Item>, aggregators: map<string, nat>, made: nat,
    sync: SyncAt, process: ProcessAt, reconnects: seq<bool>, recoveries: nat, stopped: bool)

  datatype Event =
    | WatchlistRead(current: map<string, Item>, drop: seq<string>, add: seq<string>)
    | WatchlistFails
    | WakesUp
    | SyncResumes      // the provider call it waits for returns
    | SyncRaises       // that call raises, which ends the scanner
    | Disconnected     // the process coroutine takes a disconnect tag from the queue
    | Recovered(order: seq<string>)   // it takes a recovery tag, which only a reconnect task puts there
    | ProcessResumes
    | ProcessRaises
    | ReconnectEnds(task: nat, succeeds: bool)

  const START := State({}, map[], map[], 0, Fetching, Idle, [], 0, false)

  /** `order` is some order of `keys`, as `list(...)` of a set or a dictionary gives it. */
  ghost predicate Lists(order: seq<string>, keys: set<string>) {
    (forall k <- keys :: k in order) && forall i :: 0 <= i < |order| ==> order[i] in keys
  }

  // ---- the steps -----------------------------------------------------------------------------------------

  /** The unsubscribing loop up to its next await. */
  ghost function DropNext(s: State, todo: seq<string>, current: map<string, Item>, add: seq<string>): State
    decreases |todo|
  {
    if todo == [] then AddNext(s, add, current)
    else if todo[0] in current then DropNext(s, todo[1..], current, add)
    else s.(sync := Dropping(todo[0], todo[1..], current, add))
  }

  /** The subscribing loop up to its next await, or the end of the pass. */
  ghost function AddNext(s: State, todo: seq<string>, current: map<string, Item>): State
    decreases |todo|
  {
    if todo == [] then s.(sync := Sleeping(Some(current)))
    else if todo[0] in s.subscribed then AddNext(s, todo[1..], current)
    else if todo[0] in s.aggregators then s.(sync := Adding(todo[0], todo[1..], current))
    else s.(sync := Seeding(todo[0], todo[1..], current))
  }

  ghost function ResubscribeNext(s: State, todo: seq<string>): State {
    if todo == [] then s.(process := Idle)
    else if todo[0] in s.aggregators then s.(process := ReAdding(todo[0], todo[1..]))
    else s.(process := ReSeeding(todo[0], todo[1..]))
  }

  ghost function MakeAggregator(s: State, symbol: string): State {
    s.(aggregators := s.aggregators[symbol := s.made], made := s.made + 1)
  }

  ghost function SyncStep(s: State): State {
    match s.sync
    case Fetching | Sleeping(_) => s
    case Dropping(x, todo, current, add) =>
      DropNext(s.(aggregators := s.aggregators - {x}, subscribed := s.subscribed - {x}, items := s.items - {x}),
               todo, current, add)
    case Seeding(x, todo, current) => MakeAggregator(s, x).(sync := Adding(x, todo, current))
    case Adding(x, todo, current) =>
      if x in current then
        AddNext(s.(subscribed := s.subscribed + {x}, items := s.items[x := current[x]]), todo, current)
      else s
  }

  ghost function ProcessStep(s: State): State {
    match s.process
    case Idle => s
    case ReportingLoss => StartReconnect(s).(process := Idle)
    case ReSeeding(x, todo) => MakeAggregator(s, x).(process := ReAdding(x, todo))
    case ReAdding(x, todo) => ResubscribeNext(s, todo)
  }

  /** A new task only if there is none, or the last one is done. */
  ghost function StartReconnect(s: State): State {
    if s.reconnects == [] || s.reconnects[|s.reconnects| - 1] then s.(reconnects := s.reconnects + [false]) else s
  }

  /** A task that ends is done; if it succeeded it leaves one recovery tag. */
  ghost function EndReconnect(s: State, task: nat, succeeds: bool): State {
    if task < |s.reconnects| && !s.reconnects[task] then
      s.(reconnects := s.reconnects[task := true], recoveries := s.recoveries + if succeeds then 1 else 0)
    else s
  }

  /** What the process coroutine does when its call raises: it reports the error and goes on. */
  ghost function ProcessRecovers(s: State): State {
    match s.process
    case Idle => s
    case ReportingLoss => StartReconnect(s).(process := Idle)
    case ReSeeding(_, todo) => ResubscribeNext(s, todo)
    case ReAdding(_, todo) => ResubscribeNext(s, todo)
  }

  ghost function Step(s: State, e: Event): State {
    if s.stopped then s else
    match e
    case WatchlistRead(current, drop, add) =>
      if s.sync.Fetching? && Lists(drop, s.subscribed) && Lists(add, current.Keys) then
        DropNext(s, drop, current, add)
      else s
    case WatchlistFails => if s.sync.Fetching? then s.(sync := Sleeping(None)) else s
    case WakesUp => if s.sync.Sleeping? then s.(sync := Fetching) else s
    case SyncResumes => SyncStep(s)
    case SyncRaises => if s.sync.Fetching? || s.sync.Sleeping? then s else s.(stopped := true)
    case Disconnected => if s.process.Idle? then s.(process := ReportingLoss) else s
    case Recovered(order) =>
      if s.process.Idle? && s.recoveries > 0 && Lists(order, s.items.Keys) then
        ResubscribeNext(s.(recoveries := s.recoveries - 1), order)
      else s
    case ProcessResumes => ProcessStep(s)
    case ProcessRaises => ProcessRecovers(s)
    case ReconnectEnds(task, succeeds) => EndReconnect(s, task, succeeds)
  }

  ghost function Run(s: State, events: seq<Event>): State
    decreases |events|
  {
    if events == [] then s else Run(Step(s, events[0]), events[1..])
  }

  // ---- what every interleaving keeps -----------------------------------------------------------------------

  ghost predicate Within(keys: set<string>, base: set<string>, symbol: string, todo: seq<string>) {
    forall k <- keys :: k in base || k == symbol || k in todo
  }

  ghost predicate AllIn(todo: seq<string>, keys: set<string>) {
    forall i :: 0 <= i < |todo| ==> todo[i] in keys
  }

  /** How far the pass has got: first nothing that has left the watchlist stays, then everything on it comes in. */
  ghost predicate Progress(s: State) {
    match s.sync
    case Fetching => true
    case Sleeping(outcome) => outcome.Some? ==> s.subscribed == outcome.value.Keys
    case Dropping(x, todo, current, add) =>
      x !in current && Within(s.subscribed, current.Keys, x, todo) && Lists(add, current.Keys)
    case Seeding(x, todo, current) => Joining(s, x, todo, current)
    case Adding(x, todo, current) => Joining(s, x, todo, current) && x in s.aggregators
  }

  ghost predicate Joining(s: State, x: string, todo: seq<string>, current: map<string, Item>) {
    && x in current && x !in s.subscribed && AllIn(todo, current.Keys)
    && s.subscribed <= current.Keys && Within(current.Keys, s.subscribed, x, todo)
  }

  ghost predicate Invariant(s: State) {
    && s.subscribed == s.items.Keys && s.subscribed <= s.aggregators.Keys
    && (forall x <- s.aggregators :: s.aggregators[x] < s.made)
    && (forall i :: 0 <= i < |s.reconnects| - 1 ==> s.reconnects[i])
    && Progress(s)
  }

  lemma {:induction false} AddNextKeeps(s: State, todo: seq<string>, current: map<string, Item>)
    requires Invariant(s.(sync := Fetching))
    requires s.subscribed <= current.Keys && AllIn(todo, current.Keys)
    requires forall k <- current :: k in s.subscribed || k in todo
    ensures Invariant(AddNext(s, todo, current))
    decreases |todo|
  {
    if todo != [] && todo[0] in s.subscribed {
      AddNextKeeps(s, todo[1..], current);
    }
  }

  lemma {:induction false} DropNextKeeps(s: State, todo: seq<string>, current: map<string, Item>, add: seq<string>)
    requires Invariant(s.(sync := Fetching)) && Lists(add, current.Keys)
    requires forall k <- s.subscribed :: k in current || k in todo
    ensures Invariant(DropNext(s, todo, current, add))
    decreases |todo|
  {
    if todo == [] {
      AddNextKeeps(s, add, current);
    } else if todo[0] in current {
      DropNextKeeps(s, todo[1..], current, add);
    }
  }

  lemma {:induction false} SyncStepKeeps(s: State)
    requires Invariant(s)
    ensures Invariant(SyncStep(s))
  {
    match s.sync
    case Fetching =>
    case Sleeping(_) =>
    case Dropping(x, todo, current, add) =>
      DropNextKeeps(s.(aggregators := s.aggregators - {x}, subscribed := s.subscribed - {x}, items := s.items - {x}),
                    todo, current, add);
    case Seeding(x, todo, current) =>
    case Adding(x, todo, current) =>
      AddNextKeeps(s.(subscribed := s.subscribed + {x}, items := s.items[x := current[x]]), todo, current);
  }

  lemma {:induction false} MakeAggregatorKeeps(s: State, x: string, process: ProcessAt)
    requires Invariant(s)
    ensures Invariant(MakeAggregator(s, x).(process := process)) && Invariant(s.(process := process))
  {
  }

  lemma {:induction false} StartReconnectKeeps(s: State)
    requires Invariant(s)
    ensures Invariant(StartReconnect(s).(process := Idle))
  {
  }

  lemma {:induction false} ProcessStepKeeps(s: State)
    requires Invariant(s)
    ensures Invariant(ProcessStep(s)) && Invariant(ProcessRecovers(s))
  {
    hide Invariant, StartReconnect, MakeAggregator;
    match s.process
    case Idle =>
    case ReportingLoss => StartReconnectKeeps(s);
    case ReSeeding(x, todo) =>
      MakeAggregatorKeeps(s, x, ReAdding(x, todo));
      ResubscribeKeeps(s, todo);
    case ReAdding(_, todo) => ResubscribeKeeps(s, todo);
  }

  lemma {:induction false} ResubscribeKeeps(s: State, todo: seq<string>)
    requires Invariant(s)
    ensures Invariant(ResubscribeNext(s, todo))
  {
    hide Invariant;
    MakeAggregatorKeeps(s, "", ResubscribeNext(s, todo).process);
  }

  lemma {:induction false} ScheduleKeeps(s: State, task: nat, succeeds: bool, recoveries: nat)
    requires Invariant(s)
    ensures s.sync.Fetching? ==> Invariant(s.(sync := Sleeping(None)))
    ensures Invariant(s.(sync := Fetching)) && Invariant(s.(stopped := true)) && Invariant(s.(recoveries := recoveries))
    ensures Invariant(EndReconnect(s, task, succeeds))
  {
  }

  lemma {:induction false} StepKeepsInvariant(s: State, e: Event)
    requires Invariant(s)
    ensures Invariant(Step(s, e))
  {
    hide Invariant, SyncStep, ProcessStep, ProcessRecovers, ResubscribeNext, DropNext;
    match e
    case WatchlistRead(current, drop, add) =>
      if s.sync.Fetching? && Lists(drop, s.subscribed) && Lists(add, current.Keys) {
        assert s.(sync := Fetching) == s;
        DropNextKeeps(s, drop, current, add);
      }
    case WatchlistFails => ScheduleKeeps(s, 0, true, 0);
    case WakesUp => ScheduleKeeps(s, 0, true, 0);
    case SyncResumes => SyncStepKeeps(s);
    case SyncRaises => ScheduleKeeps(s, 0, true, 0);
    case Disconnected => MakeAggregatorKeeps(s, "", ReportingLoss);
    case Recovered(order) =>
      if s.recoveries > 0 {
        ScheduleKeeps(s, 0, true, s.recoveries - 1);
        ResubscribeKeeps(s.(recoveries := s.recoveries - 1), order);
      }
    case ProcessResumes => ProcessStepKeeps(s);
    case ProcessRaises => ProcessStepKeeps(s);
    case ReconnectEnds(task, succeeds) => ScheduleKeeps(s, task, succeeds, 0);
  }

  /** At every await point of every interleaving the two registers of subscriptions agree, every subscribed symbol
      has its aggregator, at most the newest reconnect task is unfinished, and a pass that has just ended leaves
      exactly the fetched watchlist subscribed. */
  lemma {:induction false} RunKeepsInvariant(s: State, events: seq<Event>)
    requires Invariant(s)
    ensures Invariant(Run(s, events))
    decreases |events|
  {
    hide Invariant, Step;
    if events != [] {
      StepKeepsInvariant(s, events[0]);
      RunKeepsInvariant(Step(s, events[0]), events[1..]);
    }
  }

  lemma StartIsSound()
    ensures Invariant(START)
  {
  }

  // ---- what an outage leads to ------------------------------------------------------------------------------

  ghost predicate AllDone(reconnects: seq<bool>) { forall i :: 0 <= i < |reconnects| ==> reconnects[i] }

  /** A reconnect task is running, and it is the newest; it was started for this loss just if none was running. */
  ghost predicate IsReconnecting(before: seq<bool>, after: seq<bool>) {
    && after != [] && !after[|after| - 1]
    && before <= after && |after| == |before| + if AllDone(before) then 1 else 0
  }

  /** Every reported loss leaves a reconnect task running, however many outages there were before and whether or not the
      report went through. */
  lemma {:induction false} LossIsAnswered(s: State, e: Event)
    requires Invariant(s) && !s.stopped && s.process.ReportingLoss? && (e.ProcessResumes? || e.ProcessRaises?)
    ensures var t := Step(s, e);
            IsReconnecting(s.reconnects, t.reconnects) && t == s.(reconnects := t.reconnects, process := Idle)
  {
    hide Progress;
  }

  /** A recovery tag is queued exactly when a running reconnect task succeeds, and taken exactly by a recovery. */
  lemma {:induction false} RecoveryIsEarned(s: State, e: Event)
    ensures var t := Step(s, e);
            && (t.recoveries > s.recoveries
                <==> e.ReconnectEnds? && e.succeeds && !s.stopped && e.task < |s.reconnects| && !s.reconnects[e.task])
            && (t.recoveries < s.recoveries
                <==> e.Recovered? && !s.stopped && s.process.Idle? && s.recoveries > 0 && Lists(e.order, s.items.Keys))
            && s.recoveries - 1 <= t.recoveries <= s.recoveries + 1
  {
    hide Lists;
    match e
    case WatchlistRead(current, drop, add) => NextKeepsAggregators(s, drop, current, add);
    case SyncResumes => SyncStepMovesOn(s);
    case _ =>
  }

  /** The symbols that the process coroutine has still to resubscribe, the one it is at first. */
  ghost function Pending(p: ProcessAt): seq<string> {
    match p
    case Idle | ReportingLoss => []
    case ReSeeding(x, todo) => [x] + todo
    case ReAdding(x, todo) => [x] + todo
  }

  /** No symbol is passed over: a recovery has all registered ones ahead of it, each call that returns or raises takes
      off the one it was for, and nothing else touches the rest. */
  lemma {:induction false} ResubscribeVisitsAll(s: State, e: Event)
    requires !s.stopped
    ensures var t := Step(s, e);
            && (e.Recovered? && s.process.Idle? && s.recoveries > 0 && Lists(e.order, s.items.Keys) ==>
                  Pending(t.process) == e.order)
            && (Pending(s.process) != [] ==>
                  Pending(t.process) == if (e.ProcessResumes? && s.process.ReAdding?) || e.ProcessRaises?
                                        then Pending(s.process)[1..] else Pending(s.process))
            && (Pending(t.process) != [] && Pending(t.process) != Pending(s.process) ==>
                  (t.process.ReSeeding? <==> Pending(t.process)[0] !in t.aggregators))
  {
    hide Lists;
    match e
    case WatchlistRead(current, drop, add) => NextKeepsAggregators(s, drop, current, add);
    case SyncResumes => SyncStepMovesOn(s);
    case _ =>
  }

  /** So from any sound state in which the process coroutine is free, an outage whose reconnect succeeds brings it to
      resubscribe every registered symbol. */
  lemma {:induction false} OutageEndsInResubscribing(s: State, order: seq<string>)
    requires Invariant(s) && !s.stopped && s.process.Idle? && Lists(order, s.items.Keys)
    ensures var lost := Run(s, [Disconnected, ProcessResumes]);
            && IsReconnecting(s.reconnects, lost.reconnects)
            && var task := |lost.reconnects| - 1;
               Pending(Run(lost, [ReconnectEnds(task, true), Recovered(order)]).process) == order
  {
    var s1 := Step(s, Disconnected);
    var lost := Step(s1, ProcessResumes);
    StepKeepsInvariant(s, Disconnected);
    LossIsAnswered(s1, ProcessResumes);
    TwoSteps(s, Disconnected, ProcessResumes);
    var task := |lost.reconnects| - 1;
    var s3 := Step(lost, ReconnectEnds(task, true));
    assert s3 == lost.(reconnects := s3.reconnects, recoveries := s.recoveries + 1);
    TwoSteps(lost, ReconnectEnds(task, true), Recovered(order));
    ResubscribeVisitsAll(s3, Recovered(order));
  }

  lemma {:induction false} TwoSteps(s: State, d: Event, e: Event)
    ensures Run(s, [d, e]) == Step(Step(s, d), e)
  {
    hide Step;
    assert [d, e][1..] == [e] && [e][1..] == [];
    assert Run(Step(s, d), [e]) == Run(Step(Step(s, d), e), []);
  }

  /** The sync coroutine touches neither the process coroutine nor the reconnects, and a registered symbol keeps the
      details it was subscribed with. */
  lemma {:induction false} SyncStepMovesOn(s: State)
    ensures var t := SyncStep(s);
            && t.process == s.process && t.reconnects == s.reconnects && t.recoveries == s.recoveries
            && t.stopped == s.stopped
            && forall x <- t.items ::
                 if s.sync.Adding? && s.sync.symbol == x && x in s.sync.current then t.items[x] == s.sync.current[x]
                 else x in s.items && t.items[x] == s.items[x]
  {
    hide DropNext, AddNext;
    match s.sync
    case Dropping(y, todo, current, add) =>
      var t := s.(aggregators := s.aggregators - {y}, subscribed := s.subscribed - {y}, items := s.items - {y});
      NextKeepsAggregators(t, todo, current, add);
    case Adding(y, todo, current) =>
      if y in current {
        var t := s.(subscribed := s.subscribed + {y}, items := s.items[y := current[y]]);
        NextKeepsAggregators(t, [], current, todo);
      }
    case _ =>
  }

  /** The sync coroutine asks for seed data exactly for symbols without an aggregator. */
  lemma {:induction false} SeedAskedIffMissing(s: State, todo: seq<string>, current: map<string, Item>,
                                               add: seq<string>)
    ensures var t := AddNext(s, add, current);
            && (t.sync.Seeding? ==> t.sync.symbol !in s.aggregators && t.sync.symbol !in s.subscribed)
            && (t.sync.Adding? ==> t.sync.symbol in s.aggregators && t.sync.symbol !in s.subscribed)
    ensures var t := DropNext(s, todo, current, add);
            && (t.sync.Seeding? ==> t.sync.symbol !in s.aggregators && t.sync.symbol !in s.subscribed)
            && (t.sync.Adding? ==> t.sync.symbol in s.aggregators && t.sync.symbol !in s.subscribed)
            && (t.sync.Dropping? ==> t.sync.symbol !in current)
    decreases |todo| + |add|
  {
    if add != [] { SeedAskedIffMissing(s, [], current, add[1..]); }
    if todo != [] { SeedAskedIffMissing(s, todo[1..], current, add); }
  }

  // ---- who keeps its aggregator ------------------------------------------------------------------------------

  ghost predicate StaysSubscribed(s: State, events: seq<Event>, x: string)
    decreases |events|
  {
    x in s.subscribed && (events != [] ==> StaysSubscribed(Step(s, events[0]), events[1..], x))
  }

  ghost predicate AwaitsSeedOf(s: State, x: string) { s.process.ReSeeding? && s.process.symbol == x }

  ghost predicate SameAggregator(s: State, t: State, x: string) {
    x in s.aggregators && x in t.aggregators && s.aggregators[x] == t.aggregators[x]
  }

  lemma {:induction false} NextKeepsAggregators(s: State, todo: seq<string>, current: map<string, Item>,
                                                add: seq<string>)
    ensures AddNext(s, add, current) == s.(sync := AddNext(s, add, current).sync)
    ensures DropNext(s, todo, current, add) == s.(sync := DropNext(s, todo, current, add).sync)
    decreases |todo| + |add|
  {
    if add != [] { NextKeepsAggregators(s, [], current, add[1..]); }
    if todo != [] { NextKeepsAggregators(s, todo[1..], current, add); }
  }

  lemma {:induction false} StepKeepsAggregator(s: State, e: Event, x: string)
    requires Invariant(s) && x in s.subscribed && x in Step(s, e).subscribed && !AwaitsSeedOf(s, x)
    ensures SameAggregator(s, Step(s, e), x) && !AwaitsSeedOf(Step(s, e), x)
  {
    hide DropNext, AddNext;
    match e
    case WatchlistRead(current, drop, add) => NextKeepsAggregators(s, drop, current, add);
    case SyncResumes =>
      match s.sync {
        case Dropping(y, todo, current, add) =>
          var t := s.(aggregators := s.aggregators - {y}, subscribed := s.subscribed - {y}, items := s.items - {y});
          NextKeepsAggregators(t, todo, current, add);
        case Adding(y, todo, current) =>
          var t := s.(subscribed := s.subscribed + {y}, items := s.items[y := current[y]]);
          NextKeepsAggregators(t, [], current, todo);
        case _ =>
      }
    case _ =>
  }

  lemma {:induction false} RunKeepsAggregator(s: State, events: seq<Event>, x: string)
    requires Invariant(s) && StaysSubscribed(s, events, x) && !AwaitsSeedOf(s, x)
    ensures SameAggregator(s, Run(s, events), x)
    decreases |events|
  {
    if events != [] {
      hide Step;
      StepKeepsInvariant(s, events[0]);
      StepKeepsAggregator(s, events[0], x);
      RunKeepsAggregator(Step(s, events[0]), events[1..], x);
    }
  }

  /** When the awaited seed data comes, the aggregator is replaced although the symbol stays subscribed. */
  lemma {:induction false} SeedReplacesAggregator(s: State, x: string)
    requires Invariant(s) && x in s.subscribed && !s.stopped && AwaitsSeedOf(s, x)
    ensures var events := [ProcessResumes];
            StaysSubscribed(s, events, x) && !SameAggregator(s, Run(s, events), x)
  {
    var events, t := [ProcessResumes], Step(s, ProcessResumes);
    assert t.subscribed == s.subscribed && t.aggregators[x] == s.made;
    hide Step;
    assert events[1..] == [];
    assert StaysSubscribed(t, [], x);
    assert Run(t, []) == t;
  }

  /** A subscribed symbol keeps its very aggregator for as long as it stays subscribed, through any number of
      disconnects and reconnects, if and only if the process coroutine is not just then waiting for seed data
      of that symbol. */
  lemma {:induction false} KeepsAggregatorIff(s: State, x: string)
    requires Invariant(s) && x in s.subscribed && !s.stopped
    ensures !AwaitsSeedOf(s, x) <==>
            forall events: seq<Event> :: StaysSubscribed(s, events, x) ==> SameAggregator(s, Run(s, events), x)
  {
    hide Invariant, StaysSubscribed, Run, SameAggregator;
    if AwaitsSeedOf(s, x) {
      SeedReplacesAggregator(s, x);
    } else {
      forall events: seq<Event> | StaysSubscribed(s, events, x) ensures SameAggregator(s, Run(s, events), x) {
        RunKeepsAggregator(s, events, x);
      }
    }
  }

  // ---- and how a symbol can lose it ---------------------------------------------------------------------------

  ghost predicate Reachable(s: State) { exists events: seq<Event> :: Run(START, events) == s }

  lemma {:induction false} RunOneMore(s: State, events: seq<Event>, e: Event)
    ensures Run(s, events + [e]) == Step(Run(s, events), e)
    decreases |events|
  {
    if events == [] {
      assert ([e])[1..] == [];
      assert [] + [e] == [e];
    } else {
      assert (events + [e])[1..] == events[1..] + [e];
      RunOneMore(Step(s, events[0]), events[1..], e);
    }
  }

  lemma {:induction false} ReachableIsSound(s: State)
    requires Reachable(s)
    ensures Invariant(s)
  {
    var events: seq<Event> :| Run(START, events) == s;
    StartIsSound();
    RunKeepsInvariant(START, events);
  }

  ghost predicate Same(s: State, t: State) {
    && s.subscribed == t.subscribed && s.items == t.items && s.aggregators == t.aggregators && s.made == t.made
    && s.sync == t.sync && s.process == t.process && s.reconnects == t.reconnects && s.recoveries == t.recoveries
    && s.stopped == t.stopped
  }

  lemma {:induction false} ReachableNext(s: State, e: Event, next: State)
    requires Reachable(s) && Same(Step(s, e), next)
    ensures Reachable(next)
  {
    hide Step;
    var events: seq<Event> :| Run(START, events) == s;
    RunOneMore(START, events, e);
    assert Run(START, events + [e]) == next;
  }

  const STK := Item("STK", "SMART")
  const X := "X"
  const Y := "Y"

  const BOTH := map[X := STK, Y := STK]
  const ONE := map[Y := STK]

  /** A state of the run below. */
  ghost function With(items: map<string, Item>, aggregators: map<string, nat>, made: nat, sync: SyncAt,
                      process: ProcessAt, reconnects: seq<bool>): State {
    State(items.Keys, items, aggregators, made, sync, process, reconnects, 0, false)
  }

  lemma {:induction false} Skips(s: State, x: string, rest: seq<string>, current: map<string, Item>, add: seq<string>)
    ensures x in s.subscribed ==> AddNext(s, [x] + rest, current) == AddNext(s, rest, current)
    ensures x in current ==> DropNext(s, [x] + rest, current, add) == DropNext(s, rest, current, add)
  {
    assert ([x] + rest)[1..] == rest;
  }

  lemma StartReachable()
    ensures Reachable(START)
  {
    assert Run(START, []) == START;
  }

  /** A first pass subscribes Y and then X. */
  lemma BothSubscribed()
    ensures Reachable(With(BOTH, map[Y := 0, X := 1], 2, Sleeping(Some(BOTH)), Idle, []))
  {
    hide Run, Reachable;
    var s1 := With(map[], map[], 0, Seeding(Y, [X], BOTH), Idle, []);
    var s2 := With(map[], map[Y := 0], 1, Adding(Y, [X], BOTH), Idle, []);
    var s3 := With(ONE, map[Y := 0], 1, Seeding(X, [], BOTH), Idle, []);
    var s4 := With(ONE, map[Y := 0, X := 1], 2, Adding(X, [], BOTH), Idle, []);
    StartReachable();
    ReachableNext(START, WatchlistRead(BOTH, [], [Y, X]), s1);
    ReachableNext(s1, SyncResumes, s2);
    ReachableNext(s2, SyncResumes, s3);
    ReachableNext(s3, SyncResumes, s4);
    ReachableNext(s4, SyncResumes, With(BOTH, map[Y := 0, X := 1], 2, Sleeping(Some(BOTH)), Idle, []));
  }

  /** The gateway drops, the loss is reported, and the reconnect task it starts succeeds. */
  lemma Reconnected()
    ensures Reachable(With(BOTH, map[Y := 0, X := 1], 2, Sleeping(Some(BOTH)), Idle, [true]).(recoveries := 1))
  {
    hide Run, Reachable;
    var two, asleep := map[Y := 0, X := 1], Sleeping(Some(BOTH));
    var s5 := With(BOTH, two, 2, asleep, Idle, []);
    var s6 := With(BOTH, two, 2, asleep, ReportingLoss, []);
    var s7 := With(BOTH, two, 2, asleep, Idle, [false]);
    BothSubscribed();
    ReachableNext(s5, Disconnected, s6);
    ReachableNext(s6, ProcessResumes, s7);
    ReachableNext(s7, ReconnectEnds(0, true), With(BOTH, two, 2, asleep, Idle, [true]).(recoveries := 1));
  }

  /** The recovery begins to resubscribe with Y; the next pass finds X gone from the watchlist. */
  lemma GoneDuringResubscribe()
    ensures Reachable(With(BOTH, map[Y := 0, X := 1], 2, Dropping(X, [], ONE, [Y]), ReAdding(Y, [X]), [true]))
  {
    hide Run, Reachable;
    var two, p := map[Y := 0, X := 1], ReAdding(Y, [X]);
    var s8 := With(BOTH, two, 2, Sleeping(Some(BOTH)), Idle, [true]).(recoveries := 1);
    var s9 := With(BOTH, two, 2, Sleeping(Some(BOTH)), p, [true]);
    var s10 := With(BOTH, two, 2, Fetching, p, [true]);
    Reconnected();
    assert [Y, X] == [Y] + [X];
    Skips(s10, Y, [X], ONE, [Y]);
    ReachableNext(s8, Recovered([Y, X]), s9);
    ReachableNext(s9, WakesUp, s10);
    ReachableNext(s10, WatchlistRead(ONE, [Y, X], [Y]), With(BOTH, two, 2, Dropping(X, [], ONE, [Y]), p, [true]));
  }

  /** So when the turn of X comes it has no aggregator, and its seed data is asked for. */
  lemma DroppedDuringResubscribe()
    ensures Reachable(With(ONE, map[Y := 0], 2, Sleeping(Some(ONE)), ReSeeding(X, []), [true]))
  {
    hide Run, Reachable;
    var two := map[Y := 0, X := 1];
    var s11 := With(BOTH, two, 2, Dropping(X, [], ONE, [Y]), ReAdding(Y, [X]), [true]);
    var s12 := With(ONE, map[Y := 0], 2, Sleeping(Some(ONE)), ReAdding(Y, [X]), [true]);
    GoneDuringResubscribe();
    assert [Y] == [Y] + [];
    Skips(s11.(aggregators := two - {X}, subscribed := BOTH.Keys - {X}, items := BOTH - {X}), Y, [], ONE, []);
    ReachableNext(s11, SyncResumes, s12);
    ReachableNext(s12, ProcessResumes, With(ONE, map[Y := 0], 2, Sleeping(Some(ONE)), ReSeeding(X, []), [true]));
  }

  /** The next pass takes X up again while its seed data is still awaited: the state in which X is about to lose its
      aggregator although it stays subscribed is reached. */
  lemma AggregatorCanBeReplaced()
    ensures exists s :: Reachable(s) && X in s.subscribed && !s.stopped && AwaitsSeedOf(s, X)
  {
    hide Run, Reachable;
    var p := ReSeeding(X, []);
    var s13 := With(ONE, map[Y := 0], 2, Sleeping(Some(ONE)), p, [true]);
    var s14 := With(ONE, map[Y := 0], 2, Fetching, p, [true]);
    var s15 := With(ONE, map[Y := 0], 2, Seeding(X, [], BOTH), p, [true]);
    var s16 := With(ONE, map[Y := 0, X := 2], 3, Adding(X, [], BOTH), p, [true]);
    var s17 := With(BOTH, map[Y := 0, X := 2], 3, Sleeping(Some(BOTH)), p, [true]);
    DroppedDuringResubscribe();
    assert [Y, X] == [Y] + [X] && [Y] == [Y] + [];
    Skips(s14, Y, [], BOTH, [Y, X]);
    Skips(s14, Y, [X], BOTH, []);
    ReachableNext(s13, WakesUp, s14);
    ReachableNext(s14, WatchlistRead(BOTH, [Y], [Y, X]), s15);
    ReachableNext(s15, SyncResumes, s16);
    ReachableNext(s16, SyncResumes, s17);
  }

  // ---- the coroutines on their shared state ---------------------------------------------------------------------

  /** Each method is what a coroutine does from one await to the next. */
  class Scanner {
    var subscribed: set<string>
    var items: map<string, Item>
    var aggregators: map<string, nat>
    var made: nat
    var sync: SyncAt
    var process: ProcessAt
    var reconnects: seq<bool>
    var recoveries: nat
    var stopped: bool

    ghost function View(): State
      reads this
    {
      State(subscribed, items, aggregators, made, sync, process, reconnects, recoveries, stopped)
    }

    ghost predicate Valid()
      reads this
    {
      Invariant(View())
    }

    constructor ()
      ensures Valid() && View() == START
    {
      subscribed, items, aggregators, made := {}, map[], map[], 0;
      sync, process, reconnects, recoveries, stopped := Fetching, Idle, [], 0, false;
    }

    method ReadWatchlist(current: map<string, Item>, drop: seq<string>, add: seq<string>)
      requires Valid()
      requires !stopped && sync.Fetching? && Lists(drop, subscribed) && Lists(add, current.Keys)
      modifies this
      ensures Valid()
      ensures View() == Step(old(View()), WatchlistRead(current, drop, add))
    {
      StepKeepsInvariant(View(), WatchlistRead(current, drop, add));
      DropGone(drop, current, add);
    }

    method DropGone(todo: seq<string>, current: map<string, Item>, add: seq<string>)
      modifies this
      ensures View() == DropNext(old(View()), todo, current, add)
    {
      var rest := todo;
      while rest != [] && rest[0] in current
        invariant View() == old(View())
        invariant DropNext(View(), rest, current, add) == DropNext(View(), todo, current, add)
      {
        rest := rest[1..];
      }
      if rest != [] {
        sync := Dropping(rest[0], rest[1..], current, add);
      } else {
        AddMissing(add, current);
      }
    }

    method AddMissing(todo: seq<string>, current: map<string, Item>)
      modifies this
      ensures View() == AddNext(old(View()), todo, current)
    {
      var rest := todo;
      while rest != [] && rest[0] in subscribed
        invariant View() == old(View())
        invariant AddNext(View(), rest, current) == AddNext(View(), todo, current)
      {
        rest := rest[1..];
      }
      if rest == [] {
        sync := Sleeping(Some(current));
      } else if rest[0] !in aggregators {
        sync := Seeding(rest[0], rest[1..], current);
      } else {
        sync := Adding(rest[0], rest[1..], current);
      }
    }

    method Unsubscribed()
      requires Valid()
      requires !stopped && sync.Dropping?
      modifies this
      ensures Valid()
      ensures View() == Step(old(View()), SyncResumes)
    {
      StepKeepsInvariant(View(), SyncResumes);
      var symbol, at := sync.symbol, sync;
      aggregators := aggregators - {symbol};
      subscribed := subscribed - {symbol};
      items := items - {symbol};
      DropGone(at.todo, at.current, at.add);
    }

    method Seeded()
      requires Valid()
      requires !stopped && sync.Seeding?
      modifies this
      ensures Valid()
      ensures View() == Step(old(View()), SyncResumes)
    {
      StepKeepsInvariant(View(), SyncResumes);
      aggregators, made := aggregators[sync.symbol := made], made + 1;
      sync := Adding(sync.symbol, sync.todo, sync.current);
    }

    method Subscribed()
      requires Valid()
      requires !stopped && sync.Adding?
      modifies this
      ensures Valid()
      ensures View() == Step(old(View()), SyncResumes)
    {
      StepKeepsInvariant(View(), SyncResumes);
      var symbol, at := sync.symbol, sync;
      subscribed := subscribed + {symbol};
      items := items[symbol := at.current[symbol]];
      AddMissing(at.todo, at.current);
    }

    method GatewayRecovered(order: seq<string>)
      requires Valid()
      requires !stopped && process.Idle? && recoveries > 0 && Lists(order, items.Keys)
      modifies this
      ensures Valid()
      ensures View() == Step(old(View()), Recovered(order))
    {
      StepKeepsInvariant(View(), Recovered(order));
      recoveries := recoveries - 1;
      Resubscribe(order);
    }

    method Resubscribe(todo: seq<string>)
      modifies this
      ensures View() == ResubscribeNext(old(View()), todo)
    {
      if todo == [] {
        process := Idle;
      } else if todo[0] !in aggregators {
        process := ReSeeding(todo[0], todo[1..]);
      } else {
        process := ReAdding(todo[0], todo[1..]);
      }
    }

    method ReSeeded()
      requires Valid()
      requires !stopped && process.ReSeeding?
      modifies this
      ensures Valid()
      ensures View() == Step(old(View()), ProcessResumes)
    {
      StepKeepsInvariant(View(), ProcessResumes);
      aggregators, made := aggregators[process.symbol := made], made + 1;
      process := ReAdding(process.symbol, process.todo);
    }

    /** Whether the call returned or raised. */
    method ReAdded()
      requires Valid()
      requires !stopped && process.ReAdding?
      modifies this
      ensures Valid()
      ensures View() == Step(old(View()), ProcessResumes) == Step(old(View()), ProcessRaises)
    {
      StepKeepsInvariant(View(), ProcessResumes);
      Resubscribe(process.todo);
    }

    method LossReported()
      requires Valid()
      requires !stopped && process.ReportingLoss?
      modifies this
      ensures Valid()
      ensures View() == Step(old(View()), ProcessResumes) == Step(old(View()), ProcessRaises)
      ensures IsReconnecting(old(reconnects), reconnects) && process.Idle?
    {
      StepKeepsInvariant(View(), ProcessResumes);
      LossIsAnswered(View(), ProcessResumes);
      if reconnects == [] || reconnects[|reconnects| - 1] {
        reconnects := reconnects + [false];
      }
      process := Idle;
    }
  }
}
