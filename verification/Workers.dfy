/** Interleaved workers running `maybe_execute`, one atomic step at a time: the idempotency read comes before
    the lock, the lock may lapse at any moment, and the release deletes whoever's lock is there. */
module Workers {

  /** One order per symbol, strategy and day. */
  datatype Key = Key(symbol: string, strategy: nat, date: int)

  datatype Stage =
    | Start      // about to look for an existing order
    | Checked    // saw none; about to take the lock
    | Locked     // holds, or once held, the lock; about to check the limits
    | Cleared    // under the limits; about to insert the row
    | Inserted   // its own row is committed; about to submit
    | Leaving    // about to delete the lock
    | Finished

  /** `sends`: a live strategy without approval, whose worker submits the bracket itself. */
  datatype Worker = Worker(key: Key, sends: bool, stage: Stage)

  /** `table`: the keys of the committed rows; `sent`: the keys of the submitted brackets; both in order. */
  datatype State = State(workers: seq<Worker>, locks: set<Key>, table: seq<Key>, sent: seq<Key>)

  /** Whether the table has its unique constraint, and how many orders a strategy may have open. */
  datatype Config = Config(unique: bool, maxPerStrategy: nat)

  datatype Event =
    | Act(worker: nat)     // the worker takes its next step
    | Fail(worker: nat)    // the worker raises, or gives up on a later check; past the lock it still releases
    | Lapse(key: Key)      // the lock of a key expires

  ghost function RowsOf(table: seq<Key>, strategy: nat): nat {
    if table == [] then 0
    else RowsOf(table[..|table| - 1], strategy) + (if table[|table| - 1].strategy == strategy then 1 else 0)
  }

  ghost function Move(s: State, w: nat, stage: Stage): State
    requires w < |s.workers|
  {
    s.(workers := s.workers[w := s.workers[w].(stage := stage)])
  }

  ghost function Advance(c: Config, s: State, w: nat): State
    requires w < |s.workers|
  {
    var key := s.workers[w].key;
    match s.workers[w].stage
    case Start => Move(s, w, if key in s.table then Finished else Checked)
    case Checked => if key in s.locks then Move(s, w, Finished) else Move(s.(locks := s.locks + {key}), w, Locked)
    case Locked => Move(s, w, if RowsOf(s.table, key.strategy) < c.maxPerStrategy then Cleared else Leaving)
    case Cleared =>
      if c.unique && key in s.table then Move(s, w, Leaving)
      else Move(s.(table := s.table + [key]), w, Inserted)
    case Inserted => Move(if s.workers[w].sends then s.(sent := s.sent + [key]) else s, w, Leaving)
    case Leaving => Move(s.(locks := s.locks - {key}), w, Finished)
    case Finished => s
  }

  /** Only what follows the taking of the lock is inside the try whose `finally` releases it. */
  ghost function Abort(s: State, w: nat): State
    requires w < |s.workers|
  {
    match s.workers[w].stage
    case Start | Checked => Move(s, w, Finished)
    case Locked | Cleared | Inserted => Move(s, w, Leaving)
    case Leaving | Finished => s
  }

  ghost function Step(c: Config, s: State, e: Event): State {
    match e
    case Act(w) => if w < |s.workers| then Advance(c, s, w) else s
    case Fail(w) => if w < |s.workers| then Abort(s, w) else s
    case Lapse(key) => s.(locks := s.locks - {key})
  }

  ghost function Run(c: Config, s: State, events: seq<Event>): State
    decreases |events|
  {
    if events == [] then s else Run(c, Step(c, s, events[0]), events[1..])
  }

  ghost function Count(keys: seq<Key>, key: Key): nat { multiset(keys)[key] }

  /** No worker has done anything yet; the table, the brackets and the locks are as earlier workers left them. */
  ghost predicate AtStart(s: State) {
    forall w :: 0 <= w < |s.workers| ==> s.workers[w].stage.Start?
  }

  // ---- what every interleaving keeps --------------------------------------------------------------------

  /** How far a worker is with its row. */
  datatype Phase = Anywhere | BeforeInsert | BeforeSend | Inside

  predicate InPhase(stage: Stage, phase: Phase) {
    match phase
    case Anywhere => true
    case BeforeInsert => stage.Start? || stage.Checked? || stage.Locked? || stage.Cleared?
    case BeforeSend => stage.Inserted?
    case Inside => stage.Locked? || stage.Cleared? || stage.Inserted? || stage.Leaving?
  }

  /** How many workers on `key` are in a phase. */
  ghost function Holding(workers: seq<Worker>, key: Key, phase: Phase): nat {
    if workers == [] then 0
    else
      var w := workers[|workers| - 1];
      Holding(workers[..|workers| - 1], key, phase) + (if w.key == key && InPhase(w.stage, phase) then 1 else 0)
  }

  lemma {:induction false} HoldingAfterMove(workers: seq<Worker>, w: nat, stage: Stage, key: Key, phase: Phase)
    requires w < |workers|
    ensures Holding(workers[w := workers[w].(stage := stage)], key, phase)
            == Holding(workers, key, phase) + (if workers[w].key == key && InPhase(stage, phase) then 1 else 0)
               - (if workers[w].key == key && InPhase(workers[w].stage, phase) then 1 else 0)
  {
    var last := |workers| - 1;
    var changed := workers[w := workers[w].(stage := stage)];
    if w < last {
      HoldingAfterMove(workers[..last], w, stage, key, phase);
      assert changed[..last] == workers[..last][w := workers[w].(stage := stage)];
    } else {
      assert changed[..last] == workers[..last];
    }
  }

  /** Every bracket sent, and every worker about to send one, has a row of its own to show for it. */
  ghost predicate Accounted(c: Config, s: State, key: Key) {
    && Count(s.sent, key) + Holding(s.workers, key, BeforeSend) <= Count(s.table, key)
    && (c.unique ==> Count(s.table, key) <= 1)
  }

  lemma {:induction false} AdvanceKeepsAccount(c: Config, s: State, w: nat, key: Key)
    requires w < |s.workers| && Accounted(c, s, key)
    ensures Accounted(c, Advance(c, s, w), key)
  {
    hide RowsOf, Holding, Count;
    var t := Advance(c, s, w);
    var stage := t.workers[w].stage;
    assert t.workers == s.workers[w := s.workers[w].(stage := stage)];
    HoldingAfterMove(s.workers, w, stage, key, BeforeSend);
    OneMore(s.table, s.workers[w].key, key);
    OneMore(s.sent, s.workers[w].key, key);
    if s.workers[w].stage.Cleared? && stage.Inserted? && c.unique {
      Absent(s.table, s.workers[w].key);
    }
  }

  lemma {:induction false} OneMore(keys: seq<Key>, k: Key, key: Key)
    ensures Count(keys + [k], key) == Count(keys, key) + if k == key then 1 else 0
  {
  }

  lemma {:induction false} Absent(keys: seq<Key>, key: Key)
    requires key !in keys
    ensures Count(keys, key) == 0
  {
  }

  lemma {:induction false} StepKeepsAccount(c: Config, s: State, e: Event, key: Key)
    requires Accounted(c, s, key)
    ensures Accounted(c, Step(c, s, e), key)
  {
    hide RowsOf, Holding, Advance;
    match e
    case Act(w) => if w < |s.workers| { AdvanceKeepsAccount(c, s, w, key); }
    case Fail(w) => if w < |s.workers| {
      HoldingAfterMove(s.workers, w, Abort(s, w).workers[w].stage, key, BeforeSend);
      assert s.workers[w := s.workers[w]] == s.workers;
    }
    case Lapse(_) =>
  }

  lemma {:induction false} RunKeepsAccount(c: Config, s: State, events: seq<Event>, key: Key)
    requires Accounted(c, s, key)
    ensures Accounted(c, Run(c, s, events), key)
    decreases |events|
  {
    hide Accounted, Step;
    if events != [] {
      StepKeepsAccount(c, s, events[0], key);
      RunKeepsAccount(c, Step(c, s, events[0]), events[1..], key);
    }
  }

  lemma {:induction false} NoneHolding(workers: seq<Worker>, key: Key)
    requires forall w :: 0 <= w < |workers| ==> !workers[w].stage.Inserted?
    ensures Holding(workers, key, BeforeSend) == 0
  {
    if workers != [] { NoneHolding(workers[..|workers| - 1], key); }
  }

  /** With the constraint, whatever the interleaving, the lapses, the failures and the orders already there: at most one
      row and at most one bracket per symbol, strategy and date, and no bracket without its row. */
  lemma {:induction false} AtMostOnePerKey(c: Config, s: State, events: seq<Event>, key: Key)
    requires AtStart(s) && c.unique && Count(s.sent, key) <= Count(s.table, key) <= 1
    ensures var t := Run(c, s, events);
            Count(t.table, key) <= 1 && Count(t.sent, key) <= Count(t.table, key)
  {
    hide Run;
    NoneHolding(s.workers, key);
    RunKeepsAccount(c, s, events, key);
  }

  // ---- when a strategy's limit holds ------------------------------------------------------------------------

  /** The distinct keys of a strategy among the workers for which the table has no row. */
  ghost function OpenKeys(workers: seq<Worker>, strategy: nat, table: seq<Key>): set<Key> {
    if workers == [] then {}
    else
      var key := workers[|workers| - 1].key;
      OpenKeys(workers[..|workers| - 1], strategy, table)
      + if key.strategy == strategy && key !in table then {key} else {}
  }

  ghost predicate On(workers: seq<Worker>, w: nat, key: Key) { w < |workers| && workers[w].key == key }

  ghost predicate Someone(workers: seq<Worker>, key: Key) { exists w: nat :: On(workers, w, key) }

  lemma {:induction false} OpenKeysHolds(workers: seq<Worker>, strategy: nat, table: seq<Key>, key: Key)
    ensures key in OpenKeys(workers, strategy, table)
            <==> key.strategy == strategy && key !in table && Someone(workers, key)
  {
    if workers != [] {
      var init := workers[..|workers| - 1];
      OpenKeysHolds(init, strategy, table, key);
      assert forall w: nat :: On(init, w, key) ==> On(workers, w, key);
      assert forall w: nat :: On(workers, w, key) && w < |init| ==> On(init, w, key);
      assert workers[|init|].key == key ==> On(workers, |init|, key);
    }
  }

  ghost predicate SameKeys(a: seq<Worker>, b: seq<Worker>) {
    |a| == |b| && forall w :: 0 <= w < |a| ==> a[w].key == b[w].key
  }

  /** The strategy has no room, and no worker of it is past the check. */
  ghost predicate Full(s: State, strategy: nat, rows: nat) {
    && RowsOf(s.table, strategy) == rows
    && forall w :: 0 <= w < |s.workers| && s.workers[w].key.strategy == strategy ==> !s.workers[w].stage.Cleared?
  }

  /** The table has grown from that of `from` by rows of the workers, and not at all for a strategy that was full. */
  ghost predicate Grown(c: Config, s: State, from: State, strategy: nat) {
    && SameKeys(s.workers, from.workers) && from.table <= s.table
    && (forall i :: |from.table| <= i < |s.table| ==> Someone(from.workers, s.table[i]))
    && (RowsOf(from.table, strategy) >= c.maxPerStrategy ==> Full(s, strategy, RowsOf(from.table, strategy)))
  }

  lemma {:induction false} RowsOneMore(table: seq<Key>, key: Key, strategy: nat)
    ensures RowsOf(table + [key], strategy) == RowsOf(table, strategy) + if key.strategy == strategy then 1 else 0
  {
    assert (table + [key])[..|table|] == table;
  }

  lemma {:induction false} SomeoneAt(workers: seq<Worker>, w: nat)
    requires w < |workers|
    ensures Someone(workers, workers[w].key)
  {
    assert On(workers, w, workers[w].key);
  }

  lemma {:induction false} StepKeepsFull(c: Config, s: State, e: Event, strategy: nat, rows: nat)
    requires Full(s, strategy, rows) && rows >= c.maxPerStrategy
    ensures Full(Step(c, s, e), strategy, rows)
  {
    hide RowsOf;
    if e.Act? && e.worker < |s.workers| {
      RowsOneMore(s.table, s.workers[e.worker].key, strategy);
    }
  }

  lemma {:induction false} StepKeepsGrown(c: Config, s: State, e: Event, from: State, strategy: nat)
    requires Grown(c, s, from, strategy)
    ensures Grown(c, Step(c, s, e), from, strategy)
  {
    hide RowsOf, Someone, Full;
    if RowsOf(from.table, strategy) >= c.maxPerStrategy {
      StepKeepsFull(c, s, e, strategy, RowsOf(from.table, strategy));
    }
    if e.Act? && e.worker < |s.workers| {
      SomeoneAt(from.workers, e.worker);
    }
  }

  lemma {:induction false} RunKeepsGrown(c: Config, s: State, events: seq<Event>, from: State, strategy: nat)
    requires Grown(c, s, from, strategy)
    ensures Grown(c, Run(c, s, events), from, strategy)
    decreases |events|
  {
    hide Grown, Step;
    if events != [] {
      StepKeepsGrown(c, s, events[0], from, strategy);
      RunKeepsGrown(c, Step(c, s, events[0]), events[1..], from, strategy);
    }
  }

  ghost predicate Unique(table: seq<Key>) { forall k :: Count(table, k) <= 1 }

  lemma {:induction false} RunKeepsUnique(c: Config, s: State, events: seq<Event>)
    requires c.unique && Unique(s.table)
    ensures Unique(Run(c, s, events).table)
    decreases |events|
  {
    if events != [] {
      hide RowsOf;
      var t := Step(c, s, events[0]);
      if t.table != s.table {
        var key := s.workers[events[0].worker].key;
        assert key !in s.table && t.table == s.table + [key];
        Absent(s.table, key);
        forall k ensures Count(t.table, k) <= 1 {
          OneMore(s.table, key, k);
        }
      }
      hide Step, Unique;
      RunKeepsUnique(c, t, events[1..]);
    }
  }

  /** Distinct rows drawn from a set are no more than the set. */
  lemma {:induction false} RowsWithin(table: seq<Key>, strategy: nat, keys: set<Key>)
    requires Unique(table)
    requires forall i :: 0 <= i < |table| && table[i].strategy == strategy ==> table[i] in keys
    ensures RowsOf(table, strategy) <= |keys|
  {
    if table != [] {
      var init, last := table[..|table| - 1], table[|table| - 1];
      assert table == init + [last];
      forall k ensures Count(table, k) == Count(init, k) + if k == last then 1 else 0 {
        OneMore(init, last, k);
      }
      assert Count(init, last) == 0;
      forall i | 0 <= i < |init| ensures init[i] != last && init[i] == table[i] {
        assert init[i] in multiset(init);
      }
      hide Count;
      RowsWithin(init, strategy, if last.strategy == strategy then keys - {last} else keys);
    }
  }

  lemma {:induction false} RowsOfConcat(a: seq<Key>, b: seq<Key>, strategy: nat)
    ensures RowsOf(a + b, strategy) == RowsOf(a, strategy) + RowsOf(b, strategy)
  {
    if b == [] {
      assert a + b == a;
    } else {
      RowsOfConcat(a, b[..|b| - 1], strategy);
      assert (a + b)[..|a + b| - 1] == a + b[..|b| - 1];
    }
  }

  lemma {:induction false} AddedAreNew(table: seq<Key>, more: seq<Key>)
    requires Unique(table + more)
    ensures Unique(more) && forall i :: 0 <= i < |more| ==> more[i] !in table
  {
    forall k ensures Count(table + more, k) == Count(table, k) + Count(more, k) {
      assert multiset(table + more) == multiset(table) + multiset(more);
    }
    forall i | 0 <= i < |more| ensures more[i] !in table {
      assert more[i] in multiset(more);
      assert Count(table, more[i]) == 0;
    }
  }

  lemma {:induction false} GrowsFromItself(c: Config, s: State, strategy: nat)
    requires AtStart(s)
    ensures Grown(c, s, s, strategy)
  {
  }

  /** Rows are never more than the earlier ones and one per open key, and stay as they are when there is no room. */
  lemma {:induction false} RowsBounded(c: Config, s: State, events: seq<Event>, strategy: nat)
    requires AtStart(s) && c.unique && Unique(s.table)
    ensures var before, after := RowsOf(s.table, strategy), RowsOf(Run(c, s, events).table, strategy);
            && after <= before + |OpenKeys(s.workers, strategy, s.table)|
            && (before >= c.maxPerStrategy ==> after == before)
  {
    hide Run, OpenKeys, RowsOf, Unique;
    var t := Run(c, s, events);
    GrowsFromItself(c, s, strategy);
    RunKeepsGrown(c, s, events, s, strategy);
    RunKeepsUnique(c, s, events);
    var more := t.table[|s.table|..];
    assert t.table == s.table + more;
    AddedAreNew(s.table, more);
    RowsOfConcat(s.table, more, strategy);
    forall i | 0 <= i < |more| && more[i].strategy == strategy
      ensures more[i] in OpenKeys(s.workers, strategy, s.table)
    {
      assert more[i] == t.table[|s.table| + i];
      OpenKeysHolds(s.workers, strategy, s.table, more[i]);
    }
    RowsWithin(more, strategy, OpenKeys(s.workers, strategy, s.table));
  }

  // The schedule that fills the table: one worker per key clears the limits, and only then does any of them insert.

  ghost predicate Picks(picks: seq<nat>, workers: seq<Worker>) {
    && (forall i :: 0 <= i < |picks| ==> picks[i] < |workers|)
    && (forall i, j :: 0 <= i < j < |picks| ==> picks[i] != picks[j])
  }

  ghost function KeysAt(workers: seq<Worker>, picks: seq<nat>): (keys: seq<Key>)
    requires Picks(picks, workers)
    ensures |keys| == |picks|
  {
    seq(|picks|, i requires 0 <= i < |picks| => workers[picks[i]].key)
  }

  ghost predicate DistinctKeys(workers: seq<Worker>, picks: seq<nat>)
    requires Picks(picks, workers)
  {
    forall i, j :: 0 <= i < j < |picks| ==> workers[picks[i]].key != workers[picks[j]].key
  }

  /** One worker for every open key of the strategy. */
  ghost function OnePerKey(workers: seq<Worker>, strategy: nat, table: seq<Key>): seq<nat> {
    if workers == [] then []
    else
      var last := |workers| - 1;
      OnePerKey(workers[..last], strategy, table) + if IsNewKey(workers, strategy, table) then [last] else []
  }

  /** The last worker has an open key that no worker before it has. */
  ghost predicate IsNewKey(workers: seq<Worker>, strategy: nat, table: seq<Key>)
    requires workers != []
  {
    var last := |workers| - 1;
    var key := workers[last].key;
    key.strategy == strategy && key !in table && key !in OpenKeys(workers[..last], strategy, table)
  }

  ghost predicate AreOpen(workers: seq<Worker>, picks: seq<nat>, strategy: nat, table: seq<Key>) {
    forall i :: 0 <= i < |picks| ==>
      picks[i] < |workers| && workers[picks[i]].key in OpenKeys(workers, strategy, table)
  }

  lemma {:induction false} OneMorePick(workers: seq<Worker>, picks: seq<nat>, strategy: nat, table: seq<Key>)
    requires workers != []
    requires var init := workers[..|workers| - 1];
             Picks(picks, init) && DistinctKeys(init, picks) && AreOpen(init, picks, strategy, table)
    ensures Picks(picks, workers) && DistinctKeys(workers, picks) && AreOpen(workers, picks, strategy, table)
    ensures IsNewKey(workers, strategy, table) ==>
              var more := picks + [|workers| - 1];
              Picks(more, workers) && DistinctKeys(workers, more) && AreOpen(workers, more, strategy, table)
  {
    var last := |workers| - 1;
    var init, key := workers[..last], workers[last].key;
    assert OpenKeys(workers, strategy, table)
           == OpenKeys(init, strategy, table) + if key.strategy == strategy && key !in table then {key} else {};
    hide OpenKeys;
    forall i | 0 <= i < |picks| ensures picks[i] < last && workers[picks[i]].key in OpenKeys(init, strategy, table) {
      assert init[picks[i]] == workers[picks[i]];
    }
  }

  lemma {:induction false} OnePerKeyPicks(workers: seq<Worker>, strategy: nat, table: seq<Key>)
    ensures var picks := OnePerKey(workers, strategy, table);
            && Picks(picks, workers) && DistinctKeys(workers, picks) && AreOpen(workers, picks, strategy, table)
            && |picks| == |OpenKeys(workers, strategy, table)|
  {
    if workers != [] {
      var last := |workers| - 1;
      var init, key := workers[..last], workers[last].key;
      OnePerKeyPicks(init, strategy, table);
      var before := OnePerKey(init, strategy, table);
      hide Picks, DistinctKeys, AreOpen;
      OneMorePick(workers, before, strategy, table);
      if IsNewKey(workers, strategy, table) {
        assert OnePerKey(workers, strategy, table) == before + [last];
        assert OpenKeys(workers, strategy, table) == OpenKeys(init, strategy, table) + {key};
      } else {
        assert OnePerKey(workers, strategy, table) == before;
        assert OpenKeys(workers, strategy, table) == OpenKeys(init, strategy, table);
      }
    }
  }

  ghost function ClearAll(picks: seq<nat>): seq<Event> {
    if picks == [] then [] else [Act(picks[0]), Act(picks[0]), Act(picks[0])] + ClearAll(picks[1..])
  }

  ghost function InsertAll(picks: seq<nat>): seq<Event> {
    if picks == [] then [] else [Act(picks[0])] + InsertAll(picks[1..])
  }

  lemma {:induction false} RunConcat(c: Config, s: State, a: seq<Event>, b: seq<Event>)
    ensures Run(c, s, a + b) == Run(c, Run(c, s, a), b)
    decreases |a|
  {
    if a == [] {
      assert a + b == b;
    } else {
      assert (a + b)[1..] == a[1..] + b;
      RunConcat(c, Step(c, s, a[0]), a[1..], b);
    }
  }

  /** A worker that may still look, lock and clear: its key has no row and no lock, and its strategy has room. */
  ghost predicate MayClear(c: Config, s: State, w: nat) {
    && w < |s.workers| && s.workers[w].stage.Start?
    && var key := s.workers[w].key;
       key !in s.locks && key !in s.table && RowsOf(s.table, key.strategy) < c.maxPerStrategy
  }

  lemma {:induction false} ClearsOne(c: Config, s: State, w: nat)
    requires MayClear(c, s, w)
    ensures Run(c, s, [Act(w), Act(w), Act(w)]) == ClearedBy(s, w)
  {
    hide RowsOf;
    var s1 := Step(c, s, Act(w));
    var s2 := Step(c, s1, Act(w));
    var s3 := Step(c, s2, Act(w));
    var key := s.workers[w].key;
    assert s1 == Move(s, w, Checked);
    assert s2 == Move(s1.(locks := s.locks + {key}), w, Locked);
    assert s3.workers == s.workers[w := s.workers[w].(stage := Cleared)];
    hide Step;
    assert [Act(w), Act(w), Act(w)][1..] == [Act(w), Act(w)];
    assert [Act(w), Act(w)][1..] == [Act(w)] && [Act(w)][1..] == [];
    calc {
      Run(c, s, [Act(w), Act(w), Act(w)]);
      Run(c, s1, [Act(w), Act(w)]);
      Run(c, s2, [Act(w)]);
      Run(c, s3, []);
      s3;
    }
  }

  ghost predicate StageAt(workers: seq<Worker>, picks: seq<nat>, stage: Stage) {
    forall i :: 0 <= i < |picks| ==> picks[i] < |workers| && workers[picks[i]].stage == stage
  }

  ghost predicate Untouched(before: seq<Worker>, after: seq<Worker>, picks: seq<nat>) {
    SameKeys(before, after) && forall w :: 0 <= w < |before| && w !in picks ==> after[w] == before[w]
  }

  /** All the picked workers may do so, whatever the order, as their keys differ. */
  ghost predicate AllMayClear(c: Config, s: State, picks: seq<nat>) {
    && Picks(picks, s.workers) && DistinctKeys(s.workers, picks)
    && forall i :: 0 <= i < |picks| ==> MayClear(c, s, picks[i])
  }

  ghost function ClearedBy(s: State, w: nat): State
    requires w < |s.workers|
  {
    Move(s.(locks := s.locks + {s.workers[w].key}), w, Cleared)
  }

  lemma {:induction false} OthersMayClear(c: Config, s: State, picks: seq<nat>)
    requires picks != [] && AllMayClear(c, s, picks)
    ensures AllMayClear(c, ClearedBy(s, picks[0]), picks[1..])
  {
    hide RowsOf;
    var t, rest := ClearedBy(s, picks[0]), picks[1..];
    forall i | 0 <= i < |rest| ensures MayClear(c, t, rest[i]) {
      assert rest[i] == picks[i + 1] && MayClear(c, s, picks[i + 1]);
    }
  }

  lemma {:induction false} ClearsAll(c: Config, s: State, picks: seq<nat>)
    requires AllMayClear(c, s, picks)
    ensures var t := Run(c, s, ClearAll(picks));
            t.table == s.table && StageAt(t.workers, picks, Cleared) && Untouched(s.workers, t.workers, picks)
    decreases |picks|
  {
    if picks != [] {
      var w, rest := picks[0], picks[1..];
      assert MayClear(c, s, w) && w !in rest;
      ClearsOne(c, s, w);
      RunConcat(c, s, [Act(w), Act(w), Act(w)], ClearAll(rest));
      OthersMayClear(c, s, picks);
      hide Run, AllMayClear;
      ClearsAll(c, ClearedBy(s, w), rest);
      assert picks == [w] + rest;
    }
  }

  /** Nothing stops a picked worker that is clear from inserting: its key is free, or the table takes a second row. */
  ghost predicate MayInsert(c: Config, s: State, picks: seq<nat>) {
    && Picks(picks, s.workers) && StageAt(s.workers, picks, Cleared)
    && (c.unique ==> DistinctKeys(s.workers, picks)
                     && forall i :: 0 <= i < |picks| ==> s.workers[picks[i]].key !in s.table)
  }

  lemma {:induction false} InsertsOne(c: Config, s: State, picks: seq<nat>)
    requires picks != [] && MayInsert(c, s, picks)
    ensures var t, w := Step(c, s, Act(picks[0])), picks[0];
            && t.table == s.table + [s.workers[w].key] && MayInsert(c, t, picks[1..])
            && KeysAt(s.workers, picks) == [s.workers[w].key] + KeysAt(t.workers, picks[1..])
  {
    var w, rest := picks[0], picks[1..];
    var t := Move(s.(table := s.table + [s.workers[w].key]), w, Inserted);
    assert Step(c, s, Act(w)) == t;
    assert forall i :: 0 <= i < |rest| ==> rest[i] == picks[i + 1] && t.workers[rest[i]] == s.workers[picks[i + 1]];
  }

  lemma {:induction false} RunFirst(c: Config, s: State, e: Event, rest: seq<Event>)
    ensures Run(c, s, [e] + rest) == Run(c, Step(c, s, e), rest)
  {
    hide Step;
    assert ([e] + rest)[1..] == rest;
  }

  lemma {:induction false} InsertsAll(c: Config, s: State, picks: seq<nat>)
    requires MayInsert(c, s, picks)
    ensures Run(c, s, InsertAll(picks)).table == s.table + KeysAt(s.workers, picks)
    decreases |picks|
  {
    if picks != [] {
      var w, rest := picks[0], picks[1..];
      assert InsertAll(picks) == [Act(w)] + InsertAll(rest);
      hide MayInsert, Step, Run, InsertAll, KeysAt;
      InsertsOne(c, s, picks);
      RunFirst(c, s, Act(w), InsertAll(rest));
      InsertsAll(c, Step(c, s, Act(w)), rest);
    }
  }

  ghost predicate NoLapse(events: seq<Event>) {
    forall i :: 0 <= i < |events| ==> !events[i].Lapse?
  }

  lemma {:induction false} SchedulesHaveNoLapse(picks: seq<nat>)
    ensures NoLapse(ClearAll(picks)) && NoLapse(InsertAll(picks))
  {
    if picks != [] { SchedulesHaveNoLapse(picks[1..]); }
  }

  lemma {:induction false} SameKeysAt(a: seq<Worker>, b: seq<Worker>, picks: seq<nat>)
    requires Picks(picks, a) && SameKeys(a, b)
    ensures Picks(picks, b) && KeysAt(a, picks) == KeysAt(b, picks)
    ensures DistinctKeys(a, picks) ==> DistinctKeys(b, picks)
  {
  }

  /** The whole schedule: every picked worker adds its row. */
  lemma {:induction false} ScheduleFills(c: Config, s: State, picks: seq<nat>)
    requires AllMayClear(c, s, picks)
    ensures NoLapse(ClearAll(picks) + InsertAll(picks))
    ensures Picks(picks, s.workers)
    ensures Run(c, s, ClearAll(picks) + InsertAll(picks)).table == s.table + KeysAt(s.workers, picks)
  {
    hide RowsOf, Run;
    var t := Run(c, s, ClearAll(picks));
    SchedulesHaveNoLapse(picks);
    ClearsAll(c, s, picks);
    RunConcat(c, s, ClearAll(picks), InsertAll(picks));
    SameKeysAt(s.workers, t.workers, picks);
    assert forall i :: 0 <= i < |picks| ==> MayClear(c, s, picks[i]);
    InsertsAll(c, t, picks);
  }

  ghost function LapseAll(keys: seq<Key>): seq<Event> {
    if keys == [] then [] else [Lapse(keys[0])] + LapseAll(keys[1..])
  }

  lemma {:induction false} LapsesUnlock(c: Config, s: State, keys: seq<Key>)
    ensures var t := Run(c, s, LapseAll(keys));
            t == s.(locks := t.locks) && t.locks <= s.locks && forall i :: 0 <= i < |keys| ==> keys[i] !in t.locks
    decreases |keys|
  {
    if keys == [] {
      RunOfNothing(c, s);
    } else {
      var first, rest := keys[0], keys[1..];
      assert LapseAll(keys) == [Lapse(first)] + LapseAll(rest);
      hide Run, LapseAll;
      LapseFirst(c, s, first, LapseAll(rest));
      LapsesUnlock(c, s.(locks := s.locks - {first}), rest);
      assert keys == [first] + rest;
    }
  }

  lemma {:induction false} RowsOfAll(keys: seq<Key>, strategy: nat)
    requires forall i :: 0 <= i < |keys| ==> keys[i].strategy == strategy
    ensures RowsOf(keys, strategy) == |keys|
  {
    if keys != [] { RowsOfAll(keys[..|keys| - 1], strategy); }
  }

  ghost function OpenPicked(s: State, strategy: nat): (keys: seq<Key>)
    ensures |keys| == |OpenKeys(s.workers, strategy, s.table)|
    ensures forall i :: 0 <= i < |keys| ==> keys[i].strategy == strategy && keys[i] !in s.table
  {
    var picks := OnePerKey(s.workers, strategy, s.table);
    OnePerKeyPicks(s.workers, strategy, s.table);
    var keys := KeysAt(s.workers, picks);
    assert forall i :: 0 <= i < |keys| ==> keys[i].strategy == strategy && keys[i] !in s.table by {
      forall i | 0 <= i < |keys| ensures keys[i].strategy == strategy && keys[i] !in s.table {
        OpenKeysHolds(s.workers, strategy, s.table, keys[i]);
      }
    }
    keys
  }

  /** With room for one more row and the open keys unlocked, the schedule adds a row for every open key. */
  lemma {:induction false} OpenKeysFillUnlocked(c: Config, s: State, strategy: nat)
    requires AtStart(s) && RowsOf(s.table, strategy) < c.maxPerStrategy
    requires forall i :: 0 <= i < |OpenPicked(s, strategy)| ==> OpenPicked(s, strategy)[i] !in s.locks
    ensures var picks := OnePerKey(s.workers, strategy, s.table);
            var events := ClearAll(picks) + InsertAll(picks);
            NoLapse(events) && Run(c, s, events).table == s.table + OpenPicked(s, strategy)
  {
    hide Run, RowsOf, OpenKeys, NoLapse, ClearAll, InsertAll, OnePerKey;
    var picks, keys := OnePerKey(s.workers, strategy, s.table), OpenPicked(s, strategy);
    OnePerKeyPicks(s.workers, strategy, s.table);
    forall i | 0 <= i < |picks| ensures MayClear(c, s, picks[i]) {
      assert keys[i] == s.workers[picks[i]].key;
    }
    hide MayClear, OpenPicked;
    ScheduleFills(c, s, picks);
    assert OpenPicked(s, strategy) == KeysAt(s.workers, picks);
  }

  /** So some run does, and without locks left over it needs no lapse. */
  lemma {:induction false} OpenKeysFill(c: Config, s: State, strategy: nat)
    requires AtStart(s) && RowsOf(s.table, strategy) < c.maxPerStrategy
    ensures exists events: seq<Event> ::
              && RowsOf(Run(c, s, events).table, strategy)
                 == RowsOf(s.table, strategy) + |OpenKeys(s.workers, strategy, s.table)|
              && (s.locks == {} ==> NoLapse(events))
  {
    hide Run, RowsOf, OpenKeys, NoLapse, ClearAll, InsertAll, OnePerKey, OpenPicked;
    var keys := OpenPicked(s, strategy);
    var unlock := LapseAll(keys);
    var t := Run(c, s, unlock);
    LapsesUnlock(c, s, keys);
    SameOpenPicked(s, t, strategy);
    RowsOfConcat(s.table, keys, strategy);
    RowsOfAll(keys, strategy);
    var picks := OnePerKey(s.workers, strategy, s.table);
    var events := ClearAll(picks) + InsertAll(picks);
    OpenKeysFillUnlocked(c, t, strategy);
    RunConcat(c, s, unlock, events);
    if s.locks == {} {
      OpenKeysFillUnlocked(c, s, strategy);
      assert RowsOf(Run(c, s, events).table, strategy) == RowsOf(s.table, strategy) + |keys|;
    } else {
      assert RowsOf(Run(c, s, unlock + events).table, strategy) == RowsOf(s.table, strategy) + |keys|;
    }
  }

  lemma {:induction false} SameOpenPicked(s: State, t: State, strategy: nat)
    requires t.workers == s.workers && t.table == s.table
    ensures OpenPicked(t, strategy) == OpenPicked(s, strategy)
  {
  }

  lemma {:induction false} RunOfNothing(c: Config, s: State)
    ensures Run(c, s, []) == s
  {
  }

  /** Whatever orders and locks are there already, a strategy's limit holds in every interleaving exactly when it has
      been reached, or leaves room for all open keys the workers have for the strategy.  When it does neither, and no
      lock was left over, it takes no lapse of a lock to exceed it. */
  lemma {:induction false} StrategyLimitHoldsIff(c: Config, s: State, strategy: nat)
    requires AtStart(s) && c.unique && Unique(s.table)
    ensures var rows, open := RowsOf(s.table, strategy), |OpenKeys(s.workers, strategy, s.table)|;
            && ((forall events: seq<Event> :: RowsOf(Run(c, s, events).table, strategy) <= c.maxPerStrategy)
                <==> rows == c.maxPerStrategy || rows + open <= c.maxPerStrategy)
            && (s.locks == {} && rows < c.maxPerStrategy < rows + open ==>
                  exists events: seq<Event> ::
                    NoLapse(events) && RowsOf(Run(c, s, events).table, strategy) == rows + open)
  {
    forall events: seq<Event>
      ensures var before, after := RowsOf(s.table, strategy), RowsOf(Run(c, s, events).table, strategy);
              && after <= before + |OpenKeys(s.workers, strategy, s.table)|
              && (before >= c.maxPerStrategy ==> after == before)
    {
      RowsBounded(c, s, events, strategy);
    }
    RunOfNothing(c, s);
    hide Run, RowsOf, OpenKeys, NoLapse;
    if RowsOf(s.table, strategy) < c.maxPerStrategy {
      OpenKeysFill(c, s, strategy);
    }
  }

  // ---- what the lock gives, and what a worker alone does ---------------------------------------------------

  /** The lock of a key is held by one worker past it, or by none; if it was left over, it keeps everyone out. */
  ghost predicate Guarded(s: State, key: Key, leftOver: bool) {
    Holding(s.workers, key, Inside) == (if key in s.locks && !leftOver then 1 else 0) && (leftOver ==> key in s.locks)
  }

  lemma {:induction false} HeldWhileInside(workers: seq<Worker>, w: nat)
    requires w < |workers| && InPhase(workers[w].stage, Inside)
    ensures Holding(workers, workers[w].key, Inside) >= 1
  {
    if w < |workers| - 1 { HeldWhileInside(workers[..|workers| - 1], w); }
  }

  lemma {:induction false} StepKeepsGuarded(c: Config, s: State, e: Event, key: Key, leftOver: bool)
    requires Guarded(s, key, leftOver) && !e.Lapse?
    ensures Guarded(Step(c, s, e), key, leftOver)
  {
    hide RowsOf, Holding;
    if e.worker < |s.workers| {
      var w, t := e.worker, Step(c, s, e);
      var stage := t.workers[w].stage;
      assert t.workers == s.workers[w := s.workers[w].(stage := stage)];
      HoldingAfterMove(s.workers, w, stage, key, Inside);
      if InPhase(s.workers[w].stage, Inside) { HeldWhileInside(s.workers, w); }
    }
  }

  lemma {:induction false} RunKeepsGuarded(c: Config, s: State, events: seq<Event>, key: Key, leftOver: bool)
    requires Guarded(s, key, leftOver) && NoLapse(events)
    ensures Guarded(Run(c, s, events), key, leftOver)
    decreases |events|
  {
    if events != [] {
      StepKeepsGuarded(c, s, events[0], key, leftOver);
      hide Guarded, Step;
      RunKeepsGuarded(c, Step(c, s, events[0]), events[1..], key, leftOver);
    }
  }

  lemma {:induction false} NoneInside(workers: seq<Worker>, key: Key)
    requires forall w :: 0 <= w < |workers| ==> workers[w].stage.Start?
    ensures Holding(workers, key, Inside) == 0
  {
    if workers != [] { NoneInside(workers[..|workers| - 1], key); }
  }

  /** As long as no lock lapses, whatever fails, at most one worker per key is past the lock, the lock is held exactly
      while one is, and a lock that was left over lets nobody past. */
  lemma {:induction false} LockExcludes(c: Config, s: State, events: seq<Event>, key: Key)
    requires AtStart(s) && NoLapse(events)
    ensures var t := Run(c, s, events);
            Holding(t.workers, key, Inside) == if key in t.locks && key !in s.locks then 1 else 0
  {
    hide Run;
    NoneInside(s.workers, key);
    RunKeepsGuarded(c, s, events, key, key in s.locks);
  }

  /** A worker that is left alone, with its key free and room in its strategy, adds its row, sends its bracket if it is
      to send one, and gives its lock back. */
  lemma {:induction false} AloneItPlacesTheOrder(c: Config, s: State, w: nat)
    requires MayClear(c, s, w)
    ensures var key := s.workers[w].key;
            Run(c, s, [Act(w), Act(w), Act(w)] + [Act(w), Act(w), Act(w)])
            == State(s.workers[w := s.workers[w].(stage := Finished)], s.locks, s.table + [key],
                     if s.workers[w].sends then s.sent + [key] else s.sent)
  {
    hide RowsOf;
    var key := s.workers[w].key;
    ClearsOne(c, s, w);
    RunConcat(c, s, [Act(w), Act(w), Act(w)], [Act(w), Act(w), Act(w)]);
    var s3 := ClearedBy(s, w);
    var s4 := Step(c, s3, Act(w));
    var s5 := Step(c, s4, Act(w));
    var s6 := Step(c, s5, Act(w));
    assert s6.locks == s.locks + {key} - {key} == s.locks;
    assert s6.workers == s.workers[w := s.workers[w].(stage := Finished)];
    hide Step;
    RunFirst(c, s3, Act(w), [Act(w), Act(w)]);
    RunFirst(c, s4, Act(w), [Act(w)]);
    RunFirst(c, s5, Act(w), []);
    assert [Act(w)] + [Act(w), Act(w)] == [Act(w), Act(w), Act(w)] && [Act(w)] + [Act(w)] == [Act(w), Act(w)];
    assert [Act(w)] + [] == [Act(w)];
    RunOfNothing(c, s6);
  }

  // ---- when a key has one row without the constraint -----------------------------------------------------------

  /** Every row of a key has used up one of the workers on it. */
  ghost predicate UsedUp(s: State, key: Key, workers: nat) {
    Count(s.table, key) + Holding(s.workers, key, BeforeInsert) <= workers
  }

  lemma {:induction false} StepKeepsUsedUp(c: Config, s: State, e: Event, key: Key, workers: nat)
    requires UsedUp(s, key, workers)
    ensures UsedUp(Step(c, s, e), key, workers)
  {
    hide RowsOf, Holding, Count;
    if !e.Lapse? && e.worker < |s.workers| {
      var w, t := e.worker, Step(c, s, e);
      var stage := t.workers[w].stage;
      assert t.workers == s.workers[w := s.workers[w].(stage := stage)];
      HoldingAfterMove(s.workers, w, stage, key, BeforeInsert);
      OneMore(s.table, s.workers[w].key, key);
    }
  }

  lemma {:induction false} RunKeepsUsedUp(c: Config, s: State, events: seq<Event>, key: Key, workers: nat)
    requires UsedUp(s, key, workers)
    ensures UsedUp(Run(c, s, events), key, workers)
    decreases |events|
  {
    hide UsedUp, Step;
    if events != [] {
      StepKeepsUsedUp(c, s, events[0], key, workers);
      RunKeepsUsedUp(c, Step(c, s, events[0]), events[1..], key, workers);
    }
  }

  lemma {:induction false} NoneInserted(workers: seq<Worker>, key: Key)
    requires forall w :: 0 <= w < |workers| ==> workers[w].stage.Start?
    ensures Holding(workers, key, BeforeInsert) == Holding(workers, key, Anywhere)
  {
    if workers != [] { NoneInserted(workers[..|workers| - 1], key); }
  }

  lemma {:induction false} OneOn(workers: seq<Worker>, key: Key)
    requires Holding(workers, key, Anywhere) >= 1
    ensures Someone(workers, key)
  {
    var last := |workers| - 1;
    if workers[last].key == key {
      assert On(workers, last, key);
    } else {
      OneOn(workers[..last], key);
      var w: nat :| On(workers[..last], w, key);
      assert On(workers, w, key);
    }
  }

  lemma {:induction false} TwoOn(workers: seq<Worker>, key: Key)
    requires Holding(workers, key, Anywhere) >= 2
    ensures exists i: nat, j: nat :: i < j && On(workers, i, key) && On(workers, j, key)
  {
    var last := |workers| - 1;
    if workers[last].key == key {
      OneOn(workers[..last], key);
      var i: nat :| On(workers[..last], i, key);
      assert On(workers, i, key) && On(workers, last, key);
    } else {
      TwoOn(workers[..last], key);
      var i: nat, j: nat :| i < j && On(workers[..last], i, key) && On(workers[..last], j, key);
      assert On(workers, i, key) && On(workers, j, key);
    }
  }

  /** A key that has a row keeps what it has: no worker on it gets past its first look. */
  ghost predicate Settled(s: State, key: Key, rows: nat) {
    && key in s.table && Count(s.table, key) == rows
    && forall w :: 0 <= w < |s.workers| && s.workers[w].key == key ==>
         s.workers[w].stage.Start? || s.workers[w].stage.Finished?
  }

  lemma {:induction false} RunKeepsSettled(c: Config, s: State, events: seq<Event>, key: Key, rows: nat)
    requires Settled(s, key, rows)
    ensures Settled(Run(c, s, events), key, rows)
    decreases |events|
  {
    if events != [] {
      StepKeepsSettled(c, s, events[0], key, rows);
      hide Settled, Step;
      RunKeepsSettled(c, Step(c, s, events[0]), events[1..], key, rows);
    }
  }

  lemma {:induction false} StepKeepsSettled(c: Config, s: State, e: Event, key: Key, rows: nat)
    requires Settled(s, key, rows)
    ensures Settled(Step(c, s, e), key, rows)
  {
    hide RowsOf, Count;
    if e.Act? && e.worker < |s.workers| {
      OneMore(s.table, s.workers[e.worker].key, key);
    }
  }

  lemma {:induction false} CountWithinRows(table: seq<Key>, key: Key)
    ensures Count(table, key) <= RowsOf(table, key.strategy)
  {
    if table != [] {
      var init, last := table[..|table| - 1], table[|table| - 1];
      CountWithinRows(init, key);
      assert table == init + [last];
      OneMore(init, last, key);
    }
  }

  /** A strategy without room gets no row, and so none of its keys does. */
  lemma {:induction false} FullKeepsCount(c: Config, s: State, events: seq<Event>, key: Key)
    requires AtStart(s) && RowsOf(s.table, key.strategy) >= c.maxPerStrategy
    ensures Count(Run(c, s, events).table, key) == Count(s.table, key)
  {
    hide Run, RowsOf;
    var t := Run(c, s, events);
    GrowsFromItself(c, s, key.strategy);
    RunKeepsGrown(c, s, events, s, key.strategy);
    var more := t.table[|s.table|..];
    assert t.table == s.table + more;
    RowsOfConcat(s.table, more, key.strategy);
    CountWithinRows(more, key);
    assert multiset(s.table + more) == multiset(s.table) + multiset(more);
  }

  /** Two workers on one key: the first clears, its lock lapses, the second clears, and both insert. */
  ghost function LapseRace(i: nat, j: nat, key: Key): seq<Event> {
    [Lapse(key)] + (ClearAll([i]) + ([Lapse(key)] + (ClearAll([j]) + InsertAll([i, j]))))
  }

  lemma {:induction false} LapseFirst(c: Config, s: State, key: Key, rest: seq<Event>)
    ensures Run(c, s, [Lapse(key)] + rest) == Run(c, s.(locks := s.locks - {key}), rest)
  {
    assert ([Lapse(key)] + rest)[1..] == rest;
  }

  lemma {:induction false} LapseRaceInsertsTwice(c: Config, s: State, i: nat, j: nat, key: Key)
    requires AtStart(s) && !c.unique && key !in s.table && RowsOf(s.table, key.strategy) < c.maxPerStrategy
    requires i != j && On(s.workers, i, key) && On(s.workers, j, key)
    ensures Run(c, s, LapseRace(i, j, key)).table == s.table + [key, key]
  {
    hide Run, Step, ClearAll, InsertAll, RowsOf;
    var insert := InsertAll([i, j]);
    var s1 := s.(locks := s.locks - {key});
    LapseFirst(c, s, key, ClearAll([i]) + ([Lapse(key)] + (ClearAll([j]) + insert)));
    assert MayClear(c, s1, i);
    ClearsAll(c, s1, [i]);
    RunConcat(c, s1, ClearAll([i]), [Lapse(key)] + (ClearAll([j]) + insert));
    var s2 := Run(c, s1, ClearAll([i]));
    var s3 := s2.(locks := s2.locks - {key});
    LapseFirst(c, s2, key, ClearAll([j]) + insert);
    assert MayClear(c, s3, j);
    ClearsAll(c, s3, [j]);
    RunConcat(c, s3, ClearAll([j]), insert);
    var s4 := Run(c, s3, ClearAll([j]));
    assert s4.workers[i] == s3.workers[i] && [i][0] == i && [j][0] == j && s4.workers[j].stage.Cleared?;
    InsertsAll(c, s4, [i, j]);
    assert KeysAt(s4.workers, [i, j]) == [key, key];
  }

  /** Without the constraint a key has at most one row in every interleaving exactly when it starts with at most one and
      either has it already, or its strategy has no room, or no two workers share the key. */
  lemma {:induction false} OneRowPerKeyIff(c: Config, s: State, key: Key)
    requires AtStart(s) && !c.unique
    ensures (forall events: seq<Event> :: Count(Run(c, s, events).table, key) <= 1)
            <==> && Count(s.table, key) <= 1
                 && (key in s.table || RowsOf(s.table, key.strategy) >= c.maxPerStrategy
                     || Holding(s.workers, key, Anywhere) <= 1)
  {
    hide Run, RowsOf, Holding;
    NoneInserted(s.workers, key);
    RunOfNothing(c, s);
    forall events: seq<Event>
      ensures var n := Count(Run(c, s, events).table, key);
              && (key in s.table || RowsOf(s.table, key.strategy) >= c.maxPerStrategy ==> n == Count(s.table, key))
              && n <= Count(s.table, key) + Holding(s.workers, key, Anywhere)
    {
      RunKeepsUsedUp(c, s, events, key, Count(s.table, key) + Holding(s.workers, key, Anywhere));
      if key in s.table {
        RunKeepsSettled(c, s, events, key, Count(s.table, key));
      } else if RowsOf(s.table, key.strategy) >= c.maxPerStrategy {
        FullKeepsCount(c, s, events, key);
      }
    }
    if key !in s.table && RowsOf(s.table, key.strategy) < c.maxPerStrategy && Holding(s.workers, key, Anywhere) > 1 {
      TwoOn(s.workers, key);
      var i: nat, j: nat :| i < j && On(s.workers, i, key) && On(s.workers, j, key);
      LapseRaceInsertsTwice(c, s, i, j, key);
      OneMore(s.table, key, key);
      OneMore(s.table + [key], key, key);
      assert s.table + [key, key] == s.table + [key] + [key];
    }
  }

  // ---- what the lock alone does not give ------------------------------------------------------------------

  const AAPL := Key("AAPL", 1, 20000)
  const MSFT := Key("MSFT", 1, 20000)

  ghost function Pair(a: Key, b: Key, first: Stage, second: Stage): seq<Worker> {
    [Worker(a, true, first), Worker(b, true, second)]
  }

  ghost function Idle(a: Key, b: Key): State { State(Pair(a, b, Start, Start), {}, [], []) }

  /** Some run in which no lock ever lapses. */
  ghost predicate Reaches(c: Config, s: State, t: State) {
    exists events: seq<Event> :: (forall i :: 0 <= i < |events| ==> !events[i].Lapse?) && Run(c, s, events) == t
  }

  ghost predicate Same(s: State, t: State) {
    s.workers == t.workers && s.locks == t.locks && s.table == t.table && s.sent == t.sent
  }

  lemma {:induction false} ReachesBySteps(c: Config, s: State, d: Event, e: Event, next: State, t: State)
    requires !d.Lapse? && !e.Lapse? && Same(Step(c, Step(c, s, d), e), next)
    requires Reaches(c, next, t)
    ensures Reaches(c, s, t)
  {
    hide Step;
    var events: seq<Event> :| (forall i :: 0 <= i < |events| ==> !events[i].Lapse?) && Run(c, next, events) == t;
    assert ([e] + events)[1..] == events && ([d] + ([e] + events))[1..] == [e] + events;
    assert Run(c, s, [d] + ([e] + events)) == t;
  }

  lemma {:induction false} OneRow(key: Key)
    ensures RowsOf([], 1) == 0 && RowsOf([key], 1) == if key.strategy == 1 then 1 else 0
  {
    assert [key][..0] == [];
  }

  /** Without the unique constraint the lock does not stop two workers on one key, even if it never lapses: both
      read the empty table before either locks, and then one after the other locks, inserts and submits. */
  lemma LockAloneIsNotEnough()
    ensures exists t ::
              Reaches(Config(false, 5), Idle(AAPL, AAPL), t) && Count(t.table, AAPL) == 2 && Count(t.sent, AAPL) == 2
  {
    hide Run, Reaches, RowsOf;
    OneRow(AAPL);
    var c, k := Config(false, 5), AAPL;
    var s1 := State(Pair(k, k, Checked, Checked), {}, [], []);
    var s2 := State(Pair(k, k, Cleared, Checked), {k}, [], []);
    var s3 := State(Pair(k, k, Leaving, Checked), {k}, [k], [k]);
    var s4 := State(Pair(k, k, Finished, Locked), {k}, [k], [k]);
    var s5 := State(Pair(k, k, Finished, Inserted), {k}, [k, k], [k]);
    var t := State(Pair(k, k, Finished, Finished), {}, [k, k], [k, k]);
    StaysPut(c, t);
    ReachesBySteps(c, s5, Act(1), Act(1), t, t);
    ReachesBySteps(c, s4, Act(1), Act(1), s5, t);
    ReachesBySteps(c, s3, Act(0), Act(1), s4, t);
    ReachesBySteps(c, s2, Act(0), Act(0), s3, t);
    ReachesBySteps(c, s1, Act(0), Act(0), s2, t);
    ReachesBySteps(c, Idle(k, k), Act(0), Act(1), s1, t);
  }

  /** Nor does the lock guard the limits of a strategy: with room for one order, two workers on different
      tickers both pass the check before either inserts. */
  lemma StrategyLimitCanBeExceeded()
    ensures exists t :: Reaches(Config(true, 1), Idle(AAPL, MSFT), t) && RowsOf(t.table, 1) == 2
  {
    hide Run, Reaches, RowsOf;
    OneRow(AAPL);
    var c, a, m := Config(true, 1), AAPL, MSFT;
    var s1 := State(Pair(a, m, Checked, Checked), {}, [], []);
    var s2 := State(Pair(a, m, Locked, Locked), {a, m}, [], []);
    var s3 := State(Pair(a, m, Cleared, Cleared), {a, m}, [], []);
    var t := State(Pair(a, m, Inserted, Inserted), {a, m}, [a, m], []);
    StaysPut(c, t);
    ReachesBySteps(c, s3, Act(0), Act(1), t, t);
    ReachesBySteps(c, s2, Act(0), Act(1), s3, t);
    ReachesBySteps(c, s1, Act(0), Act(1), s2, t);
    ReachesBySteps(c, Idle(a, m), Act(0), Act(1), s1, t);
    RowsOneMore([a], m, 1);
    assert [a, m] == [a] + [m] && RowsOf(t.table, 1) == 2;
  }

  lemma {:induction false} StaysPut(c: Config, t: State)
    ensures Reaches(c, t, t)
  {
    assert Run(c, t, []) == t;
  }
}
