/**
 The API process and the worker share the persisted log of states; the worker trades on an
 in-memory copy that it resyncs. All interleavings of their atomic steps
 (backend/trading_core/cycle_runner.py, backend/trading_core/emergency_stop.py,
 backend/connection_health/monitor.py, backend/reconciliation/gate.py).
 */
module KillProtocol {
  import opened Decimals
  import opened BotStates

  /** Where the worker is: between symbols, after a state read, or processing a symbol. */
  datatype Pc = Between | Synced | Processing

  /** `seen` counts the rows the worker's memory reflects; `orders` the entries it placed. */
  datatype System = System(db: Db, memory: BotState, seen: nat, pc: Pc, orders: nat)

  datatype Action =
    | ApiTrigger(target: BotState, required: Option<set<BotState>>, commits: bool)
    | WorkerSafeMode(commits: bool)   // connection monitor or reconciliation gate
    | Sync(readOk: bool)
    | Check
    | Execute
    | Abandon
    | RunEnds

  /** One atomic step; an action that is not enabled changes nothing. */
  function Step(s: System, a: Action): System {
    match a
    case ApiTrigger(target, required, commits) =>
      s.(db := s.db.(log := LogAfter(s.db, target, Decide(s.db, target, required, commits))))
    case WorkerSafeMode(commits) =>
      if s.pc != Between || s.memory != Active then s else
      var outcome := Decide(s.db, SafeMode, Some({Active}), commits);
      var log := LogAfter(s.db, SafeMode, outcome);
      s.(db := s.db.(log := log), memory := MemoryAfter(s.db, s.memory, SafeMode, outcome),
         seen := if outcome.NotRunning? || outcome.UnknownState? then s.seen else |log|)
    case Sync(readOk) =>
      if s.pc != Between then s
      else if !readOk || s.db.log == [] || Resolve(Latest(s.db.log)).None? then s.(pc := Synced)
      else s.(pc := Synced, memory := Resolve(Latest(s.db.log)).value, seen := |s.db.log|)
    case Check =>
      if s.pc != Synced then s
      else if IsRunning(s.memory) && CanTrade(s.memory) then s.(pc := Processing)
      else s.(pc := Between)
    case Execute => if s.pc != Processing then s else s.(pc := Between, orders := s.orders + 1)
    case Abandon => if s.pc != Processing then s else s.(pc := Between)
    case RunEnds => s.(db := s.db.(running := false))
  }

  function Run(s: System, actions: seq<Action>): System
    decreases |actions|
  {
    if actions == [] then s else Run(Step(s, actions[0]), actions[1..])
  }

  // ---------- The log ----------

  /** The state after the first `k` rows. */
  function StateAt(log: seq<Row>, k: nat): Option<BotState>
    requires k <= |log|
  {
    Resolve(Latest(log[..k]))
  }

  predicate RowOk(log: seq<Row>, k: nat)
    requires k < |log|
  {
    && StateAt(log, k).Some? && StateAt(log, k + 1).Some?
    && log[k].previous == Persisted(StateAt(log, k).value)
    && Allowed(StateAt(log, k).value, StateAt(log, k + 1).value)
  }

  /** Every row is readable, names its predecessor, and is an allowed transition from it. */
  predicate LogOk(log: seq<Row>) { forall k :: 0 <= k < |log| ==> RowOk(log, k) }

  /** What every interleaving keeps: an orderly log, and a memory that some past row explains. */
  predicate Inv(s: System) {
    && LogOk(s.db.log) && s.seen <= |s.db.log| && StateAt(s.db.log, s.seen) == Some(s.memory)
    && (s.pc.Processing? ==> s.memory.Active?)
  }

  lemma EmptyIsActive()
    ensures Resolve(Latest([])) == Some(Active)
  {}

  lemma LatestState(log: seq<Row>)
    requires LogOk(log)
    ensures StateAt(log, |log|).Some? && Resolve(Latest(log)) == StateAt(log, |log|)
  {
    hide Resolve;
    assert log[..|log|] == log;
    if log == [] { EmptyIsActive(); } else { assert RowOk(log, |log| - 1); }
  }

  lemma AppendOk(log: seq<Row>, from: BotState, to: BotState)
    requires LogOk(log) && Resolve(Latest(log)) == Some(from) && Allowed(from, to)
    ensures var t := log + [Row(Persisted(to), Persisted(from))];
            && LogOk(t) && StateAt(t, |t|) == Some(to)
            && (forall k :: 0 <= k <= |log| ==> StateAt(t, k) == StateAt(log, k))
  {
    hide Resolve, Persisted, AllowedFrom;
    var t := log + [Row(Persisted(to), Persisted(from))];
    ResolvePersisted(to);
    assert log[..|log|] == log && t[..|t|] == t;
    forall k | 0 <= k <= |log| ensures StateAt(t, k) == StateAt(log, k) { assert t[..k] == log[..k]; }
    forall k | 0 <= k < |t| ensures RowOk(t, k) { if k < |log| { assert RowOk(log, k); } }
  }

  lemma TriggerKeepsLog(db: Db, target: BotState, required: Option<set<BotState>>, commits: bool)
    requires LogOk(db.log)
    ensures var t := LogAfter(db, target, Decide(db, target, required, commits));
            && LogOk(t) && |db.log| <= |t|
            && (forall k :: 0 <= k <= |db.log| ==> StateAt(t, k) == StateAt(db.log, k))
            && (Decide(db, target, required, commits).Committed? ==> StateAt(t, |t|) == Some(target))
  {
    hide Resolve, Persisted, AllowedFrom;
    var outcome := Decide(db, target, required, commits);
    if outcome.Committed? { AppendOk(db.log, outcome.previous, target); }
  }

  lemma StepKeeps(s: System, a: Action)
    requires Inv(s)
    ensures Inv(Step(s, a)) && s.seen <= Step(s, a).seen && |s.db.log| <= |Step(s, a).db.log|
  {
    hide Resolve, Persisted, AllowedFrom, LogOk;
    LatestState(s.db.log);
    match a
    case ApiTrigger(target, required, commits) => TriggerKeepsLog(s.db, target, required, commits);
    case WorkerSafeMode(commits) => TriggerKeepsLog(s.db, SafeMode, Some({Active}), commits);
    case _ =>
  }

  /** A bot run starts with an empty log, or with the halted state carried over from the last run. */
  predicate Initial(s: System) {
    && s.pc.Between? && s.orders == 0 && s.seen == |s.db.log|
    && ((s.db.log == [] && s.memory.Active?)
        || (s.memory in {Halted, KillSwitch} && s.db.log == [Row(Persisted(s.memory), Persisted(Active))]))
  }

  lemma InitialOk(s: System)
    requires Initial(s)
    ensures Inv(s)
  {
    ResolvePersisted(s.memory);
    if s.db.log != [] {
      assert s.db.log[..1] == s.db.log && s.db.log[..0] == [];
    }
  }

  /**
   Over every interleaving: persisted states form allowed transitions, the worker's memory is
   a state the log has shown (never ahead of it, and never going back), and an order is only
   ever in progress for a worker that believes the bot is ACTIVE.
   */
  lemma {:induction false} EveryInterleavingOk(s: System, actions: seq<Action>)
    requires Inv(s)
    ensures var t := Run(s, actions);
            Inv(t) && s.seen <= t.seen <= |t.db.log| && |s.db.log| <= |t.db.log|
    decreases |actions|
  {
    if actions != [] {
      StepKeeps(s, actions[0]);
      EveryInterleavingOk(Step(s, actions[0]), actions[1..]);
    }
  }

  /** In particular for every bot run, from its first row on. */
  lemma RunsFromStartOk(s: System, actions: seq<Action>)
    requires Initial(s)
    ensures Inv(Run(s, actions)) && Run(s, actions).seen <= |Run(s, actions).db.log|
  {
    InitialOk(s);
    EveryInterleavingOk(s, actions);
  }

  lemma ReadsBack(raw: Option<string>)
    ensures raw.Some? && Resolve(raw).Some? ==> Persisted(Resolve(raw).value) == raw.value
  {
  }

  /** A committed kill is only ever followed by HALTED: no SAFE_MODE trigger overwrites it. */
  lemma {:induction false} KillIsNotOverwritten(log: seq<Row>, k: nat)
    requires LogOk(log) && k + 1 < |log| && log[k].state == Persisted(KillSwitch)
    ensures log[k + 1].state == Persisted(Halted)
  {
    ResolvePersisted(KillSwitch);
    hide Resolve;
    assert log[..k + 1][k] == log[k] && log[..k + 2][k + 1] == log[k + 1];
    assert RowOk(log, k + 1);
    ReadsBack(Some(log[k + 1].state));
  }

  // ---------- The worker's own stops ----------

  lemma {:induction false} RunSnoc(s: System, actions: seq<Action>, a: Action)
    ensures Run(s, actions + [a]) == Step(Run(s, actions), a)
    decreases |actions|
  {
    hide Step;
    if actions == [] {
      assert [a][1..] == [];
    } else {
      assert (actions + [a])[0] == actions[0] && (actions + [a])[1..] == actions[1..] + [a];
      RunSnoc(Step(s, actions[0]), actions[1..], a);
    }
  }

  /**
   In every interleaving the worker's SAFE_MODE step adds one row exactly when it believes the bot
   ACTIVE between symbols and so says the log of a running bot: it never touches a manual pause, a
   halt, a kill or a SAFE_MODE already there, however stale the memory it acts on.
   */
  lemma {:induction false} WorkerStopsOnlyActive(s: System, actions: seq<Action>, commits: bool)
    ensures var before := Run(s, actions);
            var after := Run(s, actions + [WorkerSafeMode(commits)]);
            after.db.log ==
            if before.pc.Between? && before.memory.Active? && before.db.running && commits
               && Resolve(Latest(before.db.log)) == Some(Active)
            then before.db.log + [Row("SAFE_MODE", "ACTIVE")] else before.db.log
  {
    RunSnoc(s, actions, WorkerSafeMode(commits));
    var before := Run(s, actions);
    CommitsIff(before.db, SafeMode, Some({Active}), commits);
    hide Run, Resolve, LogAfter, Decide;
    assert Persisted(SafeMode) == "SAFE_MODE" && Persisted(Active) == "ACTIVE";
  }

  /** In every interleaving a kill asked for while the bot is running and not paused by hand is committed,
      and the worker's next successful read leaves it stopped before another symbol. */
  lemma {:induction false} KillTakesEffect(s: System, actions: seq<Action>)
    requires Inv(s)
    ensures var before := Run(s, actions);
            var killed := Run(s, actions + [ApiTrigger(KillSwitch, None, true)]);
            before.db.running && Resolve(Latest(before.db.log)) != Some(KillSwitch)
            && Resolve(Latest(before.db.log)) != Some(ManualPaused) ==>
              && Resolve(Latest(killed.db.log)) == Some(KillSwitch)
              && (killed.pc.Between? ==>
                    var checked := Step(Step(killed, Sync(true)), Check);
                    checked.pc.Between? && checked.memory == KillSwitch && checked.orders == before.orders)
  {
    RunSnoc(s, actions, ApiTrigger(KillSwitch, None, true));
    EveryInterleavingOk(s, actions);
    var before := Run(s, actions);
    LatestState(before.db.log);
    CommitsIff(before.db, KillSwitch, None, true);
    ResolvePersisted(KillSwitch);
    hide Run, Resolve, Persisted, Decide, LogOk;
  }

  // ---------- Orders after a stop ----------

  /** The bot is stopped as far as the log says. */
  predicate Stopped(s: System) { Resolve(Latest(s.db.log)) != Some(Active) }

  /** Throughout the run no row takes the bot back to ACTIVE. */
  predicate StaysStopped(s: System, actions: seq<Action>)
    decreases |actions|
  {
    Stopped(s) && (actions != [] ==> StaysStopped(Step(s, actions[0]), actions[1..]))
  }

  /** A symbol may still be carried to an order without another state read. */
  predicate InProgress(s: System) { !s.pc.Between? && s.memory.Active? }

  function Pending(s: System): nat { if InProgress(s) then 1 else 0 }

  function FailedReads(actions: seq<Action>): nat {
    if actions == [] then 0
    else (if actions[0].Sync? && !actions[0].readOk then 1 else 0) + FailedReads(actions[1..])
  }

  lemma StepOrders(s: System, a: Action)
    requires Inv(s) && Stopped(s) && Stopped(Step(s, a))
    ensures var t := Step(s, a);
            t.orders + Pending(t) <= s.orders + Pending(s) + (if a.Sync? && !a.readOk then 1 else 0)
  {
    hide Resolve, Persisted, AllowedFrom, LogOk;
    LatestState(s.db.log);
  }

  lemma {:induction false} OrdersBound(s: System, actions: seq<Action>)
    requires Inv(s) && StaysStopped(s, actions)
    ensures Run(s, actions).orders + Pending(Run(s, actions)) <= s.orders + Pending(s) + FailedReads(actions)
    decreases |actions|
  {
    if actions != [] {
      StepKeeps(s, actions[0]);
      StepOrders(s, actions[0]);
      OrdersBound(Step(s, actions[0]), actions[1..]);
    }
  }

  /**
   Once the log says stopped, and until it says ACTIVE again, the worker places at most the
   order of the symbol in progress, plus one for each state read that fails. With successful
   reads: at most one order follows a kill.
   */
  lemma {:induction false} OrdersAfterStop(s: System, actions: seq<Action>)
    requires Inv(s) && StaysStopped(s, actions)
    ensures Run(s, actions).orders <= s.orders + Pending(s) + FailedReads(actions)
    ensures FailedReads(actions) == 0 ==> Run(s, actions).orders <= s.orders + 1
    decreases |actions|
  {
    OrdersBound(s, actions);
  }

  /** The worker keeps processing symbols on a stale ACTIVE while every read fails. */
  function BlindRounds(n: nat): seq<Action> {
    if n == 0 then [] else [Sync(false), Check, Execute] + BlindRounds(n - 1)
  }

  lemma {:induction false} BlindRoundsFail(n: nat)
    ensures FailedReads(BlindRounds(n)) == n
  {
    if n > 0 {
      BlindRoundsFail(n - 1);
      var rest := BlindRounds(n - 1);
      var a1 := [Check, Execute] + rest;
      var a2 := [Execute] + rest;
      assert BlindRounds(n)[1..] == a1 && a1[1..] == a2 && a2[1..] == rest;
      assert FailedReads(a2) == FailedReads(rest);
      assert FailedReads(a1) == FailedReads(a2);
      assert FailedReads(BlindRounds(n)) == 1 + FailedReads(a1);
    }
  }

  lemma BlindRound(s: System)
    requires Stopped(s) && s.pc.Between? && s.memory.Active?
    ensures var s1 := Step(s, Sync(false));
            var s2 := Step(s1, Check);
            && s1 == s.(pc := Synced) && s2 == s.(pc := Processing)
            && Step(s2, Execute) == s.(orders := s.orders + 1)
            && Stopped(s1) && Stopped(s2) && Stopped(Step(s2, Execute))
  {}

  /** The bound is attained: each failed read really lets one more order through. */
  lemma {:induction false} FailedReadsCost(s: System, n: nat)
    requires Stopped(s) && s.pc.Between? && s.memory.Active?
    ensures StaysStopped(s, BlindRounds(n))
    ensures Run(s, BlindRounds(n)).orders == s.orders + n
    decreases n
  {
    hide Step, Stopped, Inv;
    if n > 0 {
      var rest := BlindRounds(n - 1);
      var a1 := [Check, Execute] + rest;
      var a2 := [Execute] + rest;
      assert BlindRounds(n)[1..] == a1 && a1[1..] == a2 && a2[1..] == rest;
      var s1 := Step(s, Sync(false));
      var s2 := Step(s1, Check);
      var s3 := Step(s2, Execute);
      BlindRound(s);
      FailedReadsCost(s3, n - 1);
      assert StaysStopped(s2, a2) && Run(s2, a2) == Run(s3, rest);
      assert StaysStopped(s1, a1) && Run(s1, a1) == Run(s2, a2);
      assert StaysStopped(s, BlindRounds(n)) && Run(s, BlindRounds(n)) == Run(s1, a1);
    }
  }
}
