/**
 The bot's operating states, the allowed transitions, and the emergency-stop service that
 writes them under a row lock (backend/trading_core/bot_state_machine.py,
 backend/trading_core/emergency_stop.py).
 */
module BotStates {
  import opened Decimals

  datatype BotState = Active | SafeMode | Halted | KillSwitch | ManualPaused

  /** The transition table. */
  function AllowedFrom(s: BotState): set<BotState> {
    match s
    case Active => {SafeMode, Halted, KillSwitch, ManualPaused}
    case SafeMode => {Active, Halted, KillSwitch, ManualPaused}
    case Halted => {Active, KillSwitch}
    case KillSwitch => {Halted}
    case ManualPaused => {Active, SafeMode}
  }

  predicate Allowed(from: BotState, to: BotState) { to in AllowedFrom(from) }

  /** HALTED and KILL_SWITCH_TRIGGERED stop the loop; only ACTIVE opens positions. */
  predicate IsRunning(s: BotState) { s !in {Halted, KillSwitch} }
  predicate CanTrade(s: BotState) { s.Active? }

  /** The strings persisted in `bot_state.state`. */
  function Persisted(s: BotState): string {
    match s
    case Active => "ACTIVE"
    case SafeMode => "SAFE_MODE"
    case Halted => "HALTED"
    case KillSwitch => "KILL_SWITCH_TRIGGERED"
    case ManualPaused => "MANUAL_PAUSED"
  }

  /** `resolve_persisted_state`: no row means ACTIVE, an unknown string means None. */
  function Resolve(raw: Option<string>): (r: Option<BotState>)
    ensures raw.Some? && r.Some? ==> Persisted(r.value) == raw.value
  {
    match raw
    case None => Some(Active)
    case Some(v) =>
      if v == "ACTIVE" then Some(Active)
      else if v == "SAFE_MODE" then Some(SafeMode)
      else if v == "HALTED" then Some(Halted)
      else if v == "KILL_SWITCH_TRIGGERED" then Some(KillSwitch)
      else if v == "MANUAL_PAUSED" then Some(ManualPaused)
      else None
  }

  /** What was persisted is what is read back. */
  lemma ResolvePersisted(s: BotState)
    ensures Resolve(Some(Persisted(s))) == Some(s)
  {
    assert |"ACTIVE"| == 6 && |"SAFE_MODE"| == 9 && |"HALTED"| == 6;
    assert |"KILL_SWITCH_TRIGGERED"| == 21 && |"MANUAL_PAUSED"| == 13;
    assert "ACTIVE"[0] != "HALTED"[0];
  }

  class Machine {
    var state: BotState

    constructor (initial: BotState)
      ensures state == initial
    {
      state := initial;
    }

    method TransitionTo(target: BotState) returns (ok: bool)
      modifies this
      ensures ok == Allowed(old(state), target)
      ensures state == if ok then target else old(state)
    {
      ok := target in AllowedFrom(state);
      if ok { state := target; }
    }

    method ForceSet(target: BotState)
      modifies this
      ensures state == target
    {
      if target != state { state := target; }
    }
  }

  // ---------- The emergency-stop trigger ----------

  datatype Row = Row(state: string, previous: string)

  /** What the trigger reads and writes: is the run RUNNING, and its log of states. */
  datatype Db = Db(running: bool, log: seq<Row>)

  datatype Outcome =
    | Committed(previous: BotState)
    | CommitFailed
    | NotRunning
    | UnknownState
    | CurrentNotAllowed
    | InvalidTransition

  function Latest(log: seq<Row>): Option<string> {
    if log == [] then None else Some(log[|log| - 1].state)
  }

  /** The decision of one locked trigger; `commits` tells whether the database accepts it. */
  function Decide(db: Db, target: BotState, required: Option<set<BotState>>, commits: bool): Outcome {
    if !db.running then NotRunning else
    match Resolve(Latest(db.log))
    case None => UnknownState
    case Some(current) =>
      if required.Some? && current !in required.value then CurrentNotAllowed
      else if !Allowed(current, target) then InvalidTransition
      else if !commits then CommitFailed
      else Committed(current)
  }

  function LogAfter(db: Db, target: BotState, outcome: Outcome): seq<Row> {
    if outcome.Committed? then db.log + [Row(Persisted(target), Persisted(outcome.previous))] else db.log
  }

  /** A long-lived caller's state machine: resynced before validation, moved only after the commit. */
  function MemoryAfter(db: Db, memory: BotState, target: BotState, outcome: Outcome): BotState {
    match outcome
    case Committed(_) => target
    case NotRunning => memory
    case UnknownState => memory
    case _ => if Resolve(Latest(db.log)).Some? then Resolve(Latest(db.log)).value else memory
  }

  class EmergencyStopService {
    var running: bool
    var log: seq<Row>

    function Database(): Db
      reads this
    {
      Db(running, log)
    }

    constructor (running: bool, log: seq<Row>)
      ensures Database() == Db(running, log)
    {
      this.running, this.log := running, log;
    }

    method Trigger(target: BotState, required: Option<set<BotState>>, machine: Machine?, commits: bool)
      returns (outcome: Outcome)
      modifies this`log, machine
      ensures outcome == Decide(old(Database()), target, required, commits)
      ensures log == LogAfter(old(Database()), target, outcome)
      ensures machine != null ==> machine.state == MemoryAfter(old(Database()), old(machine.state), target, outcome)
    {
      if !running {
        return NotRunning;
      }
      var current := Resolve(Latest(log));
      if current.None? {
        return UnknownState;
      }
      if machine != null && current.value != machine.state {
        machine.ForceSet(current.value);
      }
      if required.Some? && current.value !in required.value {
        return CurrentNotAllowed;
      }
      var probe := new Machine(current.value);
      var ok := probe.TransitionTo(target);
      if !ok {
        return InvalidTransition;
      }
      if !commits {
        return CommitFailed;
      }
      log := log + [Row(Persisted(target), Persisted(current.value))];
      if machine != null {
        machine.ForceSet(target);
      }
      outcome := Committed(current.value);
    }
  }

  /** Which state may follow which, told by the state entered: ACTIVE is not entered from a kill, SAFE_MODE
      only from ACTIVE or a manual pause, HALTED not from a manual pause, a kill not from a manual
      pause either, and a manual pause only from ACTIVE or SAFE_MODE. No state follows itself. */
  predicate MayFollow(from: BotState, to: BotState) {
    && from != to
    && match to
       case Active => from != KillSwitch
       case SafeMode => from == Active || from == ManualPaused
       case Halted => from != ManualPaused
       case KillSwitch => from != ManualPaused
       case ManualPaused => from == Active || from == SafeMode
  }

  /** A trigger commits exactly on a running run whose readable state is one the caller accepts and the
      target may follow; it then writes one row naming both states, and otherwise nothing. */
  lemma CommitsIff(db: Db, target: BotState, required: Option<set<BotState>>, commits: bool)
    ensures var outcome, current := Decide(db, target, required, commits), Resolve(Latest(db.log));
            && (outcome.Committed? <==>
                && db.running && commits && current.Some?
                && (required.Some? ==> current.value in required.value) && MayFollow(current.value, target))
            && LogAfter(db, target, outcome) ==
               if outcome.Committed? then db.log + [Row(Persisted(target), Persisted(current.value))] else db.log
  {
    hide Resolve, Persisted;
  }

  /** The kill switch takes effect from exactly these states; MANUAL_PAUSED is not one of them. */
  lemma KillAcceptedIff(db: Db)
    requires db.running && Resolve(Latest(db.log)).Some?
    ensures Decide(db, KillSwitch, None, true).Committed? <==>
            Resolve(Latest(db.log)).value in {Active, SafeMode, Halted}
  {}
}
