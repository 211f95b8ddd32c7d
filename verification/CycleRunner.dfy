/**
 The worker's pipeline over the symbols of one tick: state resync before each symbol, the
 entries it lets through, and the count that keeps the position limit within the tick
 (backend/trading_core/cycle_runner.py, backend/risk_engine/checks.py).
 */
module CycleRunner {
  import opened Decimals
  import opened BotStates

  datatype OrderStatus = Pending | Filled | PartiallyFilled | Cancelled | Failed

  /** What executing an approved plan came to. */
  datatype Execution = Raised | Returned(status: OrderStatus, filled: real)

  /** Nothing can have been left on the exchange: the order is dead and nothing filled. */
  predicate DefinitelyFlat(e: Execution) {
    e.Returned? && (e.status.Cancelled? || e.status.Failed?) && e.filled == 0.0
  }

  datatype StateRead = ReadFailed | Read(raw: Option<string>)

  /** A symbol's turn: what the log says, and how its proposal would end if the limit allows it. */
  datatype Turn = Turn(symbol: string, read: StateRead, proposal: Option<Execution>)

  /** `check_max_open_positions` for an executable decision; None is an unreliable count. */
  predicate LimitBlocks(count: Option<int>, maxOpen: int) { count.None? || count.value >= maxOpen }

  /** `_sync_state_from_db`: failed reads, missing and unknown rows leave the memory alone. */
  function SyncedMemory(memory: BotState, read: StateRead): BotState {
    if read.ReadFailed? || read.raw.None? then memory
    else if Resolve(read.raw).None? then memory
    else Resolve(read.raw).value
  }

  /** An entry placed during the tick. */
  datatype Entry = Entry(turn: nat, symbol: string, execution: Execution)

  /** Entries that may have left exposure: raised, pending, partial and filled ones included. */
  function Exposed(entries: seq<Entry>): nat {
    if entries == [] then 0
    else Exposed(entries[..|entries| - 1]) + (if DefinitelyFlat(entries[|entries| - 1].execution) then 0 else 1)
  }

  /** The memory after the reads of the first `k` turns. */
  function MemoryAt(memory: BotState, turns: seq<Turn>, k: nat): BotState
    requires k <= |turns|
  {
    if k == 0 then memory else SyncedMemory(MemoryAt(memory, turns, k - 1), turns[k - 1].read)
  }

  /** What a tick starts from; every snapshot carries the position count read before it. */
  datatype Tick = Tick(
    memory: BotState, turns: seq<Turn>, unverified: set<string>, reliable: bool, count: nat, maxOpen: nat)

  /** No state read up to turn `k` stopped the loop. */
  predicate RunningThrough(t: Tick, k: nat)
    requires k <= |t.turns|
  {
    k == 0 || (RunningThrough(t, k - 1) && IsRunning(MemoryAt(t.memory, t.turns, k)))
  }

  function Count(t: Tick, placed: seq<Entry>): Option<int> {
    if t.reliable then Some(t.count + Exposed(placed)) else None
  }

  /** Turn `k` places its entry, given those placed before it. */
  predicate Enters(t: Tick, k: nat, placed: seq<Entry>)
    requires k < |t.turns|
  {
    && RunningThrough(t, k + 1) && CanTrade(MemoryAt(t.memory, t.turns, k + 1))
    && t.turns[k].symbol !in t.unverified && t.turns[k].proposal.Some?
    && !LimitBlocks(Count(t, placed), t.maxOpen)
  }

  /** The entries of the first `k` turns. */
  function Placed(t: Tick, k: nat): seq<Entry>
    requires k <= |t.turns|
  {
    if k == 0 then [] else
    var before := Placed(t, k - 1);
    before + if Enters(t, k - 1, before)
             then [Entry(k - 1, t.turns[k - 1].symbol, t.turns[k - 1].proposal.value)] else []
  }

  lemma ExposedSnoc(entries: seq<Entry>, e: Entry)
    ensures Exposed(entries + [e]) == Exposed(entries) + if DefinitelyFlat(e.execution) then 0 else 1
  {
    assert (entries + [e])[..|entries + [e]| - 1] == entries;
  }

  /** A stop ends the tick: later turns place nothing. */
  lemma {:induction false} StopEndsTick(t: Tick, k: nat, n: nat)
    requires k <= n <= |t.turns| && !RunningThrough(t, k)
    ensures !RunningThrough(t, n) && Placed(t, n) == Placed(t, k)
    decreases n
  {
    if k < n { StopEndsTick(t, k, n - 1); }
  }

  /**
   The position limit holds within the tick: the count read at its start plus every entry that
   may have left exposure, including raised, timed-out and pending ones, never passes the
   limit, or the count itself when it already did. With an unreliable count nothing is placed.
   */
  lemma {:induction false} LimitHoldsWithinTick(t: Tick, k: nat)
    requires k <= |t.turns|
    ensures t.count + Exposed(Placed(t, k)) <= if t.count >= t.maxOpen then t.count else t.maxOpen
    ensures !t.reliable ==> Placed(t, k) == []
  {
    if k > 0 {
      LimitHoldsWithinTick(t, k - 1);
      var before := Placed(t, k - 1);
      if Enters(t, k - 1, before) {
        ExposedSnoc(before, Entry(k - 1, t.turns[k - 1].symbol, t.turns[k - 1].proposal.value));
      } else {
        assert Placed(t, k) == before;
      }
    }
  }

  // ---------- Exactly which turns enter ----------

  /** A state read that says something: the log answered with a known state. */
  predicate Tells(read: StateRead) { read.Read? && read.raw.Some? && Resolve(read.raw).Some? }

  /** The last of the first `k` turns whose read told something, or -1. */
  function LastTelling(turns: seq<Turn>, k: nat): (r: int)
    requires k <= |turns|
    ensures -1 <= r < k
    ensures r >= 0 ==> Tells(turns[r].read)
    ensures forall j :: r < j < k ==> !Tells(turns[j].read)
  {
    if k == 0 then -1 else if Tells(turns[k - 1].read) then k - 1 else LastTelling(turns, k - 1)
  }

  /** The memory is what the last telling read said, or the initial one if none did. */
  lemma {:induction false} MemoryIsLastTold(memory: BotState, turns: seq<Turn>, k: nat)
    requires k <= |turns|
    ensures var last := LastTelling(turns, k);
            MemoryAt(memory, turns, k) == if last < 0 then memory else Resolve(turns[last].read.raw).value
  {
    hide Resolve;
    if k > 0 { MemoryIsLastTold(memory, turns, k - 1); }
  }

  /** The worker has not been told of a stop by turn `k`. */
  predicate NotStopped(t: Tick, k: nat)
    requires k <= |t.turns|
  {
    forall j :: 1 <= j <= k ==> MemoryAt(t.memory, t.turns, j) != Halted && MemoryAt(t.memory, t.turns, j) != KillSwitch
  }

  lemma {:induction false} RunningIs(t: Tick, k: nat)
    requires k <= |t.turns|
    ensures RunningThrough(t, k) <==> NotStopped(t, k)
  {
    if k > 0 { RunningIs(t, k - 1); }
  }

  /** The execution may have left a position: it raised, filled, may still fill, or filled in part. */
  predicate MayHold(e: Execution) {
    e.Raised? || e.status.Pending? || e.status.Filled? || e.status.PartiallyFilled? || e.filled != 0.0
  }

  /** The entries before turn `k` that may have left a position. */
  function Open(entries: seq<Entry>): nat {
    if entries == [] then 0
    else Open(entries[..|entries| - 1]) + if MayHold(entries[|entries| - 1].execution) then 1 else 0
  }

  lemma {:induction false} ExposedIsOpen(entries: seq<Entry>)
    ensures Exposed(entries) == Open(entries)
  {
    if entries != [] { ExposedIsOpen(entries[..|entries| - 1]); }
  }

  /** A turn that may enter: the bot ACTIVE after its own read and never told to stop, a verified symbol,
      a proposal, and room by a reliable count for one more beside what earlier entries may hold. */
  predicate MayEnter(t: Tick, k: nat)
    requires k < |t.turns|
  {
    && NotStopped(t, k + 1) && MemoryAt(t.memory, t.turns, k + 1) == Active
    && t.turns[k].symbol !in t.unverified && t.turns[k].proposal.Some?
    && t.reliable && t.count + Open(Placed(t, k)) < t.maxOpen
  }

  lemma EntersIs(t: Tick, k: nat)
    requires k < |t.turns|
    ensures Enters(t, k, Placed(t, k)) <==> MayEnter(t, k)
  {
    RunningIs(t, k + 1);
    ExposedIsOpen(Placed(t, k));
    hide MemoryAt, Placed, RunningThrough, NotStopped;
  }

  /** What turn `n - 1` adds to the entries. */
  lemma PlacedSnoc(t: Tick, n: nat)
    requires 0 < n <= |t.turns|
    ensures Placed(t, n) == Placed(t, n - 1) +
            if MayEnter(t, n - 1) then [Entry(n - 1, t.turns[n - 1].symbol, t.turns[n - 1].proposal.value)] else []
  {
    EntersIs(t, n - 1);
    hide Enters, NotStopped, MemoryAt;
  }

  /** An entry that belongs to a turn below `n` which may enter, with that turn's symbol and proposal. */
  predicate Belongs(t: Tick, n: nat, e: Entry)
    requires n <= |t.turns|
  {
    && e.turn < n && MayEnter(t, e.turn)
    && e.symbol == t.turns[e.turn].symbol && Some(e.execution) == t.turns[e.turn].proposal
  }

  predicate HasEntry(entries: seq<Entry>, turn: nat) { exists i :: 0 <= i < |entries| && entries[i].turn == turn }

  lemma StillHas(entries: seq<Entry>, more: seq<Entry>, turn: nat)
    requires HasEntry(entries, turn)
    ensures HasEntry(entries + more, turn)
  {
    var i :| 0 <= i < |entries| && entries[i].turn == turn;
    assert (entries + more)[i].turn == turn;
  }

  lemma HasLast(entries: seq<Entry>, e: Entry)
    ensures HasEntry(entries + [e], e.turn)
  {
    assert (entries + [e])[|entries|].turn == e.turn;
  }

  /** The entries of a tick are exactly its turns that may enter, in order, each with its own proposal. */
  lemma {:induction false} PlacedIff(t: Tick, n: nat)
    requires n <= |t.turns|
    ensures forall i :: 0 <= i < |Placed(t, n)| ==> Belongs(t, n, Placed(t, n)[i])
    ensures forall k :: 0 <= k < n && MayEnter(t, k) ==> HasEntry(Placed(t, n), k)
    ensures forall i, j :: 0 <= i < j < |Placed(t, n)| ==> Placed(t, n)[i].turn < Placed(t, n)[j].turn
  {
    if n > 0 {
      PlacedIff(t, n - 1);
      PlacedSnoc(t, n);
      hide MayEnter, Placed, HasEntry;
      var before, after := Placed(t, n - 1), Placed(t, n);
      forall k | 0 <= k < n && MayEnter(t, k) ensures HasEntry(after, k) {
        if k == n - 1 { HasLast(before, after[|after| - 1]); } else { StillHas(before, after[|before|..], k); }
      }
    }
  }

  class Runner {
    var memory: BotState
    var openedThisTick: nat

    constructor (memory: BotState)
      ensures this.memory == memory && openedThisTick == 0
    {
      this.memory, openedThisTick := memory, 0;
    }

    method SyncStateFromDb(read: StateRead)
      modifies this`memory
      ensures memory == SyncedMemory(old(memory), read)
    {
      if read.Read? && read.raw.Some? {
        var persisted := Resolve(read.raw);
        if persisted.Some? && persisted.value != memory { memory := persisted.value; }
      }
    }

    /** Execution of an approved plan: the attempt is counted before its outcome is known. */
    method ExecuteCounted(execution: Execution)
      modifies this`openedThisTick
      ensures openedThisTick == old(openedThisTick) + if DefinitelyFlat(execution) then 0 else 1
    {
      openedThisTick := openedThisTick + 1;
      if execution.Returned? && (execution.status.Cancelled? || execution.status.Failed?) && execution.filled == 0.0 {
        openedThisTick := openedThisTick - 1;
      }
    }

    /** `_run_decision_pipeline`: the entries placed and the counter after them. */
    method RunDecisionPipeline(turns: seq<Turn>, unverified: set<string>, reliable: bool, count: nat, maxOpen: nat)
      returns (entries: seq<Entry>)
      modifies this
      ensures entries == Placed(Tick(old(memory), turns, unverified, reliable, count, maxOpen), |turns|)
      ensures openedThisTick == Exposed(entries)
    {
      entries := [];
      openedThisTick := 0;
      ghost var t := Tick(memory, turns, unverified, reliable, count, maxOpen);
      for n := 0 to |turns|
        invariant memory == MemoryAt(t.memory, turns, n) && RunningThrough(t, n)
        invariant entries == Placed(t, n) && openedThisTick == Exposed(entries)
      {
        SyncStateFromDb(turns[n].read);
        if !IsRunning(memory) {
          StopEndsTick(t, n + 1, |turns|);
          return;
        }
        if CanTrade(memory) && turns[n].symbol !in unverified && turns[n].proposal.Some? {
          var known := if reliable then Some(count + openedThisTick) else None;
          if !LimitBlocks(known, maxOpen) {
            var entry := Entry(n, turns[n].symbol, turns[n].proposal.value);
            ExecuteCounted(entry.execution);
            ExposedSnoc(entries, entry);
            entries := entries + [entry];
          }
        }
      }
    }
  }

  // ---------- A kill during the tick ----------

  /** From turn `k` on, every state read succeeds and says the bot is stopped. */
  predicate StoppedFrom(t: Tick, k: nat) {
    forall i :: k <= i < |t.turns| ==>
      t.turns[i].read.Read? && t.turns[i].read.raw.Some? && Resolve(t.turns[i].read.raw).Some?
      && !IsRunning(Resolve(t.turns[i].read.raw).value)
  }

  /** A kill that the reads see from turn `k` on leaves the tick with the entries placed before. */
  lemma {:induction false} KillEndsTick(t: Tick, k: nat)
    requires k <= |t.turns| && StoppedFrom(t, k)
    ensures Placed(t, |t.turns|) == Placed(t, k)
  {
    hide Resolve;
    if k < |t.turns| {
      assert !RunningThrough(t, k + 1);
      StopEndsTick(t, k + 1, |t.turns|);
    }
  }
}
