/** The execution engine object: it drives the adapter and registers exits exactly as Execution says. */
module ExecutionEngine {
  import opened Decimals
  import opened PaperLedger
  import opened ExitRules
  import opened ExitMachine
  import opened Execution
  import PaperAdapter
  import RiskEngine

  class Engine {
    const adapter: PaperAdapter.Adapter
    var rows: set<OrderId>
    var tracks: map<Symbol, Track>

    function State(): Desk
      reads this, adapter
    {
      Desk(adapter.Account(), rows, tracks)
    }

    ghost predicate Valid()
      reads this, adapter
    {
      adapter.Valid()
    }

    constructor (adapter: PaperAdapter.Adapter)
      requires adapter.Valid()
      ensures Valid() && this.adapter == adapter && State() == Desk(adapter.Account(), {}, map[])
    {
      this.adapter := adapter;
      rows, tracks := {}, map[];
    }

    /** Places the order of an approved plan once and registers its exits if it filled. */
    method ExecuteApprovedPlan(plan: Plan, atr: Option<real>, timing: Timing) returns (ending: Ending)
      requires Valid() && plan.Valid() && Sized(plan) && timing.Valid()
      modifies this, adapter
      ensures Valid()
      ensures Executed(State(), ending) == ExecutePlan(adapter.costs, old(State()), plan, atr, timing)
    {
      hide PlaceOrder, Exits, RiskEngine.Quantity, Effective;
      if plan.id in rows {
        return Replayed;
      }
      if !plan.verdict.Executable() || plan.d.entryType.NoEntry? || plan.d.entry <= 0.0 || atr.None? {
        return Refused;
      }
      var accepted := adapter.SetLeverage(plan.d.symbol, plan.verdict.leverage);
      var request := Request(plan);
      if request.None? || timing.TimedOutBefore? {
        return Raised;
      }
      var result := adapter.PlaceOrder(Effective(request.value, timing));
      if result.None? || timing.TimedOutAfter? {
        return Raised;
      }
      if timing.NotYetFilled() || !result.value.status.Filled? {
        rows := rows + {plan.id};
        return NotFilled;
      }
      if result.value.fillPrice.None? {
        rows := rows + {plan.id};
        return Raised;
      }
      var exits := Exits(plan, result.value.fillPrice.value, atr.value);
      if exits.None? {
        return Raised;
      }
      rows := rows + {plan.id};
      tracks := tracks[plan.d.symbol := Fresh(exits.value)];
      ending := Opened;
    }
  }
}
