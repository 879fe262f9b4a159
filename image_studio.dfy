/** The image studio page: pick up to twelve image models, see the summed
    price, and pay for and run a generation. */
module ImageStudio {
  import opened Common
  import opened Selection

  const Cap: nat := 12
  const MaxAlert: string := "Max 12 models"
  const Endpoint: string := "/generate"

  class Page {
    /** `cost_usd` of each model in `available_models`. */
    const costs: map<string, real>
    var selected: seq<string>

    ghost predicate Valid()
      reads this
    {
      Distinct(selected) && |selected| <= Cap
    }

    constructor (costs: map<string, real>)
      ensures Valid() && this.costs == costs && selected == []
    {
      this.costs := costs;
      selected := [];
    }

    /** `toggle`, capped at twelve. */
    method Toggle(key: string) returns (alert: Option<string>)
      requires Valid()
      modifies this`selected
      ensures Valid()
      ensures selected == Toggled(old(selected), key, Cap)
      ensures alert == if key !in old(selected) && |old(selected)| >= Cap then Some(MaxAlert) else None
    {
      alert := None;
      if key in selected {
        selected := Without(selected, key);
      } else if |selected| < Cap {
        selected := selected + [key];
      } else {
        alert := Some(MaxAlert);
      }
    }

    /** The `reduce` in `updateBtn` and `run`: the selected models' prices,
        a model the page does not know counting as 0. */
    function Cost(): (c: real)
      reads this
      ensures (forall k :: k in costs ==> 0.0 <= costs[k]) ==> 0.0 <= c
    {
      SelectionCost(selected, costs)
    }

    /** `updateBtn`. */
    function Button(wallet: bool): (button: Label)
      reads this
      ensures button == SelectModelsFirst <==> |selected| == 0
      ensures button.PayAnd? <==> |selected| > 0 && wallet
      ensures button.PayAnd? ==> button.shownUsd == Cost() && button.count == Some(|selected|)
    {
      if |selected| == 0 then SelectModelsFirst
      else if wallet then PayAnd(Cost(), "Run", Some(|selected|))
      else ConnectWallet
    }

    /** `run`: a blank prompt, no wallet or no config is refused; otherwise
        the page pays the summed price and posts the selection. */
    function Run(prompt: string, wallet: bool, config: bool): (plan: Plan)
      reads this
      ensures plan.PayThenGenerate? <==> !IsBlank(prompt) && wallet && config
      ensures plan.Refused? ==> plan.alert == "Enter prompt"
      ensures plan.PayThenGenerate? ==>
        plan.amountUsd == Cost() && plan.models == selected && plan.endpoint == Endpoint
    {
      if IsBlank(prompt) || !wallet || !config then Refused("Enter prompt")
      else PayThenGenerate(Cost(), Endpoint, selected)
    }

    /** `sortedKeys`: the model keys by non-decreasing price. */
    function SortedKeys(keys: seq<string>): (r: seq<string>)
      requires Distinct(keys) && forall k :: k in keys <==> k in costs
      ensures forall i, j :: 0 <= i < j < |r| ==> Price(costs, r[i]) <= Price(costs, r[j])
      ensures multiset(r) == multiset(keys)
      ensures forall k :: k in r <==> k in costs
    {
      var sorted := SortByPrice(keys, costs);
      assert forall k :: k in sorted <==> k in multiset(sorted);
      sorted
    }
  }
}
