/** The video studio page: pick up to four video models, see the summed
    price, and pay for and run a generation (an image is needed as soon as an
    image-to-video model is picked). */
module VideoStudio {
  import opened Common
  import opened Selection
  import Img2Vid

  const Cap: nat := 4
  const MaxAlert: string := "Max 4 video models"
  const Endpoint: string := "/generate-video"

  /** An entry of the server's `available_models`, as this page reads it. */
  datatype Card = Card(costUsd: real, kind: string)

  function CostMap(models: map<string, Card>): map<string, real>
  {
    map k | k in models :: models[k].costUsd
  }

  /** The prices the server charges, keyed by model. */
  function ServerCosts(): map<string, real>
  {
    map k | k in Img2Vid.Registry :: Img2Vid.Registry[k].costUsd
  }

  class Page {
    const models: map<string, Card>
    var selected: seq<string>

    ghost predicate Valid()
      reads this
    {
      Distinct(selected) && |selected| <= Cap
    }

    constructor (models: map<string, Card>)
      ensures Valid() && this.models == models && selected == []
    {
      this.models := models;
      selected := [];
    }

    /** `toggle`: remove a selected model, add another while fewer than four
        are selected, otherwise alert and keep the selection. */
    method Toggle(key: string) returns (alert: Option<string>)
      requires Valid()
      modifies this`selected
      ensures Valid()
      ensures selected == Toggled(old(selected), key, Cap)
      ensures alert == if key !in old(selected) && |old(selected)| >= Cap then Some(MaxAlert) else None
    {
      alert := None;
      if key in selected {
        selected := Without(selected, key);
      } else if |selected| < Cap {
        selected := selected + [key];
      } else {
        alert := Some(MaxAlert);
      }
    }

    /** The `reduce` in `updateBtn` and `run`: the selected models' prices,
        a model the page does not know counting as 0. */
    function Cost(): (c: real)
      reads this
      ensures (forall k :: k in models ==> 0.0 <= models[k].costUsd) ==> 0.0 <= c
    {
      SelectionCost(selected, CostMap(models))
    }

    /** `updateBtn`. */
    function Button(wallet: bool): (button: Label)
      reads this
      ensures button == SelectModelsFirst <==> |selected| == 0
      ensures button.PayAnd? <==> |selected| > 0 && wallet
      ensures button.PayAnd? ==> button.shownUsd == Cost() && button.count == Some(|selected|)
    {
      if |selected| == 0 then SelectModelsFirst
      else if wallet then PayAnd(Cost(), "Generate", Some(|selected|))
      else ConnectWallet
    }

    predicate RequiresImage()
      reads this
    {
      exists i :: 0 <= i < |selected| && selected[i] in models && models[selected[i]].kind == Img2Vid.ImageToVideo
    }

    /** `run`: a blank prompt, no wallet or no config is refused; so is a
        selection holding an image-to-video model when no image was uploaded;
        otherwise the page pays the summed price and posts the selection. */
    function Run(prompt: string, image: string, wallet: bool, config: bool): (plan: Plan)
      reads this
      ensures plan.PayThenGenerate? <==>
        !IsBlank(prompt) && wallet && config && !(RequiresImage() && image == "")
      ensures !IsBlank(prompt) && wallet && config && RequiresImage() && image == "" ==>
        plan == Refused("Upload an image for image-to-video models")
      ensures plan.PayThenGenerate? ==>
        plan.amountUsd == Cost() && plan.models == selected && plan.endpoint == Endpoint
    {
      if IsBlank(prompt) || !wallet || !config then Refused("Enter prompt")
      else if RequiresImage() && image == "" then Refused("Upload an image for image-to-video models")
      else PayThenGenerate(Cost(), Endpoint, selected)
    }

    /** `sortedKeys`: the model keys by non-decreasing price. */
    function SortedKeys(keys: seq<string>): (r: seq<string>)
      requires Distinct(keys) && forall k :: k in keys <==> k in models
      ensures forall i, j :: 0 <= i < j < |r| ==> Price(CostMap(models), r[i]) <= Price(CostMap(models), r[j])
      ensures multiset(r) == multiset(keys)
      ensures forall k :: k in r <==> k in models
    {
      var sorted := SortByPrice(keys, CostMap(models));
      assert forall k :: k in sorted <==> k in multiset(sorted);
      sorted
    }
  }

  /** When the page shows the server's prices, what it pays is what the
      server reports as `total_cost_usd` for the same models. */
  lemma PaysServerTotal(p: Page)
    requires CostMap(p.models) == ServerCosts()
    ensures p.Cost() == Sum(Img2Vid.Charges(p.selected))
  {
    assert Prices(p.selected, CostMap(p.models)) == Img2Vid.Charges(p.selected);
  }
}
