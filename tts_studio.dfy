/** The speech studio page: pick up to five voice models, type a text, and pay
    the per-character price of every picked model before the text is spoken. */
module TtsStudio {
  import opened Common
  import opened Selection
  import Tts

  const Cap: nat := 5
  const MaxAlert: string := "Max 5 voice models"
  const Endpoint: string := "/generate-tts"

  /** The least price the button shows. */
  const MinShownUsd: real := 0.0001

  /** The rates the server charges per 1000 characters, keyed by model. */
  function ServerRates(): map<string, real>
  {
    map k | k in Tts.Registry :: Tts.Registry[k].costPer1000
  }

  /** What one selected model adds: `(text.length / 1000) * rate` when the
      page knows a non-zero rate for it, and nothing otherwise. `text.length`
      counts UTF-16 units. */
  function RateCost(text: string, rates: map<string, real>, key: string): (c: real)
    ensures key in rates && 0.0 <= rates[key] ==> (|text| as real / 1000.0) * rates[key] <= c
    ensures key !in rates ==> c == 0.0
    ensures key in rates && 0.0 <= rates[key] ==> 0.0 <= c
  {
    if key in rates && rates[key] != 0.0 then (Utf16Length(text) as real / 1000.0) * rates[key] else 0.0
  }

  function RateCosts(text: string, sel: seq<string>, rates: map<string, real>): seq<real>
  {
    seq(|sel|, i requires 0 <= i < |sel| => RateCost(text, rates, sel[i]))
  }

  /** The price of speaking `text` with every selected model; never negative
      when no rate is. */
  function PageCost(text: string, sel: seq<string>, rates: map<string, real>): (c: real)
    ensures (forall k :: k in rates ==> 0.0 <= rates[k]) ==> 0.0 <= c
  {
    var costs := RateCosts(text, sel, rates);
    assert (forall k :: k in rates ==> 0.0 <= rates[k]) ==> 0.0 <= Sum(costs) by {
      if forall k :: k in rates ==> 0.0 <= rates[k] {
        SumNonNegative(costs);
      }
    }
    Sum(costs)
  }

  /** The button never shows less than 0.0001, and shows the price itself
      from there up. */
  function DisplayCost(cost: real): (shown: real)
    ensures MinShownUsd <= shown && cost <= shown
    ensures cost >= MinShownUsd ==> shown == cost
  {
    if cost < MinShownUsd then MinShownUsd else cost
  }

  /** When the page shows the server's rates and the text has no character
      above U+FFFF (so `text.length` equals Python's `len(text)`), its price is
      exactly the sum of the server's `calculate_tts_cost` over the same
      models and text. */
  lemma PageCostMatchesServer(text: string, sel: seq<string>, rates: map<string, real>)
    requires rates == ServerRates()
    requires forall i :: 0 <= i < |text| ==> !Astral(text[i])
    ensures PageCost(text, sel, rates) == Tts.BatchCost(sel, text)
  {
    assert Utf16Length(text) == |text|;
    forall i | 0 <= i < |sel|
      ensures RateCosts(text, sel, rates)[i] == Tts.ModelCosts(sel, text)[i]
    {
      var k := sel[i];
      if k in Tts.Registry {
        assert rates[k] == Tts.Registry[k].costPer1000;
      }
    }
    assert RateCosts(text, sel, rates) == Tts.ModelCosts(sel, text);
  }

  /** Whatever the text, the page with the server's rates never pays less
      than the server charges: a character above U+FFFF counts twice in the
      browser and once on the server. */
  lemma PagePaysAtLeastServer(text: string, sel: seq<string>, rates: map<string, real>)
    requires rates == ServerRates()
    ensures Tts.BatchCost(sel, text) <= PageCost(text, sel, rates)
  {
    forall i | 0 <= i < |sel|
      ensures Tts.ModelCosts(sel, text)[i] <= RateCosts(text, sel, rates)[i]
    {
      var k := sel[i];
      if k in Tts.Registry {
        assert rates[k] == Tts.Registry[k].costPer1000;
      }
    }
    SumMonotone(Tts.ModelCosts(sel, text), RateCosts(text, sel, rates));
  }

  class Page {
    /** `cost_per_1000_tokens` of each model in `available_models`. */
    const rates: map<string, real>
    var selected: seq<string>

    ghost predicate Valid()
      reads this
    {
      Distinct(selected) && |selected| <= Cap
    }

    constructor (rates: map<string, real>)
      ensures Valid() && this.rates == rates && selected == []
    {
      this.rates := rates;
      selected := [];
    }

    /** `toggle`, capped at five. */
    method Toggle(key: string) returns (alert: Option<string>)
      requires Valid()
      modifies this`selected
      ensures Valid()
      ensures selected == Toggled(old(selected), key, Cap)
      ensures alert == if key !in old(selected) && |old(selected)| >= Cap then Some(MaxAlert) else None
    {
      alert := None;
      if key in selected {
        selected := Without(selected, key);
      } else if |selected| < Cap {
        selected := selected + [key];
      } else {
        alert := Some(MaxAlert);
      }
    }

    /** The `forEach` that accumulates the price in `updateBtn` and in `run`. */
    method AccumulateCost(text: string) returns (cost: real)
      ensures cost == PageCost(text, selected, rates)
    {
      cost := 0.0;
      var k := 0;
      while k < |selected|
        invariant 0 <= k <= |selected|
        invariant cost == Sum(RateCosts(text, selected, rates)[..k])
      {
        var key := selected[k];
        if key in rates && rates[key] != 0.0 {
          cost := cost + (Utf16Length(text) as real / 1000.0) * rates[key];
        }
        assert RateCosts(text, selected, rates)[..k + 1][..k] == RateCosts(text, selected, rates)[..k];
        k := k + 1;
      }
      assert RateCosts(text, selected, rates)[..k] == RateCosts(text, selected, rates);
    }

    /** `updateBtn`: an empty selection is reported before an empty text; the
        price shown is the accumulated price, floored at 0.0001. */
    method UpdateButton(text: string, wallet: bool) returns (button: Label)
      ensures |selected| == 0 ==> button == SelectModelsFirst
      ensures |selected| > 0 && text == "" ==> button == TypeTextToStart
      ensures |selected| > 0 && text != "" && !wallet ==> button == ConnectWallet
      ensures button.PayAnd? <==> |selected| > 0 && text != "" && wallet
      ensures button.PayAnd? ==>
        button.shownUsd == DisplayCost(PageCost(text, selected, rates)) && MinShownUsd <= button.shownUsd
    {
      if |selected| == 0 {
        return SelectModelsFirst;
      }
      if |text| == 0 {
        return TypeTextToStart;
      }
      var cost := AccumulateCost(text);
      var displayCost := if cost < MinShownUsd then MinShownUsd else cost;
      button := if wallet then PayAnd(displayCost, "Speak", None) else ConnectWallet;
    }

    /** `run`: a blank text, no wallet or no config is refused; otherwise the
        page pays the raw accumulated price, not the floored one it shows. */
    method Run(text: string, wallet: bool, config: bool) returns (plan: Plan)
      ensures IsBlank(text) || !wallet || !config ==> plan == Refused("Enter text")
      ensures !IsBlank(text) && wallet && config ==>
        plan == PayThenGenerate(PageCost(text, selected, rates), Endpoint, selected)
    {
      if IsBlank(text) || !wallet || !config {
        return Refused("Enter text");
      }
      var cost := AccumulateCost(text);
      plan := PayThenGenerate(cost, Endpoint, selected);
    }

    /** `sortedKeys`: the model keys by non-decreasing rate. */
    function SortedKeys(keys: seq<string>): (r: seq<string>)
      requires Distinct(keys) && forall k :: k in keys <==> k in rates
      ensures forall i, j :: 0 <= i < j < |r| ==> Price(rates, r[i]) <= Price(rates, r[j])
      ensures multiset(r) == multiset(keys)
      ensures forall k :: k in r <==> k in rates
    {
      var sorted := SortByPrice(keys, rates);
      assert forall k :: k in sorted <==> k in multiset(sorted);
      sorted
    }
  }
}
