/** The model picker shared by the three studio pages. A selection is a
    JavaScript `Set` of model keys; such a set remembers insertion order, so it
    is a sequence without repeats here. Toggling removes a selected key and
    adds an absent one while the selection is below the page's cap. Prices
    are looked up with `models[k]?.cost_usd || 0` (on the speech page,
    `models[k]?.cost_per_1000_tokens || 0`). */
module Selection {
  import opened Common

  predicate Distinct(s: seq<string>)
  {
    forall i, j :: 0 <= i < j < |s| ==> s[i] != s[j]
  }

  /** `Set.delete`: drops the key and keeps the others in order. */
  function Without(s: seq<string>, key: string): (r: seq<string>)
    ensures forall x :: x in r <==> x in s && x != key
    ensures key !in s ==> r == s
    ensures Distinct(s) ==> Distinct(r)
    ensures Distinct(s) && key in s ==> |r| == |s| - 1
  {
    if s == [] then []
    else
      var init, last := s[..|s| - 1], s[|s| - 1];
      var rest := Without(init, key);
      assert forall x :: x in s <==> x in init || x == last;
      assert Distinct(s) ==> last !in init && Distinct(init);
      if last == key then rest else rest + [last]
  }

  /** `Set.delete` on a selection leaves the other keys in the order they
      were added: the key is cut out of its place `i` and nothing else moves. */
  lemma {:induction false} WithoutKeepsOrder(s: seq<string>, key: string) returns (i: nat)
    requires Distinct(s) && key in s
    ensures i < |s| && s[i] == key
    ensures Without(s, key) == s[..i] + s[i + 1..]
  {
    var init, last := s[..|s| - 1], s[|s| - 1];
    if last == key {
      i := |s| - 1;
      assert key !in init;
      assert s[i + 1..] == [];
    } else {
      assert key in init && Distinct(init);
      i := WithoutKeepsOrder(init, key);
      var rest := Without(init, key);
      assert Without(s, key) == rest + [last];
      assert s[..i] == init[..i];
      assert s[i + 1..] == init[i + 1..] + [last];
    }
  }

  /** `toggle`: a selected key is removed; an absent key is appended when
      fewer than `cap` keys are selected, and otherwise nothing changes. */
  function Toggled(s: seq<string>, key: string, cap: nat): (r: seq<string>)
    ensures key in r <==> key !in s && |s| < cap
    ensures forall x :: x != key ==> (x in r <==> x in s)
    ensures key !in s && |s| >= cap ==> r == s
    ensures key !in s && |s| < cap ==> r == s + [key]
    ensures Distinct(s) ==> Distinct(r)
    ensures Distinct(s) && |s| <= cap ==> |r| <= cap
  {
    if key in s then Without(s, key)
    else if |s| < cap then s + [key]
    else s
  }

  /** Toggling the same key twice gives back the same selected keys; an
      absent key leaves the selection exactly as it was, while a selected key
      comes back at the end, as a JavaScript `Set` re-adds it. */
  lemma ToggleTwice(s: seq<string>, key: string, cap: nat)
    requires Distinct(s) && |s| <= cap
    ensures forall x :: x in Toggled(Toggled(s, key, cap), key, cap) <==> x in s
    ensures |Toggled(Toggled(s, key, cap), key, cap)| == |s|
    ensures key !in s ==> Toggled(Toggled(s, key, cap), key, cap) == s
    ensures key in s ==> Toggled(Toggled(s, key, cap), key, cap) == Without(s, key) + [key]
  {
    if key !in s && |s| < cap {
      assert Without(s + [key], key) == s by {
        assert (s + [key])[..|s|] == s;
      }
    }
  }

  /** `models[k]?.cost_usd || 0`, or `cost_per_1000_tokens` on the speech page:
      the listed price, and 0 for a missing model or price. */
  function Price(costs: map<string, real>, key: string): real
  {
    if key in costs then costs[key] else 0.0
  }

  function Prices(s: seq<string>, costs: map<string, real>): seq<real>
  {
    seq(|s|, i requires 0 <= i < |s| => Price(costs, s[i]))
  }

  /** The `reduce` over the selection: the sum of the selected models' prices. */
  function SelectionCost(s: seq<string>, costs: map<string, real>): (c: real)
    ensures (forall k :: k in costs ==> 0.0 <= costs[k]) ==> 0.0 <= c
  {
    var prices := Prices(s, costs);
    assert (forall k :: k in costs ==> 0.0 <= costs[k]) ==> 0.0 <= Sum(prices) by {
      if forall k :: k in costs ==> 0.0 <= costs[k] {
        SumNonNegative(prices);
      }
    }
    Sum(prices)
  }

  lemma {:induction false} CostWithout(s: seq<string>, key: string, costs: map<string, real>)
    requires Distinct(s) && key in s
    ensures SelectionCost(s, costs) == SelectionCost(Without(s, key), costs) + Price(costs, key)
  {
    var init, last := s[..|s| - 1], s[|s| - 1];
    assert Prices(s, costs)[..|s| - 1] == Prices(init, costs);
    if last == key {
      assert key !in init;
      assert Without(s, key) == init;
    } else {
      assert key in init;
      CostWithout(init, key, costs);
      var w := Without(init, key);
      assert Without(s, key) == w + [last];
      assert Prices(w + [last], costs)[..|w|] == Prices(w, costs);
    }
  }

  lemma CostAppend(s: seq<string>, key: string, costs: map<string, real>)
    ensures SelectionCost(s + [key], costs) == SelectionCost(s, costs) + Price(costs, key)
  {
    assert Prices(s + [key], costs)[..|s|] == Prices(s, costs);
  }

  /** The displayed cost follows the toggle: removing a key subtracts its
      price, adding one adds it, and a refused toggle leaves the cost alone.
      So toggling twice restores the cost, whatever the order of the keys. */
  lemma ToggleCost(s: seq<string>, key: string, cap: nat, costs: map<string, real>)
    requires Distinct(s)
    ensures SelectionCost(Toggled(s, key, cap), costs) ==
      if key in s then SelectionCost(s, costs) - Price(costs, key)
      else if |s| < cap then SelectionCost(s, costs) + Price(costs, key)
      else SelectionCost(s, costs)
  {
    if key in s {
      CostWithout(s, key, costs);
    } else if |s| < cap {
      CostAppend(s, key, costs);
    }
  }

  lemma ToggleTwiceKeepsCost(s: seq<string>, key: string, cap: nat, costs: map<string, real>)
    requires Distinct(s) && |s| <= cap
    ensures SelectionCost(Toggled(Toggled(s, key, cap), key, cap), costs) == SelectionCost(s, costs)
  {
    ToggleCost(s, key, cap, costs);
    ToggleCost(Toggled(s, key, cap), key, cap, costs);
  }

  predicate SortedByPrice(s: seq<string>, costs: map<string, real>)
  {
    forall i, j :: 0 <= i < j < |s| ==> Price(costs, s[i]) <= Price(costs, s[j])
  }

  /** Places `key` after every key that is not dearer, as a stable sort does. */
  function Insert(key: string, sorted: seq<string>, costs: map<string, real>): (r: seq<string>)
    ensures multiset(r) == multiset(sorted) + multiset{key}
  {
    if sorted == [] then [key]
    else
      var init, last := sorted[..|sorted| - 1], sorted[|sorted| - 1];
      assert sorted == init + [last];
      if Price(costs, last) <= Price(costs, key) then sorted + [key]
      else Insert(key, init, costs) + [last]
  }

  lemma {:induction false} InsertSorted(key: string, sorted: seq<string>, costs: map<string, real>)
    requires SortedByPrice(sorted, costs)
    ensures SortedByPrice(Insert(key, sorted, costs), costs)
  {
    if sorted != [] {
      var init, last := sorted[..|sorted| - 1], sorted[|sorted| - 1];
      if Price(costs, last) > Price(costs, key) {
        InsertSorted(key, init, costs);
        var r' := Insert(key, init, costs);
        forall x | x in r' ensures Price(costs, x) <= Price(costs, last) {
          assert x in multiset(r');
          if x != key {
            assert x in multiset(init);
            var i :| 0 <= i < |init| && init[i] == x;
            assert sorted[i] == x;
          }
        }
        var r := r' + [last];
        forall i, j | 0 <= i < j < |r| ensures Price(costs, r[i]) <= Price(costs, r[j]) {
          if j == |r| - 1 {
            assert r[i] in r';
          }
        }
      }
    }
  }

  /** `Object.keys(models).sort((a, b) => price(a) - price(b))`: the keys in
      non-decreasing price order, each exactly as often as before. */
  function SortByPrice(keys: seq<string>, costs: map<string, real>): (r: seq<string>)
    ensures SortedByPrice(r, costs)
    ensures multiset(r) == multiset(keys)
  {
    if keys == [] then []
    else
      var init := keys[..|keys| - 1];
      assert keys == init + [keys[|keys| - 1]];
      InsertSorted(keys[|keys| - 1], SortByPrice(init, costs), costs);
      Insert(keys[|keys| - 1], SortByPrice(init, costs), costs)
  }

  /** What the pay button reads. */
  datatype Label =
    | SelectModelsFirst
    | TypeTextToStart
    | ConnectWallet
    | PayAnd(shownUsd: real, action: string, count: Option<nat>)

  /** What `run` does: refuse with an alert, or pay the amount and then post
      the selected models to the generation endpoint. */
  datatype Plan = Refused(alert: string) | PayThenGenerate(amountUsd: real, endpoint: string, models: seq<string>)

  /** Characters `String.prototype.trim` removes: the ECMAScript white space
      (tab, vertical tab, form feed, U+FEFF and every space separator of
      category Zs) and the line terminators. */
  predicate IsSpace(c: char)
  {
    c == '\t' || c == '\U{000B}' || c == '\U{000C}' || c == '\U{FEFF}' ||
    c == '\n' || c == '\r' || c == '\U{2028}' || c == '\U{2029}' ||
    c == ' ' || c == '\U{00A0}' || c == '\U{1680}' || ('\U{2000}' <= c <= '\U{200A}') ||
    c == '\U{202F}' || c == '\U{205F}' || c == '\U{3000}'
  }

  /** `!s.trim()`: nothing but white space. */
  predicate IsBlank(s: string)
  {
    forall i :: 0 <= i < |s| ==> IsSpace(s[i])
  }

  /** A prompt of nothing but spaces of any kind (here an ideographic space,
      an em space, a tab and a line break) is blank; one visible character
      makes it not blank. */
  lemma BlankPrompts()
    ensures IsBlank("\U{3000}\U{2003}\t\n")
    ensures !IsBlank(" a ")
  {
    assert !IsSpace(" a "[1]);
  }
}
