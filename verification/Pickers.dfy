/**
Weighted selection, in the two ways the traffic generator does it: subtracting
weights from a roll until it is used up, and comparing the roll with running
totals. Arithmetic is exact.
*/
module Pickers {
  import opened Common

  function Prefix(ws: seq<real>, k: nat): real
    requires k <= |ws|
  {
    if k == 0 then 0.0 else Prefix(ws, k - 1) + ws[k - 1]
  }

  function Total(ws: seq<real>): real { Prefix(ws, |ws|) }

  /** Item i is the first whose running total reaches the roll. */
  predicate Owns(ws: seq<real>, roll: real, i: nat) {
    && i < |ws|
    && roll <= Prefix(ws, i + 1)
    && forall j :: 1 <= j <= i ==> Prefix(ws, j) < roll
  }

  predicate Positive(ws: seq<real>) { forall i :: 0 <= i < |ws| ==> ws[i] > 0.0 }

  /** The journey picker: the fallback is the first item. */
  method PickBySubtracting(ws: seq<real>, roll: real) returns (i: nat)
    requires ws != []
    ensures Owns(ws, roll, i) || (i == 0 && forall j :: 1 <= j <= |ws| ==> Prefix(ws, j) < roll)
  {
    var r := roll;
    for k := 0 to |ws|
      invariant r == roll - Prefix(ws, k)
      invariant forall j :: 1 <= j <= k ==> Prefix(ws, j) < roll
    {
      r := r - ws[k];
      if r <= 0.0 { return k; }
    }
    return 0;
  }

  /** The action picker: the fallback is the last item. */
  method PickByAccumulating(ws: seq<real>, roll: real) returns (i: nat)
    requires ws != []
    ensures Owns(ws, roll, i) || (i == |ws| - 1 && forall j :: 1 <= j <= |ws| ==> Prefix(ws, j) < roll)
  {
    var cumulative := 0.0;
    for k := 0 to |ws|
      invariant cumulative == Prefix(ws, k)
      invariant forall j :: 1 <= j <= k ==> Prefix(ws, j) < roll
    {
      cumulative := cumulative + ws[k];
      if roll <= cumulative { return k; }
    }
    return |ws| - 1;
  }

  /** For every weight list and every roll that does not exceed the total both
      pickers choose the one owner of the roll: neither falls back. */
  lemma PickersAgree(ws: seq<real>, roll: real, a: nat, b: nat)
    requires ws != [] && roll <= Total(ws)
    requires Owns(ws, roll, a) || (a == 0 && forall j :: 1 <= j <= |ws| ==> Prefix(ws, j) < roll)
    requires Owns(ws, roll, b) || (b == |ws| - 1 && forall j :: 1 <= j <= |ws| ==> Prefix(ws, j) < roll)
    ensures a == b && Owns(ws, roll, a)
  {
    assert Prefix(ws, |ws|) == Total(ws);
    assert Owns(ws, roll, a) && Owns(ws, roll, b);
    var upToA, upToB := Prefix(ws, a + 1), Prefix(ws, b + 1);
  }

  lemma {:induction false} PrefixGrows(ws: seq<real>, a: nat, b: nat)
    requires Positive(ws) && a <= b <= |ws|
    ensures Prefix(ws, a) <= Prefix(ws, b)
    ensures a < b ==> Prefix(ws, a) < Prefix(ws, b)
  {
    if a < b { PrefixGrows(ws, a, b - 1); }
  }

  /** With positive weights item i owns exactly the rolls above the total before
      it and up to the total with it, an interval as long as its weight; the
      first item owns the roll zero too. */
  lemma OwnsItsInterval(ws: seq<real>, roll: real, i: nat)
    requires Positive(ws) && i < |ws| && roll >= 0.0
    ensures Owns(ws, roll, i) <==>
            (Prefix(ws, i) < roll || (i == 0 && roll == 0.0)) && roll <= Prefix(ws, i + 1)
    ensures Prefix(ws, i + 1) - Prefix(ws, i) == ws[i]
  {
    if Prefix(ws, i) < roll {
      forall j | 1 <= j <= i ensures Prefix(ws, j) < roll { PrefixGrows(ws, j, i); }
    }
  }

  // ---------- building the action picker ----------

  datatype Action = Action(name: string, weight: real)

  datatype PickerError = NoActions | UnnamedAction | NoPositiveWeight

  datatype Picker = Picker(actions: seq<Action>, totalWeight: real)

  function Weights(actions: seq<Action>): seq<real> {
    seq(|actions|, i requires 0 <= i < |actions| => actions[i].weight)
  }

  /** The actions of positive weight, in order. */
  function Kept(actions: seq<Action>): seq<Action> {
    if actions == [] then []
    else
      var last := actions[|actions| - 1];
      Kept(actions[..|actions| - 1]) + if last.weight <= 0.0 then [] else [last]
  }

  lemma {:induction false} KeptIsPositive(actions: seq<Action>)
    ensures Positive(Weights(Kept(actions)))
    ensures forall a :: a in Kept(actions) <==> a in actions && a.weight > 0.0
  {
    if actions != [] {
      var front, last := actions[..|actions| - 1], actions[|actions| - 1];
      KeptIsPositive(front);
      assert actions == front + [last];
      forall i | 0 <= i < |Kept(actions)| ensures Weights(Kept(actions))[i] > 0.0 {
        if i < |Kept(front)| { assert Weights(Kept(front))[i] > 0.0; }
      }
    }
  }

  lemma {:induction false} PrefixAppends(ws: seq<real>, x: real, k: nat)
    requires k <= |ws|
    ensures Prefix(ws + [x], k) == Prefix(ws, k)
  {
    if k > 0 { PrefixAppends(ws, x, k - 1); }
  }

  method NewActionPicker(actions: seq<Action>) returns (picker: Option<Picker>, error: Option<PickerError>)
    ensures picker.Some? <==> error == None
    ensures error == Some(NoActions) <==> actions == []
    ensures error == Some(UnnamedAction) <==> exists a :: a in actions && a.name == ""
    ensures picker.Some? ==>
      picker.value.actions == Kept(actions) && picker.value.totalWeight == Total(Weights(Kept(actions)))
    ensures error == None <==>
      (forall a :: a in actions ==> a.name != "") && (exists a :: a in actions && a.weight > 0.0)
  {
    if |actions| == 0 { return None, Some(NoActions); }
    var kept: seq<Action>, total := [], 0.0;
    for i := 0 to |actions|
      invariant forall j :: 0 <= j < i ==> actions[j].name != ""
      invariant kept == Kept(actions[..i]) && total == Total(Weights(kept))
    {
      var a := actions[i];
      if a.name == "" { return None, Some(UnnamedAction); }
      assert actions[..i + 1][..i] == actions[..i];
      if a.weight <= 0.0 { continue; }
      assert Weights(kept + [a]) == Weights(kept) + [a.weight];
      PrefixAppends(Weights(kept), a.weight, |kept|);
      kept := kept + [a];
      total := total + a.weight;
    }
    assert actions[..|actions|] == actions;
    KeptIsPositive(actions);
    PrefixGrows(Weights(kept), 0, |kept|);
    if |kept| == 0 || total <= 0.0 { return None, Some(NoPositiveWeight); }
    assert kept[0] in kept;
    return Some(Picker(kept, total)), None;
  }

  /** A roll in the middle of an item's interval. */
  lemma MiddleIsOwned(ws: seq<real>, i: nat)
    requires Positive(ws) && i < |ws|
    ensures var roll := Prefix(ws, i) + ws[i] / 2.0;
      0.0 <= roll < Total(ws) && Owns(ws, roll, i)
  {
    PrefixGrows(ws, 0, i);
    PrefixGrows(ws, i + 1, |ws|);
    OwnsItsInterval(ws, Prefix(ws, i) + ws[i] / 2.0, i);
  }

  /** A picker can pick the action: some roll it can draw belongs to it. */
  ghost predicate Pickable(kept: seq<Action>, a: Action) {
    exists roll: real, i: nat ::
      0.0 <= roll < Total(Weights(kept)) && Owns(Weights(kept), roll, i) && kept[i] == a
  }

  /** The picker that is built can pick exactly the actions the list gives a
      positive weight. */
  lemma PickableExactlyThePositive(actions: seq<Action>, a: Action)
    ensures Pickable(Kept(actions), a) <==> a in actions && a.weight > 0.0
  {
    KeptIsPositive(actions);
    var kept := Kept(actions);
    if a in kept {
      var i: nat :| i < |kept| && kept[i] == a;
      MiddleIsOwned(Weights(kept), i);
    }
  }
}
