/**
 * Component-wise early stopping (component_early_stopping.py): after a backward pass,
 * every trainable parameter whose gradient norm is below a threshold is frozen, and its
 * name is recorded. A parameter is modelled by its name, the norm of its gradient (None
 * when it has no gradient) and its `requires_grad` flag.
 */
module ComponentFreeze {
  import opened Wrappers

  datatype Param = Param(name: string, gradNorm: Option<real>, trainable: bool)

  /** The parameters of a network, in `named_parameters()` order; `Apply` and `Reset`
      change their flags in place. */
  class Model {
    var params: seq<Param>

    constructor (params: seq<Param>)
      ensures this.params == params
    {
      this.params := params;
    }
  }

  /** A parameter freezes when it is trainable, has a gradient, and that gradient's norm is
      strictly below the threshold. */
  predicate FreezesNow(p: Param, threshold: real) {
    p.trainable && p.gradNorm.Some? && p.gradNorm.value < threshold
  }

  /** `apply` on one parameter: only the flag can change, and only from trainable to frozen. */
  function FreezeOne(p: Param, threshold: real): (q: Param)
    ensures q.name == p.name && q.gradNorm == p.gradNorm
    ensures q.trainable <==> p.trainable && !FreezesNow(p, threshold)
  {
    if FreezesNow(p, threshold) then p.(trainable := false) else p
  }

  /** The parameters after one `apply`. */
  function Frozen(ps: seq<Param>, threshold: real): (r: seq<Param>)
    ensures |r| == |ps|
  {
    if |ps| == 0 then []
    else Frozen(ps[..|ps| - 1], threshold) + [FreezeOne(ps[|ps| - 1], threshold)]
  }

  /** The names one `apply` freezes, in parameter order. */
  function NewlyFrozen(ps: seq<Param>, threshold: real): (names: seq<string>)
    ensures |names| <= |ps|
  {
    if |ps| == 0 then []
    else
      var last := ps[|ps| - 1];
      NewlyFrozen(ps[..|ps| - 1], threshold) + (if FreezesNow(last, threshold) then [last.name] else [])
  }

  /** One more parameter, as the loop of `apply` takes them. */
  lemma NewlyFrozenStep(ps: seq<Param>, threshold: real, i: nat)
    requires i < |ps|
    ensures NewlyFrozen(ps[..i + 1], threshold)
      == NewlyFrozen(ps[..i], threshold) + (if FreezesNow(ps[i], threshold) then [ps[i].name] else [])
  {
    assert ps[..i + 1][..i] == ps[..i];
  }

  /** The parameters after `reset`. */
  function Thawed(ps: seq<Param>): (r: seq<Param>)
    ensures |r| == |ps|
  {
    if |ps| == 0 then [] else Thawed(ps[..|ps| - 1]) + [ps[|ps| - 1].(trainable := true)]
  }

  /** Each parameter is frozen on its own: one that freezes loses only its flag, and one
      that is already frozen, has no gradient or has a large gradient is left as it was.
      In particular no parameter is ever unfrozen. */
  lemma {:induction false} FrozenAt(ps: seq<Param>, threshold: real, i: nat)
    requires i < |ps|
    ensures Frozen(ps, threshold)[i] == FreezeOne(ps[i], threshold)
    ensures Frozen(ps, threshold)[i].name == ps[i].name && Frozen(ps, threshold)[i].gradNorm == ps[i].gradNorm
    ensures Frozen(ps, threshold)[i].trainable <==> ps[i].trainable && !FreezesNow(ps[i], threshold)
  {
    if i < |ps| - 1 {
      FrozenAt(ps[..|ps| - 1], threshold, i);
    }
  }

  lemma {:induction false} ThawedAt(ps: seq<Param>, i: nat)
    requires i < |ps|
    ensures Thawed(ps)[i] == ps[i].(trainable := true)
  {
    if i < |ps| - 1 {
      ThawedAt(ps[..|ps| - 1], i);
    }
  }

  /** A name is reported by `apply` exactly when some parameter of that name froze. */
  lemma {:induction false} NewlyFrozenMembers(ps: seq<Param>, threshold: real, n: string)
    ensures n in NewlyFrozen(ps, threshold) <==> exists i :: 0 <= i < |ps| && ps[i].name == n && FreezesNow(ps[i], threshold)
  {
    if |ps| > 0 {
      var init := ps[..|ps| - 1];
      NewlyFrozenMembers(init, threshold, n);
      if n in NewlyFrozen(ps, threshold) {
        if n in NewlyFrozen(init, threshold) {
          var i :| 0 <= i < |init| && init[i].name == n && FreezesNow(init[i], threshold);
          assert ps[i] == init[i];
        }
      } else {
        forall i | 0 <= i < |ps| && ps[i].name == n
          ensures !FreezesNow(ps[i], threshold)
        {
          if i < |init| {
            assert ps[i] == init[i];
          }
        }
      }
    }
  }

  /** A reported name belongs to a parameter that was trainable and is now frozen. */
  lemma NewlyFrozenAreFrozen(ps: seq<Param>, threshold: real, n: string)
    requires n in NewlyFrozen(ps, threshold)
    ensures exists i :: 0 <= i < |ps| && ps[i].name == n && ps[i].trainable && !Frozen(ps, threshold)[i].trainable
  {
    NewlyFrozenMembers(ps, threshold, n);
    var i :| 0 <= i < |ps| && ps[i].name == n && FreezesNow(ps[i], threshold);
    FrozenAt(ps, threshold, i);
  }

  /** A second `apply` with the same gradients freezes nothing and changes nothing. */
  lemma ApplyIsIdempotent(ps: seq<Param>, threshold: real)
    ensures Frozen(Frozen(ps, threshold), threshold) == Frozen(ps, threshold)
    ensures NewlyFrozen(Frozen(ps, threshold), threshold) == []
  {
    var once := Frozen(ps, threshold);
    forall i | 0 <= i < |ps|
      ensures Frozen(once, threshold)[i] == once[i] && !FreezesNow(once[i], threshold)
    {
      FrozenAt(ps, threshold, i);
      FrozenAt(once, threshold, i);
    }
    if NewlyFrozen(once, threshold) != [] {
      var n := NewlyFrozen(once, threshold)[0];
      NewlyFrozenMembers(once, threshold, n);
    }
  }

  predicate DistinctNames(ps: seq<Param>) {
    forall i, j :: 0 <= i < j < |ps| ==> ps[i].name != ps[j].name
  }

  predicate NoDuplicates(names: seq<string>) {
    forall i, j :: 0 <= i < j < |names| ==> names[i] != names[j]
  }

  /** The registry is consistent with the parameters: no name twice, and every recorded
      name belongs to a frozen parameter. */
  predicate Consistent(ps: seq<Param>, registry: seq<string>) {
    && NoDuplicates(registry)
    && forall k :: 0 <= k < |registry| ==>
         exists i :: 0 <= i < |ps| && ps[i].name == registry[k] && !ps[i].trainable
  }

  /** The names one `apply` reports are distinct when the parameter names are. */
  lemma {:induction false} NewlyFrozenDistinct(ps: seq<Param>, threshold: real)
    requires DistinctNames(ps)
    ensures NoDuplicates(NewlyFrozen(ps, threshold))
  {
    if |ps| > 0 {
      var init := ps[..|ps| - 1];
      var last := ps[|ps| - 1];
      NewlyFrozenDistinct(init, threshold);
      NewlyFrozenMembers(init, threshold, last.name);
      forall i | 0 <= i < |init|
        ensures init[i].name != last.name
      {
        assert ps[i] == init[i];
      }
    }
  }

  /** `apply` keeps the registry consistent when parameter names are distinct: what it
      records was trainable, so not yet recorded, and is now frozen. */
  lemma ApplyKeepsRegistryConsistent(ps: seq<Param>, registry: seq<string>, threshold: real)
    requires DistinctNames(ps) && Consistent(ps, registry)
    ensures DistinctNames(Frozen(ps, threshold))
    ensures Consistent(Frozen(ps, threshold), registry + NewlyFrozen(ps, threshold))
  {
    var after := Frozen(ps, threshold);
    var added := NewlyFrozen(ps, threshold);
    var all := registry + added;
    forall i | 0 <= i < |ps|
      ensures after[i].name == ps[i].name
    {
      FrozenAt(ps, threshold, i);
    }
    NewlyFrozenDistinct(ps, threshold);
    forall k | 0 <= k < |registry|
      ensures registry[k] !in added
      ensures exists i :: 0 <= i < |after| && after[i].name == registry[k] && !after[i].trainable
    {
      var i :| 0 <= i < |ps| && ps[i].name == registry[k] && !ps[i].trainable;
      FrozenAt(ps, threshold, i);
      NewlyFrozenMembers(ps, threshold, registry[k]);
      forall j | 0 <= j < |ps| && ps[j].name == registry[k]
        ensures j == i
      {
      }
    }
    forall k | 0 <= k < |added|
      ensures exists i :: 0 <= i < |after| && after[i].name == added[k] && !after[i].trainable
    {
      NewlyFrozenAreFrozen(ps, threshold, added[k]);
      var i :| 0 <= i < |ps| && ps[i].name == added[k] && ps[i].trainable && !after[i].trainable;
      FrozenAt(ps, threshold, i);
    }
    forall a, b | 0 <= a < b < |all|
      ensures all[a] != all[b]
    {
      if a < |registry| && b >= |registry| {
        assert all[b] == added[b - |registry|];
      } else if a >= |registry| {
        assert all[a] == added[a - |registry|] && all[b] == added[b - |registry|];
      }
    }
    forall k | 0 <= k < |all|
      ensures exists i :: 0 <= i < |after| && after[i].name == all[k] && !after[i].trainable
    {
      if k >= |registry| {
        assert all[k] == added[k - |registry|];
      } else {
        assert all[k] == registry[k];
      }
    }
  }

  /** After `reset` every parameter is trainable again, keeps its name and gradient, and
      the empty registry is consistent. */
  lemma ResetThawsEverything(ps: seq<Param>)
    ensures forall i :: 0 <= i < |ps| ==> Thawed(ps)[i].trainable && Thawed(ps)[i].name == ps[i].name && Thawed(ps)[i].gradNorm == ps[i].gradNorm
    ensures Consistent(Thawed(ps), [])
  {
    forall i | 0 <= i < |ps|
      ensures Thawed(ps)[i].trainable && Thawed(ps)[i].name == ps[i].name && Thawed(ps)[i].gradNorm == ps[i].gradNorm
    {
      ThawedAt(ps, i);
    }
  }

  /** `ComponentEarlyStopping`: a model, a threshold, and the names it has frozen so far. */
  class ComponentEarlyStopping {
    const model: Model
    const threshold: real
    var frozenParams: seq<string>

    constructor (model: Model, threshold: real := 0.001)
      ensures this.model == model && this.threshold == threshold && frozenParams == []
    {
      this.model := model;
      this.threshold := threshold;
      frozenParams := [];
    }

    /** `apply`: freeze the parameters that converged and return their names, which are
        also appended to the registry. */
    method Apply() returns (newlyFrozen: seq<string>)
      modifies this, model
      ensures model.params == Frozen(old(model.params), threshold)
      ensures newlyFrozen == NewlyFrozen(old(model.params), threshold)
      ensures frozenParams == old(frozenParams) + newlyFrozen
    {
      ghost var ps := model.params;
      newlyFrozen := [];
      for i := 0 to |model.params|
        invariant |model.params| == |ps|
        invariant forall j :: 0 <= j < i ==> model.params[j] == FreezeOne(ps[j], threshold)
        invariant forall j :: i <= j < |ps| ==> model.params[j] == ps[j]
        invariant newlyFrozen == NewlyFrozen(ps[..i], threshold)
        invariant frozenParams == old(frozenParams) + newlyFrozen
      {
        NewlyFrozenStep(ps, threshold, i);
        var param := model.params[i];
        assert param == ps[i];
        if !param.trainable {
          assert FreezeOne(param, threshold) == param;
          continue;
        }
        if param.gradNorm.None? {
          assert FreezeOne(param, threshold) == param;
          continue;
        }
        if param.gradNorm.value < threshold {
          assert FreezeOne(param, threshold) == param.(trainable := false);
          model.params := model.params[i := param.(trainable := false)];
          frozenParams := frozenParams + [param.name];
          newlyFrozen := newlyFrozen + [param.name];
        } else {
          assert FreezeOne(param, threshold) == param;
        }
      }
      forall j | 0 <= j < |ps|
        ensures model.params[j] == Frozen(ps, threshold)[j]
      {
        FrozenAt(ps, threshold, j);
      }
      assert ps[..|ps|] == ps;
    }

    /** `reset`: every parameter is trainable again and the registry is emptied. */
    method Reset()
      modifies this, model
      ensures model.params == Thawed(old(model.params))
      ensures frozenParams == []
    {
      ghost var ps := model.params;
      for i := 0 to |model.params|
        invariant |model.params| == |ps|
        invariant forall j :: 0 <= j < i ==> model.params[j] == ps[j].(trainable := true)
        invariant forall j :: i <= j < |ps| ==> model.params[j] == ps[j]
      {
        var param := model.params[i];
        if !param.trainable {
          model.params := model.params[i := param.(trainable := true)];
        }
      }
      forall j | 0 <= j < |ps|
        ensures model.params[j] == Thawed(ps)[j]
      {
        ThawedAt(ps, j);
      }
      frozenParams := [];
    }

    /** `summary`: a copy of the registry. */
    method Summary() returns (names: seq<string>)
      ensures names == frozenParams
    {
      names := frozenParams;
    }
  }

  /** A controller built without a threshold freezes below a gradient norm of `1e-3`. */
  method NewDefaultController(model: Model) returns (c: ComponentEarlyStopping)
    ensures c.model == model && c.threshold == 0.001 && c.frozenParams == []
  {
    c := new ComponentEarlyStopping(model);
  }
}
