/*
 * Parameters in canonical form: the ones the importer produces. Importing
 * the fragment of a canonical parameter gives it back unchanged, and a
 * document built from canonical functions round-trips exactly.
 */
module Canonical {
  import opened Wrappers
  import opened Json
  import opened Params
  import opened Builder
  import opened Importer
  import opened RoundTrip

  /** A numeric constraint as the importer stores it: absent, or a given
      value that `Number()` leaves unchanged. */
  predicate NumberLike(o: Option<Json>)
  {
    o.None? || (Given(o) && ToNumber(o.value) == o.value)
  }

  /** A parameter already in the form the importer produces: a type, only
      the constraints the builder would emit, array members only on arrays
      and nested properties only on objects, each stored under its own key. */
  predicate Canonical(p: Param)
    decreases p, 1
  {
    && p.paramType != ""
    && (p.enumValues.None? || HasElements(p.enumValues.value))
    && (p.defaultValue.None? || Given(p.defaultValue))
    && NumberLike(p.minimum) && NumberLike(p.maximum)
    && (p.pattern.None? || Present(p.pattern))
    && NumberLike(p.minLength) && NumberLike(p.maxLength)
    && (if p.paramType == "array"
        then (p.items.None? || Present(p.items)) && NumberLike(p.minItems) && NumberLike(p.maxItems)
        else p.items.None? && p.minItems.None? && p.maxItems.None?)
    && CanonicalProperties(p)
  }

  predicate CanonicalProperties(p: Param)
    decreases p, 0
  {
    match p.properties
    case NoProperties => true
    case Properties(es) =>
      && p.paramType == "object"
      && forall i :: 0 <= i < |es| ==> es[i].1.key == es[i].0 && Canonical(es[i].1)
  }

  /** A parameter is in canonical form exactly when importing its fragment
      under its own key and flag gives it back unchanged. */
  lemma CanonicalExactly(p: Param)
    ensures Canonical(p) <==> Normalized(p, p.key, p.required) == p
  {
    if Canonical(p) {
      CanonicalFixed(p);
    }
    NormalizedCanonical(p, p.key, p.required);
  }

  /** Whatever a parameter, what the importer gives back is canonical. */
  lemma {:induction false} NormalizedCanonical(p: Param, key: string, req: bool)
    ensures Canonical(Normalized(p, key, req))
    decreases p
  {
    var n := Normalized(p, key, req);
    match p.properties
    case NoProperties =>
    case Properties(es) =>
      if p.paramType == "object" {
        assert n.properties == NormalizedProperties(p);
        var ns := n.properties.entries;
        forall i | 0 <= i < |ns|
          ensures ns[i].1.key == ns[i].0 && Canonical(ns[i].1)
        {
          NormalizedCanonical(es[i].1, es[i].0, es[i].1.required);
        }
      }
  }

  /** A canonical parameter is a fixed point of `Normalized`. */
  lemma {:induction false} CanonicalFixed(p: Param)
    requires Canonical(p)
    ensures Normalized(p, p.key, p.required) == p
    decreases p
  {
    match p.properties
    case NoProperties =>
    case Properties(es) =>
      var ns := NormalizedProperties(p).entries;
      forall i | 0 <= i < |es|
        ensures ns[i] == es[i]
      {
        CanonicalFixed(es[i].1);
      }
      assert ns == es;
  }

  /** A function whose parameters are all canonical. */
  predicate CanonicalFunction(f: FunctionDef)
  {
    forall j :: 0 <= j < |f.params| ==> Canonical(f.params[j])
  }

  /** A non-empty list of importable functions with canonical parameters
      comes back from its generated document exactly as it was. */
  lemma CanonicalRoundTrip(fs: seq<FunctionDef>)
    requires |fs| > 0
    requires forall i :: 0 <= i < |fs| ==> Importable(fs[i]) && CanonicalFunction(fs[i])
    ensures ImportTools(ToolsDocument(fs)) == Ok(fs)
  {
    ImportGenerated(fs);
    forall i | 0 <= i < |fs|
      ensures NormalizedFunction(fs[i]) == fs[i]
    {
      var ps := fs[i].params;
      forall j | 0 <= j < |ps|
        ensures NormalizedParams(ps)[j] == ps[j]
      {
        CanonicalFixed(ps[j]);
      }
      assert NormalizedParams(ps) == ps;
    }
    assert NormalizedFunctions(fs) == fs;
  }

  /** What any round trip keeps: each function's name and description, and
      for each parameter its key, description and required flag, and its
      type unless that was empty. */
  lemma RoundTripKeeps(fs: seq<FunctionDef>)
    requires |fs| > 0 && forall i :: 0 <= i < |fs| ==> Importable(fs[i])
    ensures ImportTools(ToolsDocument(fs)).Ok?
    ensures var gs := ImportTools(ToolsDocument(fs)).value;
      && |gs| == |fs|
      && forall i :: 0 <= i < |fs| ==>
        && gs[i].name == fs[i].name && gs[i].description == fs[i].description
        && |gs[i].params| == |fs[i].params|
        && forall j :: 0 <= j < |fs[i].params| ==>
          var p, q := fs[i].params[j], gs[i].params[j];
          && q.key == p.key && q.description == p.description && q.required == p.required
          && q.paramType == (if p.paramType == "" then "string" else p.paramType)
  {
    ImportGenerated(fs);
  }
}
