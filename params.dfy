/**
 * The editor's internal model of a tool: a function with a name, a
 * description and an ordered list of parameters. Every optional constraint
 * of a parameter is `None` when it is undefined; the constraints hold raw
 * JSON values because the importer copies them across without looking at
 * their type.
 */
module Params {
  import opened Wrappers
  import opened Json

  datatype Param = Param(
    key: string,
    paramType: string,
    description: string,
    required: bool,
    enumValues: Option<Json>,
    defaultValue: Option<Json>,
    minimum: Option<Json>,
    maximum: Option<Json>,
    pattern: Option<Json>,
    minLength: Option<Json>,
    maxLength: Option<Json>,
    items: Option<Json>,         // the item type `items.type`, as stored
    minItems: Option<Json>,
    maxItems: Option<Json>,
    properties: Properties)

  /** The nested `properties` of an object parameter, in entry order; the
      name of an entry is the key it is stored under. */
  datatype Properties = NoProperties | Properties(entries: seq<(string, Param)>)

  datatype FunctionDef = FunctionDef(name: string, description: string, params: seq<Param>)

  /** The keys of `params`, in order. */
  function ParamKeys(params: seq<Param>): seq<string>
  {
    seq(|params|, i requires 0 <= i < |params| => params[i].key)
  }

  /** No two entries of `ps` share a key. */
  predicate DistinctParamKeys(ps: seq<Param>)
  {
    Distinct(ParamKeys(ps))
  }

  /** Distinct keys, parameter by parameter. */
  lemma DistinctParamKeysPairwise(ps: seq<Param>)
    requires DistinctParamKeys(ps)
    ensures forall i, j :: 0 <= i < j < |ps| ==> ps[i].key != ps[j].key
  {
    var keys := ParamKeys(ps);
    assert forall i :: 0 <= i < |ps| ==> keys[i] == ps[i].key;
  }

  /** No two nested entries share a name, at any depth. */
  predicate WellKeyed(p: Param)
  {
    match p.properties
    case NoProperties => true
    case Properties(es) =>
      DistinctKeys(es) && forall i :: 0 <= i < |es| ==> WellKeyed(es[i].1)
  }
}
