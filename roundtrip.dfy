/**
 * Building a tools document and importing it again. The importer reads back
 * what the builder writes, except where the builder drops or converts a
 * value: an empty type becomes `string`, an empty `enum`, an empty-string
 * constraint and an array option of a non-array are dropped, numeric
 * constraints pass through `Number(...)`, and the nested parameters are keyed
 * by the name they are stored under. `Normalized` states exactly that, and
 * a parameter already in that form comes back unchanged.
 */
module RoundTrip {
  import opened Wrappers
  import opened Json
  import opened Params
  import opened Builder
  import opened Importer
  import Validator

  /** What importing the fragment of `p`, stored under `key` with flag
      `req`, gives back. */
  function Normalized(p: Param, key: string, req: bool): Param
    decreases p, 1
  {
    var isArray := p.paramType == "array";
    Param(
      key,
      if p.paramType == "" then "string" else p.paramType,
      p.description,
      req,
      if p.enumValues.Some? && HasElements(p.enumValues.value) then p.enumValues else None,
      if Given(p.defaultValue) then p.defaultValue else None,
      NumberOf(p.minimum),
      NumberOf(p.maximum),
      if Present(p.pattern) then p.pattern else None,
      NumberOf(p.minLength),
      NumberOf(p.maxLength),
      if isArray && Present(p.items) then p.items else None,
      if isArray then NumberOf(p.minItems) else None,
      if isArray then NumberOf(p.maxItems) else None,
      NormalizedProperties(p))
  }

  /** The nested properties read back: only an object keeps them, each
      entry normalized under its own name with its own flag. */
  function NormalizedProperties(p: Param): Properties
    decreases p, 0
  {
    match p.properties
    case NoProperties => NoProperties
    case Properties(es) =>
      if p.paramType != "object" then NoProperties
      else Properties(seq(|es|, i requires 0 <= i < |es| => (es[i].0, Normalized(es[i].1, es[i].0, es[i].1.required))))
  }

  /** The `required` member of an object fragment with entries `es`. */
  function RequiredList(names: seq<string>): Option<Json>
  {
    if |names| > 0 then Some(StrArray(names)) else None
  }

  /** A key is found in a `required` list exactly when it is listed. */
  lemma IncludesListed(names: seq<string>, k: string)
    ensures Includes(RequiredList(names), k) == Ok(k in names)
  {
    if |names| > 0 {
      var elems := StrArray(names).elems;
      if k in names {
        var i :| 0 <= i < |names| && names[i] == k;
        assert elems[i] == Str(k);
      }
      if Str(k) in elems {
        var i :| 0 <= i < |elems| && elems[i] == Str(k);
        assert names[i] == k;
      }
    }
  }

  /** `schema` has the members the builder gives the fragment of `p`:
      the annotations, the bounds, the array members, and for an object
      parameter a `properties` object whose members have, in order, the
      names and the members of the fragments of its entries. */
  predicate Reads(p: Param, schema: Json)
    decreases p, 1
  {
    AnnotationsOf(p, schema) && BoundsOf(p, schema) && ArrayOf(p, schema) && ObjectOf(p, schema)
  }

  predicate AnnotationsOf(p: Param, schema: Json)
  {
    && Get(schema, "type") == Some(Str(p.paramType))
    && Get(schema, "description") == (if p.description != "" then Some(Str(p.description)) else None)
    && Get(schema, "enum") == (if p.enumValues.Some? && HasElements(p.enumValues.value) then p.enumValues else None)
    && Get(schema, "default") == (if Given(p.defaultValue) then p.defaultValue else None)
  }

  predicate BoundsOf(p: Param, schema: Json)
  {
    && Get(schema, "minimum") == NumberOf(p.minimum)
    && Get(schema, "maximum") == NumberOf(p.maximum)
    && Get(schema, "pattern") == (if Present(p.pattern) then p.pattern else None)
    && Get(schema, "minLength") == NumberOf(p.minLength)
    && Get(schema, "maxLength") == NumberOf(p.maxLength)
  }

  predicate ArrayOf(p: Param, schema: Json)
  {
    var isArray := p.paramType == "array";
    && Get(schema, "type") == Some(Str(p.paramType))
    && Get(schema, "items") == (if isArray && Present(p.items) then Some(ItemsSchema(p.items.value)) else None)
    && Get(schema, "minItems") == (if isArray then NumberOf(p.minItems) else None)
    && Get(schema, "maxItems") == (if isArray then NumberOf(p.maxItems) else None)
  }

  predicate ObjectOf(p: Param, schema: Json)
    decreases p, 0
  {
    && Get(schema, "type") == Some(Str(p.paramType))
    && if p.paramType == "object" && p.properties.Properties? then
         var es := p.properties.entries;
         var props := Get(schema, "properties");
         && props.Some? && props.value.Obj? && |props.value.fields| == |es|
         && (forall j :: 0 <= j < |es| ==> props.value.fields[j].0 == es[j].0 && Reads(es[j].1, props.value.fields[j].1))
         && Get(schema, "required") == RequiredList(RequiredNames(es))
       else
         Get(schema, "properties") == None
  }

  /** The fragment of a well-keyed `p` has the members `Reads` lists. */
  lemma FragmentReads(p: Param)
    requires WellKeyed(p)
    ensures Reads(p, PropertySchema(p))
    decreases p, 2
  {
    FragmentAnnotations(p);
    FragmentBounds(p);
    FragmentArray(p);
    FragmentObject(p);
  }

  lemma FragmentAnnotations(p: Param)
    ensures AnnotationsOf(p, PropertySchema(p))
  {
    PropertySchemaRead(p, "type");
    PropertySchemaRead(p, "description");
    PropertySchemaRead(p, "enum");
    PropertySchemaRead(p, "default");
  }

  lemma FragmentBounds(p: Param)
    ensures BoundsOf(p, PropertySchema(p))
  {
    PropertySchemaRead(p, "minimum");
    PropertySchemaRead(p, "maximum");
    PropertySchemaRead(p, "pattern");
    PropertySchemaRead(p, "minLength");
    PropertySchemaRead(p, "maxLength");
  }

  lemma FragmentArray(p: Param)
    ensures ArrayOf(p, PropertySchema(p))
  {
    PropertySchemaRead(p, "type");
    PropertySchemaRead(p, "items");
    PropertySchemaRead(p, "minItems");
    PropertySchemaRead(p, "maxItems");
  }

  lemma FragmentObject(p: Param)
    requires WellKeyed(p)
    ensures ObjectOf(p, PropertySchema(p))
    decreases p, 1
  {
    var schema := PropertySchema(p);
    FragmentObjectMembers(p);
    if p.paramType == "object" && p.properties.Properties? {
      var es := p.properties.entries;
      var schemas := NestedSchemas(p);
      assert Get(schema, "properties") == Some(Obj(schemas)) by {
        assert forall i :: 0 <= i < |es| ==> schemas[i].0 == es[i].0;
        AssignDistinct(schemas);
      }
      assert Get(schema, "required") == RequiredList(RequiredNames(es));
      NestedFragmentsRead(p);
    }
  }

  lemma FragmentObjectMembers(p: Param)
    ensures var isObject := p.paramType == "object" && p.properties.Properties?;
      && Get(PropertySchema(p), "type") == Some(Str(p.paramType))
      && Get(PropertySchema(p), "properties") == (if isObject then Some(Obj(Assign(NestedSchemas(p)))) else None)
      && Get(PropertySchema(p), "required") == (if isObject then RequiredList(RequiredNames(NestedEntries(p))) else None)
  {
    PropertySchemaRead(p, "type");
    PropertySchemaRead(p, "properties");
    PropertySchemaRead(p, "required");
  }

  /** The nested fragments of a well-keyed object parameter have the names
      and the members of the fragments of its entries. */
  lemma NestedFragmentsRead(p: Param)
    requires WellKeyed(p) && p.properties.Properties?
    ensures var es, schemas := p.properties.entries, NestedSchemas(p);
      |schemas| == |es| && forall j :: 0 <= j < |es| ==> schemas[j].0 == es[j].0 && Reads(es[j].1, schemas[j].1)
    decreases p, 0
  {
    var es := p.properties.entries;
    forall j | 0 <= j < |es|
      ensures Reads(es[j].1, NestedSchemas(p)[j].1)
    {
      FragmentReads(es[j].1);
    }
  }

  /** The plain members of a parameter survive as `Normalized` says. */
  lemma ScalarRoundTrip(p: Param, schema: Json, key: string, req: bool)
    requires Reads(p, schema)
    ensures ScalarParam(key, schema, req) == Normalized(p, key, req).(properties := NoProperties)
  {
    AnnotationsRoundTrip(p, schema, key, req);
    BoundsRoundTrip(p, schema, key, req);
    ArrayRoundTrip(p, schema, key, req);
  }

  lemma AnnotationsRoundTrip(p: Param, schema: Json, key: string, req: bool)
    requires AnnotationsOf(p, schema)
    ensures var q := ScalarParam(key, schema, req);
      var n := Normalized(p, key, req);
      q.key == n.key && q.paramType == n.paramType && q.description == n.description && q.required == n.required
      && q.enumValues == n.enumValues && q.defaultValue == n.defaultValue
  {
  }

  lemma BoundsRoundTrip(p: Param, schema: Json, key: string, req: bool)
    requires BoundsOf(p, schema)
    ensures var q := ScalarParam(key, schema, req);
      var n := Normalized(p, key, req);
      q.minimum == n.minimum && q.maximum == n.maximum && q.pattern == n.pattern
      && q.minLength == n.minLength && q.maxLength == n.maxLength
  {
  }

  lemma ArrayRoundTrip(p: Param, schema: Json, key: string, req: bool)
    requires ArrayOf(p, schema)
    ensures var q := ScalarParam(key, schema, req);
      var n := Normalized(p, key, req);
      q.items == n.items && q.minItems == n.minItems && q.maxItems == n.maxItems
  {
  }

  /** A well-keyed parameter is imported from its fragment as `Normalized`
      says. */
  lemma ParamRoundTrip(p: Param, key: string, req: bool)
    requires WellKeyed(p)
    ensures ParamOf(key, PropertySchema(p), req) == Ok(Normalized(p, key, req))
  {
    FragmentReads(p);
    ParamFromReads(p, PropertySchema(p), key, req);
  }

  /** A schema with the members of the fragment of `p` is imported as
      `Normalized` says. */
  lemma {:induction false} ParamFromReads(p: Param, schema: Json, key: string, req: bool)
    requires WellKeyed(p) && Reads(p, schema)
    ensures ParamOf(key, schema, req) == Ok(Normalized(p, key, req))
    decreases p, 2
  {
    ScalarRoundTrip(p, schema, key, req);
    PropertiesFromReads(p, schema);
  }

  /** The nested properties of such a schema are imported as
      `NormalizedProperties` says. */
  lemma {:induction false} PropertiesFromReads(p: Param, schema: Json)
    requires WellKeyed(p) && Reads(p, schema)
    ensures PropertiesOf(schema) == Ok(NormalizedProperties(p))
    decreases p, 1
  {
    if p.paramType == "object" && p.properties.Properties? {
      var es := p.properties.entries;
      var props := Get(schema, "properties").value;
      var required := RequiredList(RequiredNames(es));
      var parsed := NormalizedProperties(p).entries;
      assert EntriesOf(props, required, |Entries(props)|) == Ok(parsed) by {
        EntriesFromReads(p, props, required, |es|);
        assert parsed[..|es|] == parsed;
      }
      assert Assign(parsed) == parsed by {
        assert forall i :: 0 <= i < |es| ==> parsed[i].0 == es[i].0;
        AssignDistinct(parsed);
      }
      PropertiesOfObject(schema, props, required, parsed);
    }
  }

  /** Entry by entry, an object whose members have the names and the
      members of the fragments of the entries of a well-keyed object
      parameter is imported as its normalized entries. */
  lemma {:induction false} EntriesFromReads(p: Param, props: Json, required: Option<Json>, n: nat)
    requires WellKeyed(p) && p.paramType == "object" && p.properties.Properties?
    requires required == RequiredList(RequiredNames(p.properties.entries))
    requires props.Obj? && |props.fields| == |p.properties.entries|
    requires forall j :: 0 <= j < |props.fields| ==> props.fields[j].0 == p.properties.entries[j].0
    requires forall j {:trigger Reads(p.properties.entries[j].1, props.fields[j].1)} :: 0 <= j < |props.fields| ==>
      Reads(p.properties.entries[j].1, props.fields[j].1)
    requires n <= |p.properties.entries|
    ensures EntriesOf(props, required, n) == Ok(NormalizedProperties(p).entries[..n])
    decreases p, 0, n
  {
    if n > 0 {
      var es := p.properties.entries;
      var entry := es[n - 1];
      var child := props.fields[n - 1].1;
      var q := Normalized(entry.1, entry.0, entry.1.required);
      EntriesFromReads(p, props, required, n - 1);
      assert Includes(required, entry.0) == Ok(entry.1.required) by {
        IncludesListed(RequiredNames(es), entry.0);
        assert DistinctKeys(es);
        RequiredFlag(es, n - 1);
      }
      assert ParamOf(entry.0, child, entry.1.required) == Ok(q) by {
        assert WellKeyed(entry.1) && Reads(entry.1, child);
        ParamFromReads(entry.1, child, entry.0, entry.1.required);
      }
      EntriesOfStep(props, required, n, NormalizedProperties(p).entries, entry.0, child, entry.1.required, q);
    }
  }

  /** In an object with distinct names, a name is listed as required exactly
      when its entry is flagged. */
  lemma RequiredFlag(es: seq<(string, Param)>, j: nat)
    requires DistinctKeys(es) && j < |es|
    ensures es[j].0 in RequiredNames(es) <==> es[j].1.required
  {
    RequiredNamesMembers(es);
  }

  // ---------------------------------------------------------------------
  // Whole documents

  /** The parameters read back from the `parameters` of a function. */
  function NormalizedParams(ps: seq<Param>): seq<Param>
  {
    seq(|ps|, i requires 0 <= i < |ps| => Normalized(ps[i], ps[i].key, ps[i].required))
  }

  /** The function read back from its tool. */
  function NormalizedFunction(f: FunctionDef): FunctionDef
  {
    FunctionDef(f.name, f.description, NormalizedParams(f.params))
  }

  /** A function whose tool can be read back: its parameter keys are
      distinct, and so are the nested names of every parameter. */
  predicate Importable(f: FunctionDef)
  {
    DistinctParamKeys(f.params) && forall j :: 0 <= j < |f.params| ==> WellKeyed(f.params[j])
  }

  /** A key is found in the `required` list of a `parameters` object exactly
      when its parameter is flagged. */
  lemma RequiredKeyFlag(ps: seq<Param>, j: nat)
    requires DistinctParamKeys(ps) && j < |ps|
    ensures Includes(RequiredList(RequiredKeys(ps)), ps[j].key) == Ok(ps[j].required)
  {
    DistinctParamKeysPairwise(ps);
    RequiredKeysMembers(ps);
    IncludesListed(RequiredKeys(ps), ps[j].key);
  }

  /** The `[key, parameter]` entries read back from the `properties` of a
      `parameters` object. */
  function NormalizedEntries(ps: seq<Param>): seq<(string, Param)>
  {
    seq(|ps|, i requires 0 <= i < |ps| => (ps[i].key, Normalized(ps[i], ps[i].key, ps[i].required)))
  }

  /** The property fragments of the parameters, in order, each with the
      members of its parameter's fragment. */
  lemma ParamReads(ps: seq<Param>)
    requires forall j :: 0 <= j < |ps| ==> WellKeyed(ps[j])
    ensures var schemas := ParamSchemas(ps);
      |schemas| == |ps| && forall j :: 0 <= j < |ps| ==> schemas[j].0 == ps[j].key && Reads(ps[j], schemas[j].1)
  {
    forall j | 0 <= j < |ps|
      ensures Reads(ps[j], ParamSchemas(ps)[j].1)
    {
      FragmentReads(ps[j]);
    }
  }

  /** Entry by entry, an object whose members are the property fragments of
      the parameters is imported as the normalized parameters. */
  lemma {:induction false} ParamEntriesFromReads(ps: seq<Param>, props: Json, n: nat)
    requires DistinctParamKeys(ps) && forall j :: 0 <= j < |ps| ==> WellKeyed(ps[j])
    requires props.Obj? && |props.fields| == |ps|
    requires forall j :: 0 <= j < |ps| ==> props.fields[j].0 == ps[j].key
    requires forall j {:trigger Reads(ps[j], props.fields[j].1)} :: 0 <= j < |ps| ==> Reads(ps[j], props.fields[j].1)
    requires n <= |ps|
    ensures EntriesOf(props, RequiredList(RequiredKeys(ps)), n) == Ok(NormalizedEntries(ps)[..n])
  {
    if n > 0 {
      var q := ps[n - 1];
      var child := props.fields[n - 1].1;
      var required := RequiredList(RequiredKeys(ps));
      var r := Normalized(q, q.key, q.required);
      var all := NormalizedEntries(ps);
      assert EntriesOf(props, required, n - 1) == Ok(all[..n - 1]) by {
        ParamEntriesFromReads(ps, props, n - 1);
      }
      assert Includes(required, q.key) == Ok(q.required) by {
        RequiredKeyFlag(ps, n - 1);
      }
      assert ParamOf(q.key, child, q.required) == Ok(r) by {
        ParamFromReads(q, child, q.key, q.required);
      }
      EntriesOfStep(props, required, n, all, q.key, child, q.required, r);
    }
  }

  /** The `properties` and `required` members of a `parameters` object. */
  lemma ParametersSchemaReads(ps: seq<Param>)
    ensures Get(ParametersSchema(ps), "properties") == Some(Obj(Assign(ParamSchemas(ps))))
    ensures Get(ParametersSchema(ps), "required") == RequiredList(RequiredKeys(ps))
  {
    var base := [("type", Str("object")), ("properties", Obj(Assign(ParamSchemas(ps))))];
    var required := RequiredList(RequiredKeys(ps));
    assert base[1..] == [("properties", Obj(Assign(ParamSchemas(ps))))] && base[1..][1..] == [];
    assert Lookup(base[1..], "required") == None;
    LookupWith(base, "required", required, "properties");
    LookupWith(base, "required", required, "required");
  }

  /** `parameters` is an object whose `properties` hold one fragment per
      parameter, under its key and in parameter order; `required` is there
      exactly when some parameter is required. */
  lemma ParametersShape(ps: seq<Param>)
    requires DistinctParamKeys(ps)
    ensures Get(ParametersSchema(ps), "type") == Some(Str("object"))
    ensures Get(ParametersSchema(ps), "properties") == Some(Obj(ParamSchemas(ps)))
    ensures |ParamSchemas(ps)| == |ps| &&
      forall j :: 0 <= j < |ps| ==> ParamSchemas(ps)[j] == (ps[j].key, PropertySchema(ps[j]))
    ensures Get(ParametersSchema(ps), "required").Some? <==> exists j :: 0 <= j < |ps| && ps[j].required
  {
    var schemas := ParamSchemas(ps);
    var base := [("type", Str("object")), ("properties", Obj(Assign(schemas)))];
    assert Get(ParametersSchema(ps), "type") == Some(Str("object")) by {
      LookupWith(base, "required", RequiredList(RequiredKeys(ps)), "type");
    }
    assert Assign(schemas) == schemas by {
      ParamSchemasDistinct(ps);
      AssignDistinct(schemas);
    }
    ParametersSchemaReads(ps);
    RequiredListed(ps);
  }

  /** Assigning members in turn keeps the names in the order of their first
      assignment, each once. */
  lemma {:induction false} AssignKeys(fields: Fields)
    ensures Keys(Assign(fields)) == Validator.Dedup(Keys(fields))
  {
    if |fields| > 0 {
      var init := fields[..|fields| - 1];
      var last := fields[|fields| - 1];
      AssignKeys(init);
      KeysPut(Assign(init), last.0, last.1);
      Validator.DedupMembers(Keys(init));
      assert Keys(fields)[..|fields| - 1] == Keys(init);
    }
  }

  /** For any parameters, repeated keys included: `properties` has one
      member per distinct key, in the order in which the keys first occur,
      and the member under a key is the fragment of the last parameter with
      that key. */
  lemma ParametersProperties(ps: seq<Param>)
    ensures var props := Get(ParametersSchema(ps), "properties");
      && props.Some? && props.value.Obj?
      && Keys(props.value.fields) == Validator.Dedup(ParamKeys(ps))
      && forall j :: 0 <= j < |ps| && (forall l :: j < l < |ps| ==> ps[l].key != ps[j].key) ==>
        Lookup(props.value.fields, ps[j].key) == Some(PropertySchema(ps[j]))
  {
    var schemas := ParamSchemas(ps);
    ParametersSchemaReads(ps);
    assert Keys(schemas) == ParamKeys(ps);
    AssignKeys(schemas);
    forall j | 0 <= j < |ps| && (forall l :: j < l < |ps| ==> ps[l].key != ps[j].key)
      ensures Lookup(Assign(schemas), ps[j].key) == Some(PropertySchema(ps[j]))
    {
      AssignLookup(schemas, ps[j].key);
      LastLookupAt(schemas, j);
    }
  }

  /** Two parameters with the same key share one member of `properties`:
      the later fragment replaces the earlier one, so an import of the
      document finds one parameter where the function had two. */
  lemma RepeatedKeyKeepsLast(p: Param, q: Param)
    requires p.key == q.key
    ensures Get(ParametersSchema([p, q]), "properties") == Some(Obj([(q.key, PropertySchema(q))]))
  {
    ParametersSchemaReads([p, q]);
    var schemas := ParamSchemas([p, q]);
    var first := [(p.key, PropertySchema(p))];
    assert schemas[..1] == first && first[..0] == [];
    assert Assign(first) == first;
    assert |schemas| == 2 && schemas[1] == (q.key, PropertySchema(q));
    assert Assign(schemas) == Put(first, q.key, PropertySchema(q));
    assert first[1..] == [];
    assert Put(first, q.key, PropertySchema(q)) == [(q.key, PropertySchema(q))];
  }

  /** Some parameter is required exactly when the collected `required` list
      is non-empty, so that the member is emitted. */
  lemma RequiredListed(ps: seq<Param>)
    ensures RequiredList(RequiredKeys(ps)).Some? <==> exists j :: 0 <= j < |ps| && ps[j].required
  {
    var keys := RequiredKeys(ps);
    RequiredKeysMembers(ps);
    if |keys| > 0 {
      assert keys[0] in keys;
    }
    if exists j :: 0 <= j < |ps| && ps[j].required {
      var j :| 0 <= j < |ps| && ps[j].required;
      assert ps[j].key in keys;
    }
  }

  /** The property fragments of parameters with distinct keys are imported
      as the normalized parameters, each under its key. */
  lemma ParamSchemasImported(ps: seq<Param>)
    requires DistinctParamKeys(ps) && forall j :: 0 <= j < |ps| ==> WellKeyed(ps[j])
    ensures var schemas := Obj(ParamSchemas(ps));
      EntriesOf(schemas, RequiredList(RequiredKeys(ps)), |Entries(schemas)|) == Ok(NormalizedEntries(ps))
  {
    var all := NormalizedEntries(ps);
    ParamReads(ps);
    ParamEntriesFromReads(ps, Obj(ParamSchemas(ps)), |ps|);
    assert all[..|ps|] == all;
  }

  /** The `parameters` object of a function with parameters is imported as
      the normalized parameters, in order. */
  lemma ParametersRoundTrip(ps: seq<Param>)
    requires |ps| > 0 && DistinctParamKeys(ps) && forall j :: 0 <= j < |ps| ==> WellKeyed(ps[j])
    ensures ParametersOf(ParametersSchema(ps)) == Ok(NormalizedParams(ps))
  {
    var schemas := ParamSchemas(ps);
    var required := RequiredList(RequiredKeys(ps));
    var all := NormalizedEntries(ps);
    assert Get(ParametersSchema(ps), "properties") == Some(Obj(schemas)) by {
      ParametersSchemaReads(ps);
      ParamSchemasDistinct(ps);
      AssignDistinct(schemas);
    }
    assert Get(ParametersSchema(ps), "required") == required by {
      ParametersSchemaReads(ps);
    }
    ParamSchemasImported(ps);
    assert ParametersOf(ParametersSchema(ps)) == Ok(Values(all)) by {
      ParametersOfEntries(ParametersSchema(ps), Obj(schemas), required, all);
    }
    assert Values(all) == NormalizedParams(ps);
  }

  /** The members of a tool and of its `function` object. */
  lemma ToolReads(f: FunctionDef)
    ensures Get(Tool(f), "type") == Some(Str("function"))
    ensures Get(Tool(f), "function") == Some(Obj(FunctionMembers(f)))
    ensures Get(Obj(FunctionMembers(f)), "name") == Some(Str(f.name))
    ensures Get(Obj(FunctionMembers(f)), "description") == if f.description != "" then Some(Str(f.description)) else None
    ensures Get(Obj(FunctionMembers(f)), "parameters") == if |f.params| > 0 then Some(ParametersSchema(f.params)) else None
  {
    var description := if f.description != "" then Some(Str(f.description)) else None;
    var parameters := if |f.params| > 0 then Some(ParametersSchema(f.params)) else None;
    var m0 := [("name", Str(f.name))];
    var m1 := With(m0, "description", description);
    var tool := Tool(f).fields;
    assert tool[1..] == [("function", Obj(FunctionMembers(f)))];
    assert Lookup(tool[1..], "function") == Some(Obj(FunctionMembers(f)));
    LookupWith(m0, "description", description, "name");
    LookupWith(m0, "description", description, "description");
    LookupWith(m0, "description", description, "parameters");
    LookupWith(m1, "parameters", parameters, "name");
    LookupWith(m1, "parameters", parameters, "description");
    LookupWith(m1, "parameters", parameters, "parameters");
  }

  /** `generateToolsJSON` gives one tool per function, in order: tool `i`
      is a function tool named like function `i` (even when that name is
      empty), with a description exactly when the function has one and
      parameters exactly when it has any. */
  lemma GeneratedDocument(fs: seq<FunctionDef>)
    ensures ToolsDocument(fs).Arr? && |ToolsDocument(fs).elems| == |fs|
    ensures forall i :: 0 <= i < |fs| ==>
      var tool := ToolsDocument(fs).elems[i];
      && Get(tool, "type") == Some(Str("function"))
      && Get(tool, "function").Some?
      && Get(Get(tool, "function").value, "name") == Some(Str(fs[i].name))
      && (Get(Get(tool, "function").value, "description").Some? <==> fs[i].description != "")
      && (Get(Get(tool, "function").value, "parameters").Some? <==> |fs[i].params| > 0)
  {
    forall i | 0 <= i < |fs|
      ensures var tool := ToolsDocument(fs).elems[i];
        && Get(tool, "type") == Some(Str("function"))
        && Get(tool, "function").Some?
        && Get(Get(tool, "function").value, "name") == Some(Str(fs[i].name))
        && (Get(Get(tool, "function").value, "description").Some? <==> fs[i].description != "")
        && (Get(Get(tool, "function").value, "parameters").Some? <==> |fs[i].params| > 0)
    {
      ToolReads(fs[i]);
    }
  }

  /** The tool of an importable function is read back as its normalized
      function, whatever its position. */
  lemma ToolRoundTrip(f: FunctionDef, idx: nat)
    requires Importable(f)
    ensures OpenAIToolOf(Tool(f), idx) == Ok(NormalizedFunction(f))
  {
    ToolReads(f);
    OpenAIToolOfFunction(Tool(f), idx, Obj(FunctionMembers(f)));
    if |f.params| > 0 {
      ParametersRoundTrip(f.params);
    } else {
      assert NormalizedParams(f.params) == [];
    }
  }

  /** Tool by tool, a generated document is read back in order. */
  lemma {:induction false} GeneratedFunctions(fs: seq<FunctionDef>, n: nat)
    requires forall i :: 0 <= i < |fs| ==> Importable(fs[i])
    requires n <= |fs|
    ensures FunctionsOf(OpenAI, ToolsDocument(fs).elems, n) == Ok(NormalizedFunctions(fs)[..n])
  {
    if n > 0 {
      var all := NormalizedFunctions(fs);
      var tools := ToolsDocument(fs).elems;
      assert FunctionsOf(OpenAI, tools, n - 1) == Ok(all[..n - 1]) by {
        GeneratedFunctions(fs, n - 1);
      }
      assert ToolOf(OpenAI, tools[n - 1], n - 1) == Ok(all[n - 1]) by {
        assert tools[n - 1] == Tool(fs[n - 1]);
        ToolRoundTrip(fs[n - 1], n - 1);
      }
      FunctionsOfStep(OpenAI, tools, n, all);
    }
  }

  /** The functions read back from a generated document. */
  function NormalizedFunctions(fs: seq<FunctionDef>): seq<FunctionDef>
  {
    seq(|fs|, i requires 0 <= i < |fs| => NormalizedFunction(fs[i]))
  }

  /** Importing the document `generateToolsJSON` builds from a non-empty
      list of importable functions gives back, in order, each function's
      name, description and normalized parameters. */
  lemma ImportGenerated(fs: seq<FunctionDef>)
    requires |fs| > 0 && forall i :: 0 <= i < |fs| ==> Importable(fs[i])
    ensures ImportTools(ToolsDocument(fs)) == Ok(NormalizedFunctions(fs))
  {
    var doc := ToolsDocument(fs);
    assert doc.elems[0] == Tool(fs[0]);
    ToolReads(fs[0]);
    GeneratedFunctions(fs, |fs|);
    assert NormalizedFunctions(fs)[..|fs|] == NormalizedFunctions(fs);
  }
}

