/**
 * The schema builder of `src/schema.js`: one parameter becomes a JSON Schema
 * property fragment (`buildPropertySchema`), and a function list becomes the
 * OpenAI-style tools document (`generateToolsJSON`).
 *
 * Each output object is specified as a fixed list of candidate members, each
 * present or absent; the object holds the present ones in that order.
 */
module Builder {
  import opened Wrappers
  import opened Json
  import opened Params

  /** `if (o is defined) obj[k] = o` for a member `k` the object does not
      hold yet: the member is appended. */
  function With(fields: Fields, k: string, o: Option<Json>): Fields
  {
    if o.Some? then fields + [(k, o.value)] else fields
  }

  /** Reading member `k2` after `With`: a member already there is unchanged,
      otherwise `k2` reads as what `With` assigned. */
  lemma LookupWith(fields: Fields, k: string, o: Option<Json>, k2: string)
    ensures Lookup(With(fields, k, o), k2) ==
      if Lookup(fields, k2).Some? then Lookup(fields, k2) else if k2 == k then o else None
  {
    if o.Some? {
      LookupAppend(fields, (k, o.value), k2);
    }
  }

  /** Appending a member changes only the members not found before. */
  lemma {:induction false} LookupAppend(fields: Fields, m: (string, Json), k: string)
    ensures Lookup(fields + [m], k) == if Lookup(fields, k).Some? then Lookup(fields, k) else if m.0 == k then Some(m.1) else None
  {
    if |fields| > 0 {
      assert (fields + [m])[1..] == fields[1..] + [m];
      LookupAppend(fields[1..], m, k);
    }
  }

  /** `Number(x)` of a constraint that is neither undefined nor `''`. */
  function NumberOf(o: Option<Json>): (r: Option<Json>)
    ensures r.Some? <==> Given(o)
  {
    if Given(o) then Some(ToNumber(o.value)) else None
  }

  /** An array of strings. */
  function StrArray(ks: seq<string>): Json
  {
    Arr(seq(|ks|, i requires 0 <= i < |ks| => Str(ks[i])))
  }

  /** The names of the entries whose `required` flag is set, in entry order. */
  function RequiredNames(es: seq<(string, Param)>): seq<string>
  {
    if |es| == 0 then []
    else (if es[0].1.required then [es[0].0] else []) + RequiredNames(es[1..])
  }

  /** A name is listed exactly when some entry of that name is required. */
  lemma {:induction false} RequiredNamesMembers(es: seq<(string, Param)>)
    ensures forall k :: k in RequiredNames(es) <==> exists i :: 0 <= i < |es| && es[i].0 == k && es[i].1.required
  {
    if |es| > 0 {
      RequiredNamesMembers(es[1..]);
      assert forall i :: 1 <= i < |es| ==> es[i] == es[1..][i - 1];
    }
  }

  /** `{type: t}` for the item type of an array. */
  function ItemsSchema(t: Json): Json
  {
    Obj([("type", t)])
  }

  /** The fragment `buildPropertySchema(p)` returns. */
  function PropertySchema(p: Param): Json
    decreases p, 2
  {
    Obj(SchemaFields(p))
  }

  /** The members of the fragment, the nested properties built recursively. */
  function SchemaFields(p: Param): Fields
    decreases p, 1
  {
    Fragment(p, Assign(NestedSchemas(p)))
  }

  /** The nested entries of `p`, each built recursively and stored under its
      own name. */
  function NestedSchemas(p: Param): Fields
    decreases p, 0
  {
    match p.properties
    case NoProperties => []
    case Properties(es) => seq(|es|, i requires 0 <= i < |es| => (es[i].0, PropertySchema(es[i].1)))
  }

  function NestedEntries(p: Param): seq<(string, Param)>
  {
    match p.properties
    case NoProperties => []
    case Properties(es) => es
  }

  /** What `buildPropertySchema(p)` assigns to member `k` of the fragment, if
      anything, given the object `nested` it builds for `properties`. */
  function Member(p: Param, nested: Fields, k: string): Option<Json>
  {
    var isArray := p.paramType == "array";
    var isObject := p.paramType == "object" && p.properties.Properties?;
    if k == "type" then Some(Str(p.paramType))
    else if k == "description" then (if p.description != "" then Some(Str(p.description)) else None)
    else if k == "enum" then (if p.enumValues.Some? && HasElements(p.enumValues.value) then p.enumValues else None)
    else if k == "default" then (if Given(p.defaultValue) then p.defaultValue else None)
    else if k == "minimum" then NumberOf(p.minimum)
    else if k == "maximum" then NumberOf(p.maximum)
    else if k == "pattern" then (if Present(p.pattern) then p.pattern else None)
    else if k == "minLength" then NumberOf(p.minLength)
    else if k == "maxLength" then NumberOf(p.maxLength)
    else if k == "items" then (if isArray && Present(p.items) then Some(ItemsSchema(p.items.value)) else None)
    else if k == "minItems" then (if isArray then NumberOf(p.minItems) else None)
    else if k == "maxItems" then (if isArray then NumberOf(p.maxItems) else None)
    else if k == "properties" then (if isObject then Some(Obj(nested)) else None)
    else if k == "required" then
      var required := RequiredNames(NestedEntries(p));
      if isObject && |required| > 0 then Some(StrArray(required)) else None
    else None
  }

  /** The members of the fragment, in the order the builder assigns them,
      given the object `nested` it builds for `properties`. */
  function Fragment(p: Param, nested: Fields): Fields
  {
    ObjectMembers(p, nested, ArrayMembers(p, StringBounds(p, NumericBounds(p, Annotations(p)))))
  }

  /** `type`, `description`, `enum` and `default`. */
  function Annotations(p: Param): Fields
  {
    var f := [("type", Str(p.paramType))];
    var f := With(f, "description", if p.description != "" then Some(Str(p.description)) else None);
    var f := With(f, "enum", if p.enumValues.Some? && HasElements(p.enumValues.value) then p.enumValues else None);
    With(f, "default", if Given(p.defaultValue) then p.defaultValue else None)
  }

  /** The numeric constraints. */
  function NumericBounds(p: Param, f: Fields): Fields
  {
    var f := With(f, "minimum", NumberOf(p.minimum));
    With(f, "maximum", NumberOf(p.maximum))
  }

  /** The string constraints. */
  function StringBounds(p: Param, f: Fields): Fields
  {
    var f := With(f, "pattern", if Present(p.pattern) then p.pattern else None);
    var f := With(f, "minLength", NumberOf(p.minLength));
    With(f, "maxLength", NumberOf(p.maxLength))
  }

  /** The members assigned only to an array parameter. */
  function ArrayMembers(p: Param, f: Fields): Fields
  {
    var isArray := p.paramType == "array";
    var f := With(f, "items", if isArray && Present(p.items) then Some(ItemsSchema(p.items.value)) else None);
    var f := With(f, "minItems", if isArray then NumberOf(p.minItems) else None);
    With(f, "maxItems", if isArray then NumberOf(p.maxItems) else None)
  }

  /** The members assigned only to an object parameter with properties. */
  function ObjectMembers(p: Param, nested: Fields, f: Fields): Fields
  {
    var isObject := p.paramType == "object" && p.properties.Properties?;
    var required := RequiredNames(NestedEntries(p));
    var f := With(f, "properties", if isObject then Some(Obj(nested)) else None);
    With(f, "required", if isObject && |required| > 0 then Some(StrArray(required)) else None)
  }

  /** `buildPropertySchema`: a fresh fragment assembled by conditional
      member assignment, the nested properties filled in a loop. */
  method BuildPropertySchema(p: Param) returns (schema: Json)
    ensures schema == PropertySchema(p)
    decreases p, 1
  {
    ghost var nested := Assign(NestedSchemas(p));
    var fields := ScalarConstraints(p);
    if p.paramType == "array" {
      if Present(p.items) {
        fields := fields + [("items", ItemsSchema(p.items.value))];
      }
      if Given(p.minItems) {
        fields := fields + [("minItems", ToNumber(p.minItems.value))];
      }
      if Given(p.maxItems) {
        fields := fields + [("maxItems", ToNumber(p.maxItems.value))];
      }
    }
    assert fields == ArrayMembers(p, StringBounds(p, NumericBounds(p, Annotations(p))));
    ghost var before := fields;
    if p.paramType == "object" && p.properties.Properties? {
      var es := p.properties.entries;
      var props := BuildNestedProperties(p);
      fields := fields + [("properties", Obj(props))];
      var requiredProps := RequiredNames(es);
      if |requiredProps| > 0 {
        fields := fields + [("required", StrArray(requiredProps))];
      }
      assert es == NestedEntries(p);
    }
    assert fields == ObjectMembers(p, nested, before);
    schema := Obj(fields);
  }

  /** The first part of `buildPropertySchema`: `type`, then every constraint
      assigned whatever the type is. */
  method ScalarConstraints(p: Param) returns (fields: Fields)
    ensures fields == StringBounds(p, NumericBounds(p, Annotations(p)))
  {
    // Every member below is assigned at most once, so assignment appends.
    fields := [("type", Str(p.paramType))];
    if p.description != "" {
      fields := fields + [("description", Str(p.description))];
    }
    if p.enumValues.Some? && HasElements(p.enumValues.value) {
      fields := fields + [("enum", p.enumValues.value)];
    }
    if Given(p.defaultValue) {
      fields := fields + [("default", p.defaultValue.value)];
    }
    assert fields == Annotations(p);
    if Given(p.minimum) {
      fields := fields + [("minimum", ToNumber(p.minimum.value))];
    }
    if Given(p.maximum) {
      fields := fields + [("maximum", ToNumber(p.maximum.value))];
    }
    assert fields == NumericBounds(p, Annotations(p));
    if Present(p.pattern) {
      fields := fields + [("pattern", p.pattern.value)];
    }
    if Given(p.minLength) {
      fields := fields + [("minLength", ToNumber(p.minLength.value))];
    }
    if Given(p.maxLength) {
      fields := fields + [("maxLength", ToNumber(p.maxLength.value))];
    }
  }

  /** The `for (const [key, prop] of Object.entries(param.properties))` loop
      of `buildPropertySchema`: each nested entry is built and assigned
      under its name. */
  method BuildNestedProperties(p: Param) returns (props: Fields)
    requires p.properties.Properties?
    ensures props == Assign(NestedSchemas(p))
    decreases p, 0
  {
    var es := p.properties.entries;
    ghost var nested := NestedSchemas(p);
    props := [];
    var i := 0;
    while i < |es|
      invariant 0 <= i <= |es| == |nested|
      invariant props == Assign(nested[..i])
    {
      var sub := BuildPropertySchema(es[i].1);
      assert nested[..i + 1][..i] == nested[..i];
      assert nested[i] == (es[i].0, sub);
      props := Put(props, es[i].0, sub);
      i := i + 1;
    }
    assert nested[..i] == nested;
  }

  /** Reading member `k` of the fragment gives what the builder assigns to
      `k`: no member is assigned twice, so none is overwritten. */
  lemma FragmentRead(p: Param, nested: Fields, k: string)
    ensures Lookup(Fragment(p, nested), k) == Member(p, nested, k)
  {
    var f1 := Annotations(p);
    var f2 := NumericBounds(p, f1);
    var f3 := StringBounds(p, f2);
    var f4 := ArrayMembers(p, f3);
    AnnotationsRead(p, nested, k);
    NumericBoundsRead(p, nested, f1, k);
    StringBoundsRead(p, nested, f2, k);
    ArrayMembersRead(p, nested, f3, k);
    ObjectMembersRead(p, nested, f4, k);
  }

  lemma AnnotationsRead(p: Param, nested: Fields, k: string)
    ensures Lookup(Annotations(p), k) ==
      if k == "type" || k == "description" || k == "enum" || k == "default" then Member(p, nested, k) else None
  {
    var f0 := [("type", Str(p.paramType))];
    var f1 := With(f0, "description", Member(p, nested, "description"));
    var f2 := With(f1, "enum", Member(p, nested, "enum"));
    LookupWith(f0, "description", Member(p, nested, "description"), k);
    LookupWith(f1, "enum", Member(p, nested, "enum"), k);
    LookupWith(f2, "default", Member(p, nested, "default"), k);
  }

  lemma NumericBoundsRead(p: Param, nested: Fields, f: Fields, k: string)
    ensures Lookup(NumericBounds(p, f), k) ==
      if Lookup(f, k).Some? then Lookup(f, k)
      else if k == "minimum" || k == "maximum" then Member(p, nested, k) else None
  {
    var f1 := With(f, "minimum", Member(p, nested, "minimum"));
    LookupWith(f, "minimum", Member(p, nested, "minimum"), k);
    LookupWith(f1, "maximum", Member(p, nested, "maximum"), k);
  }

  lemma StringBoundsRead(p: Param, nested: Fields, f: Fields, k: string)
    ensures Lookup(StringBounds(p, f), k) ==
      if Lookup(f, k).Some? then Lookup(f, k)
      else if k == "pattern" || k == "minLength" || k == "maxLength" then Member(p, nested, k) else None
  {
    var f1 := With(f, "pattern", Member(p, nested, "pattern"));
    var f2 := With(f1, "minLength", Member(p, nested, "minLength"));
    LookupWith(f, "pattern", Member(p, nested, "pattern"), k);
    LookupWith(f1, "minLength", Member(p, nested, "minLength"), k);
    LookupWith(f2, "maxLength", Member(p, nested, "maxLength"), k);
  }

  lemma ArrayMembersRead(p: Param, nested: Fields, f: Fields, k: string)
    ensures Lookup(ArrayMembers(p, f), k) ==
      if Lookup(f, k).Some? then Lookup(f, k)
      else if k == "items" || k == "minItems" || k == "maxItems" then Member(p, nested, k) else None
  {
    var f1 := With(f, "items", Member(p, nested, "items"));
    var f2 := With(f1, "minItems", Member(p, nested, "minItems"));
    LookupWith(f, "items", Member(p, nested, "items"), k);
    LookupWith(f1, "minItems", Member(p, nested, "minItems"), k);
    LookupWith(f2, "maxItems", Member(p, nested, "maxItems"), k);
  }

  lemma ObjectMembersRead(p: Param, nested: Fields, f: Fields, k: string)
    ensures Lookup(ObjectMembers(p, nested, f), k) ==
      if Lookup(f, k).Some? then Lookup(f, k)
      else if k == "properties" || k == "required" then Member(p, nested, k) else None
  {
    var f1 := With(f, "properties", Member(p, nested, "properties"));
    LookupWith(f, "properties", Member(p, nested, "properties"), k);
    LookupWith(f1, "required", Member(p, nested, "required"), k);
  }

  /** Member `k` of the fragment `buildPropertySchema(p)` returns. */
  lemma PropertySchemaRead(p: Param, k: string)
    ensures Get(PropertySchema(p), k) == Member(p, Assign(NestedSchemas(p)), k)
  {
    FragmentRead(p, Assign(NestedSchemas(p)), k);
  }
  /** The parameters as `[key, fragment]` entries, in order. */
  function ParamSchemas(ps: seq<Param>): Fields
  {
    seq(|ps|, i requires 0 <= i < |ps| => (ps[i].key, PropertySchema(ps[i])))
  }

  /** Parameters with distinct keys give fragments under distinct names. */
  lemma ParamSchemasDistinct(ps: seq<Param>)
    requires DistinctParamKeys(ps)
    ensures DistinctKeys(ParamSchemas(ps))
  {
    DistinctParamKeysPairwise(ps);
  }

  /** The keys of the required parameters, in order. */
  function RequiredKeys(ps: seq<Param>): seq<string>
  {
    if |ps| == 0 then []
    else RequiredKeys(ps[..|ps| - 1]) + (if ps[|ps| - 1].required then [ps[|ps| - 1].key] else [])
  }

  /** A key is listed exactly when some parameter with that key is required. */
  lemma {:induction false} RequiredKeysMembers(ps: seq<Param>)
    ensures forall k :: k in RequiredKeys(ps) <==> exists i :: 0 <= i < |ps| && ps[i].key == k && ps[i].required
  {
    if |ps| > 0 {
      RequiredKeysMembers(ps[..|ps| - 1]);
      assert forall i :: 0 <= i < |ps| - 1 ==> ps[i] == ps[..|ps| - 1][i];
    }
  }

  /** The `parameters` object of a function with parameters. */
  function ParametersSchema(ps: seq<Param>): Json
  {
    var required := RequiredKeys(ps);
    Obj(With([("type", Str("object")), ("properties", Obj(Assign(ParamSchemas(ps))))],
      "required", if |required| > 0 then Some(StrArray(required)) else None))
  }

  /** The members of the `function` object of a tool. */
  function FunctionMembers(f: FunctionDef): Fields
  {
    var m := [("name", Str(f.name))];
    var m := With(m, "description", if f.description != "" then Some(Str(f.description)) else None);
    With(m, "parameters", if |f.params| > 0 then Some(ParametersSchema(f.params)) else None)
  }

  /** The OpenAI-style tool of one function. */
  function Tool(f: FunctionDef): Json
  {
    Obj([("type", Str("function")), ("function", Obj(FunctionMembers(f)))])
  }

  /** The tools document: one tool per function, in order. */
  function ToolsDocument(fs: seq<FunctionDef>): Json
  {
    Arr(seq(|fs|, i requires 0 <= i < |fs| => Tool(fs[i])))
  }

  /** `generateToolsJSON`: one tool per function; the parameters of each are
      assigned to `properties` one after another, and the keys of the
      required ones collected. */
  method GenerateToolsJSON(fs: seq<FunctionDef>) returns (doc: Json)
    ensures doc == ToolsDocument(fs)
  {
    var tools: seq<Json> := [];
    var j := 0;
    while j < |fs|
      invariant 0 <= j <= |fs|
      invariant tools == ToolsDocument(fs[..j]).elems
    {
      var func := fs[j];
      var fn: Fields := [("name", Str(func.name))];
      if func.description != "" {
        fn := fn + [("description", Str(func.description))];
      }
      if |func.params| > 0 {
        var parameters := BuildParameters(func.params);
        fn := fn + [("parameters", parameters)];
      }
      assert fn == FunctionMembers(func);
      tools := tools + [Obj([("type", Str("function")), ("function", Obj(fn))])];
      j := j + 1;
      assert fs[..j] == fs[..j - 1] + [func];
    }
    assert fs[..j] == fs;
    doc := Arr(tools);
  }

  /** The `func.params.forEach` loop of `generateToolsJSON` and the
      `parameters` object it completes. */
  method BuildParameters(ps: seq<Param>) returns (parameters: Json)
    ensures parameters == ParametersSchema(ps)
  {
    ghost var entries := ParamSchemas(ps);
    var properties: Fields := [];
    var required: seq<string> := [];
    var k := 0;
    while k < |ps|
      invariant 0 <= k <= |ps|
      invariant properties == Assign(entries[..k])
      invariant required == RequiredKeys(ps[..k])
    {
      var param := ps[k];
      var schema := BuildPropertySchema(param);
      assert Assign(entries[..k + 1]) == Put(properties, param.key, schema) by {
        assert entries[k] == (param.key, schema);
        AssignSnoc(entries, k);
      }
      assert RequiredKeys(ps[..k + 1]) == required + (if param.required then [param.key] else []) by {
        assert ps[..k + 1][..k] == ps[..k];
      }
      properties := Put(properties, param.key, schema);
      if param.required {
        required := required + [param.key];
      }
      k := k + 1;
    }
    assert entries[..k] == entries;
    assert ps[..k] == ps;
    var fields: Fields := [("type", Str("object")), ("properties", Obj(properties))];
    if |required| > 0 {
      fields := fields + [("required", StrArray(required))];
    }
    parameters := Obj(fields);
  }
}
