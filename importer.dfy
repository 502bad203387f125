/**
 * The importer of `src/import.js`: an already-parsed JSON value is read as
 * an OpenAI-style or a Claude-style tool array and turned back into the
 * editor's functions and parameters (`parseToolsJSON`).
 *
 * Every `throw` of the source, and every TypeError the source runs into
 * (member access on `null`, `includes` on a value that has no such method),
 * is an `Err` of the result; a successful parse is `Ok`. Each operation is
 * specified by a function, and the method that mirrors the source's loops is
 * proved equal to it.
 */
module Importer {
  import opened Wrappers
  import opened Json
  import opened Params

  /** Why an import fails. */
  datatype ImportError =
    | NotAnArray
    | UnknownFormat
    | NotFunctionType(index: nat)
    | MissingFunction(index: nat)
    | MissingName(index: nat)
    | NullMember       // a member of `null` is read: a TypeError
    | NotIncludable    // `required.includes` on a value without `includes`: a TypeError

  /** The message of the error; the text of a TypeError depends on the
      JavaScript engine and is not modelled. */
  function Message(e: ImportError): Option<string>
  {
    match e
    case NotAnArray => Some("Tools must be an array")
    case UnknownFormat => Some("Unknown tool format. Expected OpenAI or Claude/Anthropic format.")
    case NotFunctionType(i) => Some("Tool " + NatToString(i) + ": type must be \"function\"")
    case MissingFunction(i) => Some("Tool " + NatToString(i) + ": missing \"function\" property")
    case MissingName(i) => Some("Tool " + NatToString(i) + ": missing \"name\" property")
    case NullMember => None
    case NotIncludable => None
  }

  /** `key` occurs in `s` starting at position `i`. */
  predicate OccursAt(key: string, s: string, i: int)
  {
    0 <= i && i + |key| <= |s| && s[i..i + |key|] == key
  }

  /** `s.includes(key)` on a string: `key` occurs in `s` at some position. */
  predicate IsSubstring(key: string, s: string)
  {
    exists i :: 0 <= i <= |s| - |key| && OccursAt(key, s, i)
  }

  /** `(required || []).includes(key)`: membership for an array, substring
      search for a string, a TypeError for any other truthy value. */
  function Includes(required: Option<Json>, key: string): Result<bool, ImportError>
  {
    if !Present(required) then Ok(false)
    else match required.value
      case Arr(elems) => Ok(Str(key) in elems)
      case Str(s) => Ok(IsSubstring(key, s))
      case _ => Err(NotIncludable)
  }

  /** A non-empty `required` string includes exactly the keys that occur in
      it; an empty one is replaced by `[]` and includes nothing. */
  lemma RequiredStringIncludes(s: string, k: string)
    ensures Includes(Some(Str(s)), k).Ok?
    ensures s == "" ==> Includes(Some(Str(s)), k) == Ok(false)
    ensures s != "" ==> forall i :: OccursAt(k, s, i) ==> Includes(Some(Str(s)), k) == Ok(true)
    ensures Includes(Some(Str(s)), k) == Ok(true) ==> exists i :: OccursAt(k, s, i)
  {
  }

  /** Examples: `"cat"` occurs in `"location"`, and a number has no
      `includes`. */
  lemma RequiredStringMatchesSubstrings()
    ensures Includes(Some(Str("location")), "cat") == Ok(true)
    ensures Includes(Some(Num(1)), "unit") == Err(NotIncludable)
  {
    assert OccursAt("cat", "location", 2);
  }

  // ---------------------------------------------------------------------
  // parsePropertySchema

  /** The parameter `parsePropertySchema(key, schema, required)` builds before
      it looks at nested properties: the object literal it starts from, then
      the advanced options, the numeric, string and array constraints. */
  function ScalarParam(key: string, schema: Json, req: bool): Param
  {
    ArrayConstraints(schema, StringConstraints(schema, NumericConstraints(schema, AdvancedOptions(schema,
      BaseParam(key, schema, req)))))
  }

  /** `{key, type: schema.type || 'string', required, description:
      schema.description || ''}`. */
  function BaseParam(key: string, schema: Json, req: bool): Param
  {
    Param(key, StringOr(Get(schema, "type"), "string"), StringOr(Get(schema, "description"), ""), req,
      None, None, None, None, None, None, None, None, None, None, NoProperties)
  }

  /** `enum` is copied when truthy, `default` whenever it is defined. */
  function AdvancedOptions(schema: Json, p: Param): Param
  {
    var enumValues := Get(schema, "enum");
    var defaultValue := Get(schema, "default");
    p.(enumValues := if Present(enumValues) then enumValues else p.enumValues,
       defaultValue := if defaultValue.Some? then defaultValue else p.defaultValue)
  }

  /** `minimum` and `maximum` are copied whenever they are defined. */
  function NumericConstraints(schema: Json, p: Param): Param
  {
    var minimum := Get(schema, "minimum");
    var maximum := Get(schema, "maximum");
    p.(minimum := if minimum.Some? then minimum else p.minimum,
       maximum := if maximum.Some? then maximum else p.maximum)
  }

  /** `pattern` is copied when truthy, `minLength` and `maxLength` whenever
      they are defined. */
  function StringConstraints(schema: Json, p: Param): Param
  {
    var pattern := Get(schema, "pattern");
    var minLength := Get(schema, "minLength");
    var maxLength := Get(schema, "maxLength");
    p.(pattern := if Present(pattern) then pattern else p.pattern,
       minLength := if minLength.Some? then minLength else p.minLength,
       maxLength := if maxLength.Some? then maxLength else p.maxLength)
  }

  /** `items.type || 'string'`: the item type, whatever value it holds
      when it is truthy. */
  function ItemType(items: Json): (t: Json)
    ensures Truthy(t)
    ensures Present(Get(items, "type")) ==> t == Get(items, "type").value
    ensures !Present(Get(items, "type")) ==> t == Str("string")
  {
    var t := Get(items, "type");
    if Present(t) then t.value else Str("string")
  }

  /** Only for an `array` schema: `items` becomes `{type: items.type ||
      'string'}` when truthy, `minItems` and `maxItems` are copied whenever
      they are defined. */
  function ArrayConstraints(schema: Json, p: Param): Param
  {
    if Get(schema, "type") != Some(Str("array")) then p
    else
      var items := Get(schema, "items");
      var minItems := Get(schema, "minItems");
      var maxItems := Get(schema, "maxItems");
      p.(items := if Present(items) then Some(ItemType(items.value)) else p.items,
         minItems := if minItems.Some? then minItems else p.minItems,
         maxItems := if maxItems.Some? then maxItems else p.maxItems)
  }

  /** `parsePropertySchema(key, schema, req)`. Only a TypeError can make it
      fail, and a parameter it returns carries the given key and flag. */
  function ParamOf(key: string, schema: Json, req: bool): (r: Result<Param, ImportError>)
    ensures schema.Null? ==> r == Err(NullMember)
    ensures r.Err? ==> r.error == NullMember || r.error == NotIncludable
    ensures r.Ok? ==> r.value.key == key && r.value.required == req
    decreases schema, 2
  {
    if schema.Null? then Err(NullMember)
    else match PropertiesOf(schema)
      case Err(e) => Err(e)
      case Ok(props) => Ok(ScalarParam(key, schema, req).(properties := props))
  }

  /** The nested properties of a parameter: only an `object` schema with
      (truthy) `properties` has them; each entry is parsed in order and
      assigned under its own name. */
  function PropertiesOf(schema: Json): (r: Result<Properties, ImportError>)
    ensures r.Err? ==> r.error == NullMember || r.error == NotIncludable
    decreases schema, 1
  {
    var props := Get(schema, "properties");
    if Get(schema, "type") == Some(Str("object")) && Present(props) then
      match EntriesOf(props.value, Get(schema, "required"), |Entries(props.value)|)
      case Err(e) => Err(e)
      case Ok(es) => Ok(Properties(Assign(es)))
    else Ok(NoProperties)
  }

  /** The first `n` entries of `Object.entries(props)`, each parsed with the
      flag `required.includes(name)`, in order; the first failure wins. */
  function EntriesOf(props: Json, required: Option<Json>, n: nat): (r: Result<seq<(string, Param)>, ImportError>)
    requires n <= |Entries(props)|
    ensures r.Err? ==> r.error == NullMember || r.error == NotIncludable
    decreases props, n
  {
    if n == 0 then Ok([])
    else match EntriesOf(props, required, n - 1)
      case Err(e) => Err(e)
      case Ok(prefix) =>
        var entry := Entries(props)[n - 1];
        match Includes(required, entry.0)
        case Err(e) => Err(e)
        case Ok(req) =>
          match ParamOf(entry.0, entry.1, req)
          case Err(e) => Err(e)
          case Ok(p) => Ok(prefix + [(entry.0, p)])
  }

  /** One more entry that parses extends the entries parsed so far: if the
      first `n - 1` entries give `es[..n - 1]` and entry `n - 1` is parsed as
      `es[n - 1]`, the first `n` give `es[..n]`. */
  lemma EntriesOfStep(props: Json, required: Option<Json>, n: nat, es: seq<(string, Param)>,
                      name: string, child: Json, req: bool, p: Param)
    requires 0 < n <= |Entries(props)| && n <= |es|
    requires Entries(props)[n - 1] == (name, child) && es[n - 1] == (name, p)
    requires EntriesOf(props, required, n - 1) == Ok(es[..n - 1])
    requires Includes(required, name) == Ok(req) && ParamOf(name, child, req) == Ok(p)
    ensures EntriesOf(props, required, n) == Ok(es[..n])
  {
    assert es[..n] == es[..n - 1] + [es[n - 1]];
  }

  /** The properties of an `object` schema whose entries all parse. */
  lemma PropertiesOfObject(schema: Json, props: Json, required: Option<Json>, es: seq<(string, Param)>)
    requires Get(schema, "type") == Some(Str("object")) && Get(schema, "properties") == Some(props) && Truthy(props)
    requires Get(schema, "required") == required
    requires EntriesOf(props, required, |Entries(props)|) == Ok(es)
    ensures PropertiesOf(schema) == Ok(Properties(Assign(es)))
  {
  }

  /** Once an entry fails, so does every longer prefix, with the same error. */
  lemma {:induction false} EntriesOfErrorSticks(props: Json, required: Option<Json>, n: nat, m: nat)
    requires n <= m <= |Entries(props)|
    requires EntriesOf(props, required, n).Err?
    ensures EntriesOf(props, required, m) == EntriesOf(props, required, n)
    decreases m
  {
    if m > n {
      EntriesOfErrorSticks(props, required, n, m - 1);
    }
  }

  /** A successful parse lists every entry once, in order, under its own name,
      as a parameter keyed by that name and flagged as `required` says. */
  lemma {:induction false} EntriesOfOk(props: Json, required: Option<Json>, n: nat)
    requires n <= |Entries(props)|
    requires EntriesOf(props, required, n).Ok?
    ensures |EntriesOf(props, required, n).value| == n
    ensures forall i :: 0 <= i < n ==>
      var e := EntriesOf(props, required, n).value[i];
      e.0 == Entries(props)[i].0 && e.1.key == e.0 && Includes(required, e.0) == Ok(e.1.required)
    decreases n
  {
    if n > 0 {
      var prefix := EntriesOf(props, required, n - 1).value;
      var entry := Entries(props)[n - 1];
      var req := Includes(required, entry.0).value;
      var p := ParamOf(entry.0, entry.1, req).value;
      assert EntriesOf(props, required, n).value == prefix + [(entry.0, p)];
      EntriesOfOk(props, required, n - 1);
    }
  }

  /** The names of a parsed object are distinct, and each nested parameter
      is keyed by the name it is stored under, at every depth. */
  predicate KeyedAsStored(p: Param)
  {
    match p.properties
    case NoProperties => true
    case Properties(es) =>
      (forall i :: 0 <= i < |es| ==> es[i].1.key == es[i].0 && KeyedAsStored(es[i].1))
  }

  /** Every parameter the importer builds is well keyed: the nested names of
      an object are distinct and each nested parameter carries its name. */
  lemma {:induction false} ParamOfKeyed(key: string, schema: Json, req: bool)
    requires ParamOf(key, schema, req).Ok?
    ensures WellKeyed(ParamOf(key, schema, req).value) && KeyedAsStored(ParamOf(key, schema, req).value)
    decreases schema, 1
  {
    var props := Get(schema, "properties");
    if Get(schema, "type") == Some(Str("object")) && Present(props) {
      var required := Get(schema, "required");
      var n := |Entries(props.value)|;
      var es := EntriesOf(props.value, required, n).value;
      EntriesKeyed(props.value, required, n);
      var a := Assign(es);
      assert ParamOf(key, schema, req).value.properties == Properties(a);
      AssignKeepsDistinct(es);
      AssignKeepsMembers(es);
      forall i | 0 <= i < |a|
        ensures a[i].1.key == a[i].0 && WellKeyed(a[i].1) && KeyedAsStored(a[i].1)
      {
        assert a[i] in es;
        var j :| 0 <= j < |es| && es[j] == a[i];
      }
    }
  }

  /** The entries of a successful nested parse are well keyed. */
  lemma {:induction false} EntriesKeyed(props: Json, required: Option<Json>, n: nat)
    requires n <= |Entries(props)|
    requires EntriesOf(props, required, n).Ok?
    ensures |EntriesOf(props, required, n).value| == n
    ensures forall i :: 0 <= i < n ==>
      var e := EntriesOf(props, required, n).value[i];
      e.1.key == e.0 && WellKeyed(e.1) && KeyedAsStored(e.1)
    decreases props, n
  {
    EntriesOfOk(props, required, n);
    if n > 0 {
      var all := EntriesOf(props, required, n).value;
      var prefix := EntriesOf(props, required, n - 1).value;
      var entry := Entries(props)[n - 1];
      var req := Includes(required, entry.0).value;
      var p := ParamOf(entry.0, entry.1, req).value;
      assert all == prefix + [(entry.0, p)];
      assert forall i :: 0 <= i < n - 1 ==> WellKeyed(prefix[i].1) && KeyedAsStored(prefix[i].1) by {
        EntriesKeyed(props, required, n - 1);
      }
      assert WellKeyed(p) && KeyedAsStored(p) by {
        ParamOfKeyed(entry.0, entry.1, req);
      }
    }
  }

  /** Each member of an assigned object is one of the assigned entries. */
  lemma {:induction false} AssignKeepsMembers<V>(entries: seq<(string, V)>)
    ensures forall m :: m in Assign(entries) ==> m in entries
  {
    if |entries| > 0 {
      var init := entries[..|entries| - 1];
      var last := entries[|entries| - 1];
      AssignKeepsMembers(init);
      var before := Assign(init);
      var after := Assign(entries);
      forall m | m in after
        ensures m in entries
      {
        var j :| 0 <= j < |after| && after[j] == m;
        if m != last {
          if last.0 in Keys(before) {
            var i :| 0 <= i < |before| && before[i].0 == last.0 && after == before[i := last];
            assert before[j] == m;
          } else {
            assert after == before + [last];
            assert before[j] == m;
          }
          assert m in init;
        }
      }
    }
  }

  /** The parameter `parsePropertySchema` returns, built as the source does:
      the plain members first, then the nested properties. */
  method ParsePropertySchema(key: string, schema: Json, req: bool) returns (r: Result<Param, ImportError>)
    ensures r == ParamOf(key, schema, req)
    decreases schema, 2
  {
    if schema.Null? {
      return Err(NullMember);
    }
    var param := ParseScalars(key, schema, req);
    var properties := ParseProperties(schema);
    if properties.Err? {
      return Err(properties.error);
    }
    return Ok(param.(properties := properties.value));
  }

  /** The member-by-member copy of `parsePropertySchema`. */
  method ParseScalars(key: string, schema: Json, req: bool) returns (param: Param)
    ensures param == ScalarParam(key, schema, req)
  {
    param := Param(key, StringOr(Get(schema, "type"), "string"), StringOr(Get(schema, "description"), ""), req,
      None, None, None, None, None, None, None, None, None, None, NoProperties);
    param := ParseAdvancedOptions(schema, param);
    param := ParseNumericConstraints(schema, param);
    param := ParseStringConstraints(schema, param);
    param := ParseArrayConstraints(schema, param);
  }

  method ParseAdvancedOptions(schema: Json, p: Param) returns (param: Param)
    ensures param == AdvancedOptions(schema, p)
  {
    param := p;
    if Present(Get(schema, "enum")) {
      param := param.(enumValues := Get(schema, "enum"));
    }
    if Get(schema, "default").Some? {
      param := param.(defaultValue := Get(schema, "default"));
    }
  }

  method ParseNumericConstraints(schema: Json, p: Param) returns (param: Param)
    ensures param == NumericConstraints(schema, p)
  {
    param := p;
    if Get(schema, "minimum").Some? {
      param := param.(minimum := Get(schema, "minimum"));
    }
    if Get(schema, "maximum").Some? {
      param := param.(maximum := Get(schema, "maximum"));
    }
  }

  method ParseStringConstraints(schema: Json, p: Param) returns (param: Param)
    ensures param == StringConstraints(schema, p)
  {
    param := p;
    if Present(Get(schema, "pattern")) {
      param := param.(pattern := Get(schema, "pattern"));
    }
    if Get(schema, "minLength").Some? {
      param := param.(minLength := Get(schema, "minLength"));
    }
    if Get(schema, "maxLength").Some? {
      param := param.(maxLength := Get(schema, "maxLength"));
    }
  }

  method ParseArrayConstraints(schema: Json, p: Param) returns (param: Param)
    ensures param == ArrayConstraints(schema, p)
  {
    param := p;
    if Get(schema, "type") == Some(Str("array")) {
      var items := Get(schema, "items");
      if Present(items) {
        param := param.(items := Some(ItemType(items.value)));
      }
      if Get(schema, "minItems").Some? {
        param := param.(minItems := Get(schema, "minItems"));
      }
      if Get(schema, "maxItems").Some? {
        param := param.(maxItems := Get(schema, "maxItems"));
      }
    }
  }

  /** The nested-properties loop of `parsePropertySchema`. */
  method ParseProperties(schema: Json) returns (r: Result<Properties, ImportError>)
    ensures r == PropertiesOf(schema)
    decreases schema, 1
  {
    var props := Get(schema, "properties");
    if !(Get(schema, "type") == Some(Str("object")) && Present(props)) {
      return Ok(NoProperties);
    }
    var required := Get(schema, "required");
    var entries := Entries(props.value);
    var nested: seq<(string, Param)> := [];
    ghost var parsed: seq<(string, Param)> := [];
    var i := 0;
    while i < |entries|
      invariant 0 <= i <= |entries|
      invariant EntriesOf(props.value, required, i) == Ok(parsed) && |parsed| == i
      invariant nested == Assign(parsed)
    {
      var inc := Includes(required, entries[i].0);
      if inc.Err? {
        EntriesOfErrorSticks(props.value, required, i + 1, |entries|);
        return Err(inc.error);
      }
      var child := ParsePropertySchema(entries[i].0, entries[i].1, inc.value);
      if child.Err? {
        EntriesOfErrorSticks(props.value, required, i + 1, |entries|);
        return Err(child.error);
      }
      ghost var next := parsed + [(entries[i].0, child.value)];
      assert EntriesOf(props.value, required, i + 1) == Ok(next) by {
        assert next[..i] == parsed && next[..i + 1] == next;
        EntriesOfStep(props.value, required, i + 1, next, entries[i].0, entries[i].1, inc.value, child.value);
      }
      nested := Put(nested, entries[i].0, child.value);
      parsed := next;
      i := i + 1;
    }
    PropertiesOfObject(schema, props.value, required, parsed);
    return Ok(Properties(nested));
  }

  // ---------------------------------------------------------------------
  // The tools of one document

  /** The parameters of the entries, in order. */
  function Values(es: seq<(string, Param)>): seq<Param>
  {
    seq(|es|, i requires 0 <= i < |es| => es[i].1)
  }

  /** The parameter list of a tool read from its (truthy) `parameters` or
      `input_schema` object: one parameter per entry of its `properties`,
      in entry order, none when it has no truthy `properties`. */
  function ParametersOf(schema: Json): Result<seq<Param>, ImportError>
  {
    var props := Get(schema, "properties");
    if Present(props) then
      match EntriesOf(props.value, Get(schema, "required"), |Entries(props.value)|)
      case Err(e) => Err(e)
      case Ok(es) => Ok(Values(es))
    else Ok([])
  }

  /** The parameter list of a schema whose entries all parse. */
  lemma ParametersOfEntries(schema: Json, props: Json, required: Option<Json>, es: seq<(string, Param)>)
    requires Get(schema, "properties") == Some(props) && Truthy(props) && Get(schema, "required") == required
    requires EntriesOf(props, required, |Entries(props)|) == Ok(es)
    ensures ParametersOf(schema) == Ok(Values(es))
  {
  }

  /** The function read from a tool's name, description and parameter schema:
      the strings default to `''`, the parameters to none. */
  function FunctionOf(name: Option<Json>, description: Option<Json>, schema: Option<Json>): Result<FunctionDef, ImportError>
  {
    if !Present(schema) then Ok(FunctionDef(StringOr(name, ""), StringOr(description, ""), []))
    else match ParametersOf(schema.value)
      case Err(e) => Err(e)
      case Ok(ps) => Ok(FunctionDef(StringOr(name, ""), StringOr(description, ""), ps))
  }

  /** The callback of `parseOpenAIFormat` for the tool at index `idx`. It
      fails citing `idx` when the tool is not of type `function` or has no
      `function`, and otherwise only with a TypeError. */
  function OpenAIToolOf(tool: Json, idx: nat): (r: Result<FunctionDef, ImportError>)
    ensures r.Err? ==> r.error in {NotFunctionType(idx), MissingFunction(idx), NullMember, NotIncludable}
  {
    if tool.Null? then Err(NullMember)
    else if Get(tool, "type") != Some(Str("function")) then Err(NotFunctionType(idx))
    else if !Present(Get(tool, "function")) then Err(MissingFunction(idx))
    else
      var fn := Get(tool, "function").value;
      FunctionOf(Get(fn, "name"), Get(fn, "description"), Get(fn, "parameters"))
  }

  /** A tool of type `function` with a truthy `function` object is read
      from that object. */
  lemma OpenAIToolOfFunction(tool: Json, idx: nat, fn: Json)
    requires Get(tool, "type") == Some(Str("function")) && Get(tool, "function") == Some(fn) && Truthy(fn)
    ensures OpenAIToolOf(tool, idx) == FunctionOf(Get(fn, "name"), Get(fn, "description"), Get(fn, "parameters"))
  {
  }

  /** The callback of `parseClaudeFormat` for the tool at index `idx`. It
      fails citing `idx` when the tool has no `name`, and otherwise only
      with a TypeError. */
  function ClaudeToolOf(tool: Json, idx: nat): (r: Result<FunctionDef, ImportError>)
    ensures r.Err? ==> r.error in {MissingName(idx), NullMember, NotIncludable}
  {
    if tool.Null? then Err(NullMember)
    else if !Present(Get(tool, "name")) then Err(MissingName(idx))
    else FunctionOf(Get(tool, "name"), Get(tool, "description"), Get(tool, "input_schema"))
  }

  datatype Format = OpenAI | Claude | Unknown

  /** The tool at index `idx`, read in the given format. */
  function ToolOf(format: Format, tool: Json, idx: nat): Result<FunctionDef, ImportError>
    requires format != Unknown
  {
    if format == OpenAI then OpenAIToolOf(tool, idx) else ClaudeToolOf(tool, idx)
  }

  /** The first `n` results, in order, or the first error among them: what
      a `map` whose callback may throw returns. */
  function Collect<T, E>(rs: seq<Result<T, E>>, n: nat): Result<seq<T>, E>
    requires n <= |rs|
  {
    if n == 0 then Ok([])
    else match Collect(rs, n - 1)
      case Err(e) => Err(e)
      case Ok(vs) =>
        match rs[n - 1]
        case Err(e) => Err(e)
        case Ok(v) => Ok(vs + [v])
  }

  /** One more success extends the values collected so far. */
  lemma CollectStep<T, E>(rs: seq<Result<T, E>>, n: nat, vs: seq<T>)
    requires 0 < n <= |rs| && n <= |vs|
    requires Collect(rs, n - 1) == Ok(vs[..n - 1]) && rs[n - 1] == Ok(vs[n - 1])
    ensures Collect(rs, n) == Ok(vs[..n])
  {
    assert vs[..n] == vs[..n - 1] + [vs[n - 1]];
  }

  /** Once an error is met, every longer prefix gives that error. */
  lemma {:induction false} CollectErrorSticks<T, E>(rs: seq<Result<T, E>>, n: nat, m: nat)
    requires n <= m <= |rs| && Collect(rs, n).Err?
    ensures Collect(rs, m) == Collect(rs, n)
    decreases m
  {
    if m > n {
      CollectErrorSticks(rs, n, m - 1);
    }
  }

  /** Collecting succeeds exactly when every result does, and then gives
      every value, in order. */
  lemma {:induction false} CollectOk<T, E>(rs: seq<Result<T, E>>, n: nat)
    requires n <= |rs|
    ensures Collect(rs, n).Ok? <==> forall i :: 0 <= i < n ==> rs[i].Ok?
    ensures Collect(rs, n).Ok? ==>
      |Collect(rs, n).value| == n && forall i :: 0 <= i < n ==> rs[i] == Ok(Collect(rs, n).value[i])
  {
    if n > 0 {
      CollectOk(rs, n - 1);
    }
  }

  /** A failure is the error of the first result that fails, at `k`. */
  lemma {:induction false} CollectFirstError<T, E>(rs: seq<Result<T, E>>, n: nat) returns (k: nat)
    requires n <= |rs| && Collect(rs, n).Err?
    ensures k < n && (forall i :: 0 <= i < k ==> rs[i].Ok?) && rs[k] == Err(Collect(rs, n).error)
  {
    if Collect(rs, n - 1).Err? {
      k := CollectFirstError(rs, n - 1);
    } else {
      CollectOk(rs, n - 1);
      k := n - 1;
    }
  }

  /** The result of each tool, read in the given format. */
  function ToolResults(format: Format, tools: seq<Json>): (r: seq<Result<FunctionDef, ImportError>>)
    requires format != Unknown
    ensures |r| == |tools|
  {
    seq(|tools|, i requires 0 <= i < |tools| => ToolOf(format, tools[i], i))
  }

  /** `tools.map(...)` over the first `n` tools: the functions in order, or
      the error of the first tool that fails. */
  function FunctionsOf(format: Format, tools: seq<Json>, n: nat): Result<seq<FunctionDef>, ImportError>
    requires format != Unknown && n <= |tools|
  {
    Collect(ToolResults(format, tools), n)
  }

  /** One more tool that parses extends the functions read so far. */
  lemma FunctionsOfStep(format: Format, tools: seq<Json>, n: nat, fs: seq<FunctionDef>)
    requires format != Unknown && 0 < n <= |tools| && n <= |fs|
    requires FunctionsOf(format, tools, n - 1) == Ok(fs[..n - 1])
    requires ToolOf(format, tools[n - 1], n - 1) == Ok(fs[n - 1])
    ensures FunctionsOf(format, tools, n) == Ok(fs[..n])
  {
    CollectStep(ToolResults(format, tools), n, fs);
  }

  /** Once a tool fails, so does every longer prefix, with the same error. */
  lemma FunctionsOfErrorSticks(format: Format, tools: seq<Json>, n: nat, m: nat)
    requires format != Unknown && n <= m <= |tools|
    requires FunctionsOf(format, tools, n).Err?
    ensures FunctionsOf(format, tools, m) == FunctionsOf(format, tools, n)
  {
    CollectErrorSticks(ToolResults(format, tools), n, m);
  }

  /** The parse succeeds exactly when every tool does, and then yields one
      function per tool, in order. */
  lemma FunctionsOfOk(format: Format, tools: seq<Json>, n: nat)
    requires format != Unknown && n <= |tools|
    ensures FunctionsOf(format, tools, n).Ok? <==> forall i :: 0 <= i < n ==> ToolOf(format, tools[i], i).Ok?
    ensures FunctionsOf(format, tools, n).Ok? ==>
      |FunctionsOf(format, tools, n).value| == n
      && forall i :: 0 <= i < n ==> ToolOf(format, tools[i], i) == Ok(FunctionsOf(format, tools, n).value[i])
  {
    var rs := ToolResults(format, tools);
    assert forall i :: 0 <= i < n ==> rs[i] == ToolOf(format, tools[i], i);
    CollectOk(rs, n);
  }

  /** A failed parse reports the error of the first tool that fails; no
      partial list is returned. */
  lemma FunctionsOfFirstError(format: Format, tools: seq<Json>, n: nat)
    requires format != Unknown && n <= |tools|
    requires FunctionsOf(format, tools, n).Err?
    ensures exists k :: (0 <= k < n && (forall i :: 0 <= i < k ==> ToolOf(format, tools[i], i).Ok?)
      && ToolOf(format, tools[k], k) == Err(FunctionsOf(format, tools, n).error))
  {
    var rs := ToolResults(format, tools);
    var k := CollectFirstError(rs, n);
    assert forall i :: 0 <= i < k ==> ToolOf(format, tools[i], i).Ok? by {
      forall i | 0 <= i < k
        ensures ToolOf(format, tools[i], i).Ok?
      {
        assert rs[i].Ok?;
      }
    }
  }

  /** `detectFormat`: the first tool alone decides. */
  function DetectFormat(tools: Json): Result<Format, ImportError>
  {
    if !tools.Arr? || |tools.elems| == 0 then Ok(Unknown)
    else
      var first := tools.elems[0];
      if first.Null? then Err(NullMember)
      else if Get(first, "type") == Some(Str("function")) && Present(Get(first, "function")) then Ok(OpenAI)
      else if Present(Get(first, "name")) && Present(Get(first, "input_schema")) then Ok(Claude)
      else Ok(Unknown)
  }

  /** Only the first tool is inspected: the tools after it never change the
      format detected. */
  lemma DetectFormatFirstOnly(first: Json, rest: seq<Json>, rest': seq<Json>)
    ensures DetectFormat(Arr([first] + rest)) == DetectFormat(Arr([first] + rest'))
    ensures DetectFormat(Arr([])) == Ok(Unknown)
  {
    assert ([first] + rest)[0] == first && ([first] + rest')[0] == first;
  }

  /** A first tool of type `function` with a truthy `function` makes the
      array OpenAI-style, whatever else it holds (a `name` and an
      `input_schema` included). */
  lemma DetectFormatOpenAIWins(first: Json, rest: seq<Json>)
    requires Get(first, "type") == Some(Str("function")) && Present(Get(first, "function"))
    ensures DetectFormat(Arr([first] + rest)) == Ok(OpenAI)
  {
    assert ([first] + rest)[0] == first;
  }

  /** Otherwise a first tool with a truthy `name` and `input_schema` makes it
      Claude-style, and a first tool with neither shape leaves it unknown. */
  lemma DetectFormatOtherwise(first: Json, rest: seq<Json>)
    requires !first.Null?
    requires !(Get(first, "type") == Some(Str("function")) && Present(Get(first, "function")))
    ensures Present(Get(first, "name")) && Present(Get(first, "input_schema")) ==>
      DetectFormat(Arr([first] + rest)) == Ok(Claude)
    ensures !(Present(Get(first, "name")) && Present(Get(first, "input_schema"))) ==>
      DetectFormat(Arr([first] + rest)) == Ok(Unknown)
  {
    assert ([first] + rest)[0] == first;
  }

  /** `parseToolsJSON` from its array check on. */
  function ImportTools(json: Json): Result<seq<FunctionDef>, ImportError>
  {
    if !json.Arr? then Err(NotAnArray)
    else match DetectFormat(json)
      case Err(e) => Err(e)
      case Ok(format) =>
        if format == Unknown then Err(UnknownFormat)
        else FunctionsOf(format, json.elems, |json.elems|)
  }

  /** A non-array is rejected as such, and so is the empty array, because no
      format can be detected from it. */
  lemma ImportRejects(json: Json)
    ensures !json.Arr? ==> ImportTools(json) == Err(NotAnArray)
    ensures json == Arr([]) ==> ImportTools(json) == Err(UnknownFormat)
  {
  }

  /** A successful import has one function per tool, in order, each read in
      the format the first tool shows. */
  lemma ImportOk(json: Json)
    requires ImportTools(json).Ok?
    ensures json.Arr? && |json.elems| > 0
    ensures |ImportTools(json).value| == |json.elems|
    ensures exists format :: (format != Unknown && DetectFormat(json) == Ok(format)
      && forall i :: 0 <= i < |json.elems| ==> ToolOf(format, json.elems[i], i) == Ok(ImportTools(json).value[i]))
  {
    var format := DetectFormat(json).value;
    FunctionsOfOk(format, json.elems, |json.elems|);
  }

  /** A failed import of an array in a known format reports the first bad
      tool; an error about a tool cites that tool's index. */
  lemma ImportFirstBadTool(json: Json, format: Format)
    requires json.Arr? && format != Unknown && DetectFormat(json) == Ok(format)
    requires ImportTools(json).Err?
    ensures exists k :: (0 <= k < |json.elems|
      && (forall i :: 0 <= i < k ==> ToolOf(format, json.elems[i], i).Ok?)
      && ToolOf(format, json.elems[k], k) == Err(ImportTools(json).error)
      && ImportTools(json).error in {NotFunctionType(k), MissingFunction(k), MissingName(k), NullMember, NotIncludable})
  {
    FunctionsOfFirstError(format, json.elems, |json.elems|);
  }

  /** The members `parsePropertySchema` sets on the parameter it returns:
      `type` and `description` with their defaults; `enum` and `pattern`
      when truthy; `default`, `minimum`, `maximum`, `minLength` and
      `maxLength` whenever defined, whatever the type; `items`, `minItems`
      and `maxItems` only for an array; nested properties only for an
      object with truthy `properties`. */
  lemma ParamOfFields(key: string, schema: Json, req: bool)
    requires ParamOf(key, schema, req).Ok?
    ensures var p := ParamOf(key, schema, req).value;
      var isArray := Get(schema, "type") == Some(Str("array"));
      var items := Get(schema, "items");
      && p.paramType == StringOr(Get(schema, "type"), "string")
      && p.description == StringOr(Get(schema, "description"), "")
      && p.enumValues == (if Present(Get(schema, "enum")) then Get(schema, "enum") else None)
      && p.defaultValue == Get(schema, "default")
      && p.minimum == Get(schema, "minimum") && p.maximum == Get(schema, "maximum")
      && p.pattern == (if Present(Get(schema, "pattern")) then Get(schema, "pattern") else None)
      && p.minLength == Get(schema, "minLength") && p.maxLength == Get(schema, "maxLength")
      && p.items == (if isArray && Present(items) then Some(ItemType(items.value)) else None)
      && p.minItems == (if isArray then Get(schema, "minItems") else None)
      && p.maxItems == (if isArray then Get(schema, "maxItems") else None)
      && (p.properties.Properties? <==> Get(schema, "type") == Some(Str("object")) && Present(Get(schema, "properties")))
  {
  }

  /** A truthy item type is kept as it is, even when it is not a string. */
  lemma NumericItemTypeKept()
    ensures var items := Obj([("type", Num(5))]);
      var r := ParamOf("k", Obj([("type", Str("array")), ("items", items)]), false);
      r.Ok? && r.value.paramType == "array" && r.value.items == Some(Num(5))
  {
    var items := Obj([("type", Num(5))]);
    var schema := Obj([("type", Str("array")), ("items", items)]);
    assert "type" != "items" by { assert |"type"| != |"items"|; }
    var rest := [("items", items)];
    assert schema.fields[1..] == rest;
    assert Lookup(rest, "items") == Some(items);
    assert Lookup(schema.fields, "items") == Lookup(rest, "items");
    assert Get(items, "type") == Some(Num(5));
  }

  /** The parameter-list loop shared by both formats: each entry of
      `properties` is parsed and pushed. */
  method ParseParameters(schema: Json) returns (r: Result<seq<Param>, ImportError>)
    ensures r == ParametersOf(schema)
  {
    var props := Get(schema, "properties");
    if !Present(props) {
      return Ok([]);
    }
    var required := Get(schema, "required");
    var entries := Entries(props.value);
    var params: seq<Param> := [];
    ghost var parsed: seq<(string, Param)> := [];
    var i := 0;
    while i < |entries|
      invariant 0 <= i <= |entries|
      invariant EntriesOf(props.value, required, i) == Ok(parsed) && |parsed| == i
      invariant params == Values(parsed)
    {
      var inc := Includes(required, entries[i].0);
      if inc.Err? {
        EntriesOfErrorSticks(props.value, required, i + 1, |entries|);
        return Err(inc.error);
      }
      var child := ParsePropertySchema(entries[i].0, entries[i].1, inc.value);
      if child.Err? {
        EntriesOfErrorSticks(props.value, required, i + 1, |entries|);
        return Err(child.error);
      }
      ghost var next := parsed + [(entries[i].0, child.value)];
      assert next[..i] == parsed;
      EntriesOfStep(props.value, required, i + 1, next, entries[i].0, entries[i].1, inc.value, child.value);
      params := params + [child.value];
      parsed := next;
      i := i + 1;
    }
    return Ok(params);
  }

  /** The function of a tool: name and description default to `''`; the
      parameters are read only from a truthy schema. */
  method ParseFunction(name: Option<Json>, description: Option<Json>, schema: Option<Json>)
    returns (r: Result<FunctionDef, ImportError>)
    ensures r == FunctionOf(name, description, schema)
  {
    var func := FunctionDef(StringOr(name, ""), StringOr(description, ""), []);
    if Present(schema) {
      var params := ParseParameters(schema.value);
      if params.Err? {
        return Err(params.error);
      }
      func := func.(params := params.value);
    }
    return Ok(func);
  }

  method ParseOpenAITool(tool: Json, idx: nat) returns (r: Result<FunctionDef, ImportError>)
    ensures r == OpenAIToolOf(tool, idx)
  {
    if tool.Null? {
      return Err(NullMember);
    }
    if Get(tool, "type") != Some(Str("function")) {
      return Err(NotFunctionType(idx));
    }
    if !Present(Get(tool, "function")) {
      return Err(MissingFunction(idx));
    }
    var fn := Get(tool, "function").value;
    r := ParseFunction(Get(fn, "name"), Get(fn, "description"), Get(fn, "parameters"));
  }

  method ParseClaudeTool(tool: Json, idx: nat) returns (r: Result<FunctionDef, ImportError>)
    ensures r == ClaudeToolOf(tool, idx)
  {
    if tool.Null? {
      return Err(NullMember);
    }
    if !Present(Get(tool, "name")) {
      return Err(MissingName(idx));
    }
    r := ParseFunction(Get(tool, "name"), Get(tool, "description"), Get(tool, "input_schema"));
  }

  /** `parseOpenAIFormat`: the tools in order; the first bad one throws. */
  method ParseOpenAIFormat(tools: seq<Json>) returns (r: Result<seq<FunctionDef>, ImportError>)
    ensures r == FunctionsOf(OpenAI, tools, |tools|)
  {
    var funcs: seq<FunctionDef> := [];
    var idx := 0;
    while idx < |tools|
      invariant 0 <= idx <= |tools|
      invariant FunctionsOf(OpenAI, tools, idx) == Ok(funcs)
    {
      var func := ParseOpenAITool(tools[idx], idx);
      if func.Err? {
        FunctionsOfErrorSticks(OpenAI, tools, idx + 1, |tools|);
        return Err(func.error);
      }
      funcs := funcs + [func.value];
      idx := idx + 1;
    }
    return Ok(funcs);
  }

  /** `parseClaudeFormat`: the tools in order; the first bad one throws. */
  method ParseClaudeFormat(tools: seq<Json>) returns (r: Result<seq<FunctionDef>, ImportError>)
    ensures r == FunctionsOf(Claude, tools, |tools|)
  {
    var funcs: seq<FunctionDef> := [];
    var idx := 0;
    while idx < |tools|
      invariant 0 <= idx <= |tools|
      invariant FunctionsOf(Claude, tools, idx) == Ok(funcs)
    {
      var func := ParseClaudeTool(tools[idx], idx);
      if func.Err? {
        FunctionsOfErrorSticks(Claude, tools, idx + 1, |tools|);
        return Err(func.error);
      }
      funcs := funcs + [func.value];
      idx := idx + 1;
    }
    return Ok(funcs);
  }

  /** `parseToolsJSON` on an already-parsed value. */
  method ParseToolsJSON(json: Json) returns (r: Result<seq<FunctionDef>, ImportError>)
    ensures r == ImportTools(json)
  {
    if !json.Arr? {
      return Err(NotAnArray);
    }
    var format := DetectFormat(json);
    if format.Err? {
      return Err(format.error);
    }
    if format.value == OpenAI {
      r := ParseOpenAIFormat(json.elems);
    } else if format.value == Claude {
      r := ParseClaudeFormat(json.elems);
    } else {
      r := Err(UnknownFormat);
    }
  }

  /** The answer of `validateImportJSON`: whether the import succeeds, and
      otherwise why (its message is `Message(error)`). */
  datatype ImportCheck = ImportCheck(valid: bool, error: Option<ImportError>)

  method ValidateImportJSON(json: Json) returns (result: ImportCheck)
    ensures result.valid <==> ImportTools(json).Ok?
    ensures result.valid ==> result.error == None
    ensures !result.valid ==> result.error == Some(ImportTools(json).error)
  {
    var parsed := ParseToolsJSON(json);
    if parsed.Ok? {
      result := ImportCheck(true, None);
    } else {
      result := ImportCheck(false, Some(parsed.error));
    }
  }
}
