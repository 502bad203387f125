/**
 * The schema validator of `src/schema.js`: the function-name pattern
 * (`validateFunctionName`) and the whole-schema check (`validateSchema`),
 * which reports duplicate function names, missing or malformed names,
 * duplicate parameter keys and parameters without a key.
 */
module Validator {
  import opened Json
  import opened Params

  /** A character that may start a function name: a letter or `_`. */
  predicate IsNameStart(c: char)
  {
    'a' <= c <= 'z' || 'A' <= c <= 'Z' || c == '_'
  }

  /** A character that may follow: a letter, a digit or `_`. */
  predicate IsNameChar(c: char)
  {
    IsNameStart(c) || '0' <= c <= '9'
  }

  /** `validateFunctionName`: the whole name matches `^[a-zA-Z_][a-zA-Z0-9_]*$`,
      matched one character at a time. */
  function ValidFunctionName(name: string): (ok: bool)
    ensures ok <==> |name| > 0 && IsNameStart(name[0]) && forall i :: 1 <= i < |name| ==> IsNameChar(name[i])
  {
    |name| > 0 && IsNameStart(name[0]) && NameCharsFrom(name, 1)
  }

  /** The characters of `name` from `i` on all match `[a-zA-Z0-9_]`. */
  function NameCharsFrom(name: string, i: nat): (ok: bool)
    requires i <= |name|
    ensures ok <==> forall j :: i <= j < |name| ==> IsNameChar(name[j])
    decreases |name| - i
  {
    i == |name| || (IsNameChar(name[i]) && NameCharsFrom(name, i + 1))
  }

  lemma AcceptsSnakeCase()
    ensures ValidFunctionName("get_weather")
    ensures ValidFunctionName("_private2")
    ensures ValidFunctionName("CamelCase")
  {
  }

  lemma RejectsMalformed()
    ensures !ValidFunctionName("")
    ensures !ValidFunctionName("2fast")
    ensures !ValidFunctionName("get-weather")
    ensures !ValidFunctionName("get weather")
  {
    assert "2fast"[0] == '2';
    assert "get-weather"[3] == '-';
    assert "get weather"[3] == ' ';
  }

  /** `xs.filter(x => x)` on strings: the non-empty ones, in order. */
  function NonEmpty(xs: seq<string>): seq<string>
  {
    if |xs| == 0 then []
    else NonEmpty(xs[..|xs| - 1]) + (if xs[|xs| - 1] != "" then [xs[|xs| - 1]] else [])
  }

  lemma {:induction false} NonEmptyAll(xs: seq<string>)
    requires forall i :: 0 <= i < |xs| ==> xs[i] != ""
    ensures NonEmpty(xs) == xs
  {
    if |xs| > 0 {
      NonEmptyAll(xs[..|xs| - 1]);
      assert xs == xs[..|xs| - 1] + [xs[|xs| - 1]];
    }
  }

  /** `xs.filter((x, index) => xs.indexOf(x) !== index)`: every element that
      already occurred earlier, in the order of those later occurrences. */
  function Repeats(xs: seq<string>): seq<string>
  {
    if |xs| == 0 then []
    else
      var init := xs[..|xs| - 1];
      var last := xs[|xs| - 1];
      Repeats(init) + (if last in init then [last] else [])
  }

  /** `[...new Set(xs)]`: the first occurrence of each element, in order. */
  function Dedup(xs: seq<string>): seq<string>
  {
    if |xs| == 0 then []
    else
      var init := xs[..|xs| - 1];
      var last := xs[|xs| - 1];
      Dedup(init) + (if last in init then [] else [last])
  }

  /** The duplicates the validator reports. */
  function Duplicates(xs: seq<string>): seq<string>
  {
    Dedup(Repeats(xs))
  }


  /** An element is repeated exactly when it occurs at two positions. */
  lemma {:induction false} RepeatsMembers(xs: seq<string>)
    ensures forall x :: x in Repeats(xs) <==> exists i, j :: 0 <= i < j < |xs| && xs[i] == x && xs[j] == x
  {
    if |xs| > 0 {
      var init := xs[..|xs| - 1];
      RepeatsMembers(init);
      assert forall i :: 0 <= i < |init| ==> init[i] == xs[i];
      forall x | x in Repeats(xs)
        ensures exists i, j :: 0 <= i < j < |xs| && xs[i] == x && xs[j] == x
      {
        if x !in Repeats(init) {
          var i :| 0 <= i < |init| && init[i] == x;
          assert xs[i] == x && xs[|xs| - 1] == x;
        }
      }
      forall x | exists i, j :: 0 <= i < j < |xs| && xs[i] == x && xs[j] == x
        ensures x in Repeats(xs)
      {
        var i, j :| 0 <= i < j < |xs| && xs[i] == x && xs[j] == x;
        if j < |xs| - 1 {
          assert init[i] == x && init[j] == x;
        } else {
          assert init[i] == x;
        }
      }
    }
  }

  /** `Dedup` keeps every element once and nothing else. */
  lemma {:induction false} DedupMembers(xs: seq<string>)
    ensures forall x :: x in Dedup(xs) <==> x in xs
    ensures Distinct(Dedup(xs))
  {
    if |xs| > 0 {
      var init := xs[..|xs| - 1];
      DedupMembers(init);
      assert xs == init + [xs[|xs| - 1]];
    }
  }

  /** Duplicates are reported in the order of their second occurrence, not
      their first: in `a, b, b, a` the name `b` repeats first. */
  lemma DuplicatesInRepeatOrder()
    ensures Duplicates(["a", "b", "b", "a"]) == ["b", "a"]
    ensures Duplicates(["a", "b", "a"]) == ["a"]
  {
    var a, b := "a", "b";
    assert a != b;
    assert [a, b, b, a][..3] == [a, b, b] && [a, b, b][..2] == [a, b] && [a, b, a][..2] == [a, b];
    assert [a, b][..1] == [a] && [a][..0] == [];
    assert Repeats([a]) == [] && Repeats([a, b]) == [];
    assert Repeats([a, b, b]) == [b];
    assert Repeats([a, b, b, a]) == [b, a];
    assert Repeats([a, b, a]) == [a];
    assert [b, a][..1] == [b] && [b][..0] == [] && [a][..0] == [];
    assert Dedup([b]) == [b] && Dedup([a]) == [a];
  }

  /** The reported duplicates are the elements occurring twice, each once. */
  lemma DuplicatesMembers(xs: seq<string>)
    ensures forall x :: x in Duplicates(xs) <==> exists i, j :: 0 <= i < j < |xs| && xs[i] == x && xs[j] == x
    ensures Distinct(Duplicates(xs))
    ensures Duplicates(xs) == [] <==> Distinct(xs)
  {
    RepeatsMembers(xs);
    DedupMembers(Repeats(xs));
    if !Distinct(xs) {
      var i, j :| 0 <= i < j < |xs| && xs[i] == xs[j];
      assert xs[i] in Duplicates(xs);
    } else {
      EmptyWithoutMembers(Duplicates(xs));
    }
  }

  lemma EmptyWithoutMembers(xs: seq<string>)
    ensures (forall x :: x !in xs) ==> xs == []
  {
    if |xs| > 0 {
      assert xs[0] in xs;
    }
  }

  /** The filter keeps exactly the non-empty elements. */
  lemma {:induction false} NonEmptyMembers(xs: seq<string>)
    ensures forall x :: x in NonEmpty(xs) <==> x in xs && x != ""
  {
    if |xs| > 0 {
      var init := xs[..|xs| - 1];
      NonEmptyMembers(init);
      assert xs == init + [xs[|xs| - 1]];
    }
  }

  lemma {:induction false} NonEmptyAppend(a: seq<string>, b: seq<string>)
    ensures NonEmpty(a + b) == NonEmpty(a) + NonEmpty(b)
  {
    if |b| == 0 {
      assert a + b == a;
    } else {
      var init, last := b[..|b| - 1], b[|b| - 1];
      NonEmptyAppend(a, init);
      assert (a + b)[..|a + b| - 1] == a + init && (a + b)[|a + b| - 1] == last;
    }
  }

  /** Dropping the empty elements first or dropping them from the repeats
      comes to the same thing. */
  lemma {:induction false} RepeatsNonEmpty(xs: seq<string>)
    ensures Repeats(NonEmpty(xs)) == NonEmpty(Repeats(xs))
  {
    if |xs| > 0 {
      var init, last := xs[..|xs| - 1], xs[|xs| - 1];
      RepeatsNonEmpty(init);
      NonEmptyMembers(init);
      var tail := if last in init then [last] else [];
      assert Repeats(xs) == Repeats(init) + tail;
      NonEmptyAppend(Repeats(init), tail);
      if last == "" {
        assert NonEmpty(xs) == NonEmpty(init);
        assert NonEmpty(tail) == [] by {
          if tail != [] {
            assert tail[..0] == [];
          }
        }
      } else {
        var kept := NonEmpty(init) + [last];
        assert NonEmpty(xs) == kept;
        assert kept[..|kept| - 1] == NonEmpty(init) && kept[|kept| - 1] == last;
        assert Repeats(kept) == Repeats(NonEmpty(init)) + tail;
        assert NonEmpty(tail) == tail by {
          if tail != [] {
            assert tail[..0] == [];
          }
        }
      }
    }
  }

  /** The duplicates among the non-empty elements: each non-empty element
      that occurs at two positions, once. */
  lemma DuplicatesNonEmpty(xs: seq<string>)
    ensures forall x :: x in Duplicates(NonEmpty(xs)) <==>
      x != "" && exists i, j :: 0 <= i < j < |xs| && xs[i] == x && xs[j] == x
    ensures Distinct(Duplicates(NonEmpty(xs)))
  {
    RepeatsNonEmpty(xs);
    RepeatsMembers(xs);
    NonEmptyMembers(Repeats(xs));
    DedupMembers(Repeats(NonEmpty(xs)));
  }

  /** `arr.join(sep)`. */
  function Join(xs: seq<string>, sep: string): string
  {
    if |xs| == 0 then ""
    else if |xs| == 1 then xs[0]
    else Join(xs[..|xs| - 1], sep) + sep + xs[|xs| - 1]
  }

  /** One problem `validateSchema` reports. */
  datatype ValidationError =
    | DuplicateFunctionNames(names: seq<string>)
    | NameRequired(position: nat)
    | InvalidName(name: string)
    | DuplicateParameterKeys(functionName: string, keys: seq<string>)
    | MissingParameterKey(functionName: string)

  /** The text `validateSchema` pushes for each problem. */
  function Message(e: ValidationError): string
  {
    match e
    case DuplicateFunctionNames(names) => "Duplicate function names: " + Join(names, ", ")
    case NameRequired(position) => "Function " + NatToString(position) + ": name is required"
    case InvalidName(name) =>
      "Function \"" + name + "\": invalid name (use snake_case: letters, numbers, underscores only, cannot start with number)"
    case DuplicateParameterKeys(name, keys) => "Function \"" + name + "\": duplicate parameter keys: " + Join(keys, ", ")
    case MissingParameterKey(name) => "Function \"" + name + "\": parameter missing key"
  }

  function Messages(es: seq<ValidationError>): seq<string>
  {
    seq(|es|, i requires 0 <= i < |es| => Message(es[i]))
  }

  /** The names of the functions, in order. */
  function Names(fs: seq<FunctionDef>): seq<string>
  {
    seq(|fs|, i requires 0 <= i < |fs| => fs[i].name)
  }

  /** The duplicate-name check over the non-empty names. */
  function NameClashes(fs: seq<FunctionDef>): seq<ValidationError>
  {
    var duplicates := Duplicates(NonEmpty(Names(fs)));
    if |duplicates| > 0 then [DuplicateFunctionNames(duplicates)] else []
  }

  /** The name check of the function at (zero-based) position `idx`. */
  function NameErrors(f: FunctionDef, idx: nat): seq<ValidationError>
  {
    if f.name == "" then [NameRequired(idx + 1)]
    else if !ValidFunctionName(f.name) then [InvalidName(f.name)]
    else []
  }

  /** The duplicate-key check over the non-empty parameter keys. */
  function KeyClashes(f: FunctionDef): seq<ValidationError>
  {
    var duplicates := Duplicates(NonEmpty(ParamKeys(f.params)));
    if |duplicates| > 0 then [DuplicateParameterKeys(f.name, duplicates)] else []
  }

  /** One report per parameter of `f` whose key is empty, in order. */
  function MissingKeys(name: string, ps: seq<Param>): seq<ValidationError>
  {
    if |ps| == 0 then []
    else MissingKeys(name, ps[..|ps| - 1]) + (if ps[|ps| - 1].key == "" then [MissingParameterKey(name)] else [])
  }

  function FunctionErrors(f: FunctionDef, idx: nat): seq<ValidationError>
  {
    NameErrors(f, idx) + KeyClashes(f) + MissingKeys(f.name, f.params)
  }

  /** The parts, one after another. */
  function Flatten<T>(parts: seq<seq<T>>): seq<T>
  {
    if |parts| == 0 then [] else Flatten(parts[..|parts| - 1]) + parts[|parts| - 1]
  }

  /** Nothing is left after flattening exactly when every part is empty. */
  lemma {:induction false} FlattenEmpty<T>(parts: seq<seq<T>>)
    ensures Flatten(parts) == [] <==> forall i :: 0 <= i < |parts| ==> parts[i] == []
  {
    if |parts| > 0 {
      var init := parts[..|parts| - 1];
      FlattenEmpty(init);
      AppendEmpty(Flatten(init), parts[|parts| - 1]);
      assert forall i :: 0 <= i < |init| ==> init[i] == parts[i];
    }
  }

  /** The reports about each function of `fs`, by position. */
  function PerFunctionErrors(fs: seq<FunctionDef>): seq<seq<ValidationError>>
  {
    seq(|fs|, i requires 0 <= i < |fs| => FunctionErrors(fs[i], i))
  }

  /** The reports of the functions in `fs`, function by function. */
  function EachFunctionErrors(fs: seq<FunctionDef>): seq<ValidationError>
  {
    Flatten(PerFunctionErrors(fs))
  }

  /** One more function adds its own reports at the end. */
  lemma EachFunctionErrorsSnoc(fs: seq<FunctionDef>, idx: nat)
    requires idx < |fs|
    ensures EachFunctionErrors(fs[..idx + 1]) == EachFunctionErrors(fs[..idx]) + FunctionErrors(fs[idx], idx)
  {
    var parts := PerFunctionErrors(fs[..idx + 1]);
    assert parts[..idx] == PerFunctionErrors(fs[..idx]);
  }

  /** Every problem `validateSchema(fs)` reports, in order. */
  function SchemaErrors(fs: seq<FunctionDef>): seq<ValidationError>
  {
    NameClashes(fs) + EachFunctionErrors(fs)
  }

  /** No parameter is reported for a missing key exactly when every key is
      non-empty. */
  lemma {:induction false} MissingKeysEmpty(name: string, ps: seq<Param>)
    ensures MissingKeys(name, ps) == [] <==> forall j :: 0 <= j < |ps| ==> ps[j].key != ""
  {
    if |ps| > 0 {
      MissingKeysEmpty(name, ps[..|ps| - 1]);
      assert forall j :: 0 <= j < |ps| - 1 ==> ps[..|ps| - 1][j] == ps[j];
    }
  }

  /** Every parameter has a key, and no two share one. */
  predicate KeysComplete(ps: seq<Param>)
  {
    (forall j :: 0 <= j < |ps| ==> ps[j].key != "") && DistinctParamKeys(ps)
  }

  /** The duplicate-name check reports at most once, naming every non-empty
      name that two functions share, each once; it is silent exactly when
      no non-empty name repeats. */
  lemma NameClashesExactly(fs: seq<FunctionDef>)
    ensures |NameClashes(fs)| <= 1
    ensures forall e :: e in NameClashes(fs) ==>
      && e.DuplicateFunctionNames? && Distinct(e.names)
      && forall x :: x in e.names <==> x != "" && exists i, j :: 0 <= i < j < |fs| && fs[i].name == x && fs[j].name == x
    ensures NameClashes(fs) == [] <==> forall i, j :: 0 <= i < j < |fs| && fs[i].name != "" ==> fs[i].name != fs[j].name
  {
    var d := Duplicates(NonEmpty(Names(fs)));
    DuplicateNamesMembers(fs);
    if |d| > 0 {
      assert d[0] in d;
    } else {
      forall i, j | 0 <= i < j < |fs| && fs[i].name != ""
        ensures fs[i].name != fs[j].name
      {
        assert fs[i].name !in d;
      }
    }
  }

  /** The names the duplicate-name report lists. */
  lemma DuplicateNamesMembers(fs: seq<FunctionDef>)
    ensures forall x :: x in Duplicates(NonEmpty(Names(fs))) <==>
      x != "" && exists i, j :: 0 <= i < j < |fs| && fs[i].name == x && fs[j].name == x
    ensures Distinct(Duplicates(NonEmpty(Names(fs))))
  {
    var names := Names(fs);
    DuplicatesNonEmpty(names);
    forall x | x in Duplicates(NonEmpty(names))
      ensures exists i, j :: 0 <= i < j < |fs| && fs[i].name == x && fs[j].name == x
    {
      var i, j :| 0 <= i < j < |names| && names[i] == x && names[j] == x;
      assert fs[i].name == x && fs[j].name == x;
    }
    forall x | x != "" && exists i, j :: 0 <= i < j < |fs| && fs[i].name == x && fs[j].name == x
      ensures x in Duplicates(NonEmpty(names))
    {
      var i, j :| 0 <= i < j < |fs| && fs[i].name == x && fs[j].name == x;
      assert names[i] == x && names[j] == x;
    }
  }

  /** The name of a function is reported on exactly when it does not match
      the pattern (an empty name never does). */
  lemma NameErrorsEmpty(f: FunctionDef, idx: nat)
    ensures NameErrors(f, idx) == [] <==> ValidFunctionName(f.name)
  {
  }

  /** The keys of a function are reported on exactly when one is missing or
      two are the same. */
  lemma KeyErrorsEmpty(f: FunctionDef)
    ensures KeyClashes(f) + MissingKeys(f.name, f.params) == [] <==> KeysComplete(f.params)
  {
    var keys := ParamKeys(f.params);
    assert forall j :: 0 <= j < |keys| ==> keys[j] == f.params[j].key;
    MissingKeysEmpty(f.name, f.params);
    assert KeyClashes(f) == [] <==> Distinct(NonEmpty(keys)) by {
      DuplicatesMembers(NonEmpty(keys));
    }
    if forall j :: 0 <= j < |f.params| ==> f.params[j].key != "" {
      NonEmptyAll(keys);
      assert Distinct(NonEmpty(keys)) <==> DistinctParamKeys(f.params);
    }
  }

  /** The name and the keys are all that is checked of one function. */
  predicate FunctionValid(f: FunctionDef)
  {
    ValidFunctionName(f.name) && KeysComplete(f.params)
  }

  /** A function is reported on exactly when its name is missing or does not
      match the pattern, or a key is missing or repeated. */
  lemma FunctionErrorsEmpty(f: FunctionDef, idx: nat)
    ensures FunctionErrors(f, idx) == [] <==> FunctionValid(f)
  {
    NameErrorsEmpty(f, idx);
    KeyErrorsEmpty(f);
    AppendAssoc(NameErrors(f, idx), KeyClashes(f), MissingKeys(f.name, f.params));
  }

  /** The per-function reports are empty exactly when each function passes. */
  lemma EachFunctionErrorsEmpty(fs: seq<FunctionDef>)
    ensures EachFunctionErrors(fs) == [] <==> forall i :: 0 <= i < |fs| ==> FunctionValid(fs[i])
  {
    var parts := PerFunctionErrors(fs);
    FlattenEmpty(parts);
    forall i | 0 <= i < |fs|
      ensures parts[i] == [] <==> FunctionValid(fs[i])
    {
      FunctionErrorsEmpty(fs[i], i);
    }
  }

  /** `validateSchema` accepts a function list exactly when every name matches
      the pattern, no two functions share a name, and in every function each
      parameter has a key and no two parameters share one. */
  lemma ValidExactly(fs: seq<FunctionDef>)
    ensures SchemaErrors(fs) == [] <==>
      (forall i :: 0 <= i < |fs| ==> FunctionValid(fs[i])) && Distinct(Names(fs))
  {
    EachFunctionErrorsEmpty(fs);
    DuplicatesMembers(NonEmpty(Names(fs)));
    if forall i :: 0 <= i < |fs| ==> ValidFunctionName(fs[i].name) {
      NonEmptyAll(Names(fs));
    }
  }

  lemma AppendEmpty<T>(a: seq<T>, b: seq<T>)
    ensures a + b == [] <==> a == [] && b == []
  {
    assert |a + b| == |a| + |b|;
  }

  lemma AppendAssoc<T>(a: seq<T>, b: seq<T>, c: seq<T>)
    ensures (a + b) + c == a + (b + c)
  {
  }

  datatype ValidationResult = ValidationResult(valid: bool, errors: seq<string>, warnings: seq<string>)

  /** `validateSchema`: the reports are collected in order and rendered by
      `Message`. */
  method ValidateSchema(fs: seq<FunctionDef>) returns (r: ValidationResult)
    ensures r.errors == Messages(SchemaErrors(fs))
    ensures r.valid <==> SchemaErrors(fs) == []
    ensures r.warnings == []
  {
    var errors: seq<ValidationError> := [];
    var duplicateNames := Duplicates(NonEmpty(Names(fs)));
    if |duplicateNames| > 0 {
      errors := errors + [DuplicateFunctionNames(duplicateNames)];
    }
    var idx := 0;
    while idx < |fs|
      invariant 0 <= idx <= |fs|
      invariant errors == NameClashes(fs) + EachFunctionErrors(fs[..idx])
    {
      var reports := CheckFunction(fs[idx], idx);
      EachFunctionErrorsSnoc(fs, idx);
      AppendAssoc(NameClashes(fs), EachFunctionErrors(fs[..idx]), reports);
      errors := errors + reports;
      idx := idx + 1;
    }
    assert fs[..idx] == fs;
    r := ValidationResult(|errors| == 0, Messages(errors), []);
  }

  /** The body of the `functions.forEach` callback of `validateSchema`: the
      reports about the function at position `idx`. */
  method CheckFunction(func: FunctionDef, idx: nat) returns (errors: seq<ValidationError>)
    ensures errors == FunctionErrors(func, idx)
  {
    errors := [];
    if func.name == "" {
      errors := errors + [NameRequired(idx + 1)];
    } else if !ValidFunctionName(func.name) {
      errors := errors + [InvalidName(func.name)];
    }
    var duplicateKeys := Duplicates(NonEmpty(ParamKeys(func.params)));
    if |duplicateKeys| > 0 {
      errors := errors + [DuplicateParameterKeys(func.name, duplicateKeys)];
    }
    var k := 0;
    while k < |func.params|
      invariant 0 <= k <= |func.params|
      invariant errors == NameErrors(func, idx) + KeyClashes(func) + MissingKeys(func.name, func.params[..k])
    {
      if func.params[k].key == "" {
        errors := errors + [MissingParameterKey(func.name)];
      }
      assert func.params[..k + 1][..k] == func.params[..k];
      k := k + 1;
    }
    assert func.params[..k] == func.params;
  }
}
