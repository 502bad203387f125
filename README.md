# Tool-schema transformer, modelled in Dafny

The tool-use scheme generator lets a user describe functions and their
parameters. It turns them into the OpenAI-style tools document
(`[{type: "function", function: {name, description, parameters}}]`) whose
`parameters` are JSON Schema objects. It validates the described functions.
It also imports a tools document again, either OpenAI-style or
Claude-style (`[{name, description, input_schema}]`), and turns it back into
functions and parameters.

This project models that transformer:

- `json.dfy` holds the JSON values the transformer reads and writes: objects
  are ordered member lists. It also holds the pieces of JavaScript object
  semantics the code relies on: member access, truthiness, `Object.entries`,
  member assignment and `Number(...)`.
- `params.dfy` holds the editor's model: a function has a name, a
  description and parameters, and a parameter has a key, a type, a
  description, a required flag, optional constraints and optional nested
  properties.
- `builder.dfy` is `buildPropertySchema` and `generateToolsJSON`. Each is a
  specification function plus a method that follows the source's
  assignments and loops and is proved equal to it.
- `validator.dfy` is `validateFunctionName` and `validateSchema`. Each
  reported problem is a structured error, which `Message` renders as the
  source's text.
- `importer.dfy` is `parsePropertySchema`, `detectFormat`,
  `parseOpenAIFormat`, `parseClaudeFormat`, `parseToolsJSON` and
  `validateImportJSON`. Every `throw`, and every TypeError the source runs
  into, is an `Err` of a `Result`.
- `roundtrip.dfy` proves that importing a generated document gives back
  every function, in order, provided that the function list is non-empty
  and that no two parameters of a function share a key. Each parameter
  comes back in the normalized form `Normalized` describes. An empty list
  is rejected as being of unknown format. For any parameters, `properties`
  has one member per distinct key, in the order in which the keys first
  occur, and that member holds the fragment of the last parameter with that
  key (`RoundTrip.ParametersProperties`). So when two parameters share a
  key, the later fragment replaces the earlier one
  (`RoundTrip.RepeatedKeyKeepsLast`).
- `canonical.dfy` characterises the parameters that come back unchanged and
  derives the exact round trip for functions whose parameters are in that
  form, provided that the list is non-empty and that the parameter keys of
  each function, and the nested names of each parameter, are distinct.

Two behaviours of the code worth knowing:

- `validateSchema` lists duplicate names in the order in which each name
  first *repeats*, not in the order of first occurrence. In `a, b, b, a` it
  reports `b, a` (`Validator.DuplicatesInRepeatOrder`).
- `validateSchema` reports duplicate parameter keys of a function before its
  parameters without a key.

## Model

| member | source | states |
|---|---|---|
| Builder.NumberOf | src/schema.js:31-36 | a numeric constraint is emitted exactly when it is defined and not `''` |
| Builder.RequiredNamesMembers | src/schema.js:68-73 | a nested name is listed in `required` exactly when an entry of that name is required |
| Builder.ScalarConstraints | src/schema.js:15-47 | the loop-free part of the builder produces the annotation, numeric and string members in source order |
| Builder.BuildNestedProperties | src/schema.js:63-67 | the `for…of` loop assigns each nested fragment under its name, a later entry overwriting an earlier one of the same name |
| Builder.BuildPropertySchema | src/schema.js:14-77 | the method builds exactly the fragment whose members `PropertySchemaRead` describes |
| Builder.FragmentRead | src/schema.js:14-77 | member `k` of the fragment is whatever the builder's rule for `k` assigns |
| Builder.AnnotationsRead | src/schema.js:15-28 | `type`, `description`, `enum` and `default` follow their own rules and no other member is set there |
| Builder.NumericBoundsRead | src/schema.js:31-36 | `minimum` and `maximum` are added by their rules and nothing earlier changes |
| Builder.StringBoundsRead | src/schema.js:39-47 | `pattern`, `minLength` and `maxLength` are added by their rules and nothing earlier changes |
| Builder.ArrayMembersRead | src/schema.js:50-60 | `items`, `minItems` and `maxItems` are added only for an array and nothing earlier changes |
| Builder.ObjectMembersRead | src/schema.js:63-74 | `properties` and `required` are added only for an object with properties and nothing earlier changes |
| Builder.PropertySchemaRead | src/schema.js:14-77 | each member of the fragment follows its rule: `type` always; `description` iff non-empty; `enum` iff non-empty; `default` iff defined and not `''`; bounds whatever the type; array members only for arrays; `properties`/`required` only for objects with properties |
| Builder.RequiredKeysMembers | src/schema.js:100-105 | a key is in the collected `required` list exactly when a parameter with that key is required |
| Builder.GenerateToolsJSON | src/schema.js:82-119 | the method builds exactly the document `RoundTrip.GeneratedDocument` describes, one tool per function |
| Builder.BuildParameters | src/schema.js:96-115 | the `forEach` loop builds exactly the `parameters` object that `RoundTrip.ParametersShape` and `RoundTrip.ParametersProperties` describe |
| Validator.ValidFunctionName | src/schema.js:6-9 | a name is valid iff it is non-empty, starts with a letter or `_`, and continues with letters, digits or `_` |
| Validator.NameCharsFrom | src/schema.js:7 | the `[a-zA-Z0-9_]*` tail matches iff every character from position `i` on is a name character |
| Validator.AcceptsSnakeCase | src/schema.js:6-9 | `get_weather`, `_private2` and `CamelCase` are accepted |
| Validator.RejectsMalformed | src/schema.js:6-9 | the empty name, `2fast`, `get-weather` and `get weather` are rejected |
| Validator.NonEmptyAll | src/schema.js:129 | the filter keeps a list with no empty string unchanged |
| Validator.NonEmptyMembers | src/schema.js:129 | the filter keeps exactly the non-empty strings |
| Validator.NonEmptyAppend | src/schema.js:129 | filtering a concatenation filters each part |
| Validator.RepeatsMembers | src/schema.js:130 | an element is kept by the `indexOf` filter iff it occurs at two positions |
| Validator.RepeatsNonEmpty | src/schema.js:129-130 | filtering empty strings commutes with taking the repeats |
| Validator.DedupMembers | src/schema.js:132 | `new Set` keeps every element, once |
| Validator.DuplicatesInRepeatOrder | src/schema.js:129-132 | duplicates are listed in the order in which they repeat (`a,b,b,a` gives `b,a`) |
| Validator.DuplicatesMembers | src/schema.js:130-132 | the reported duplicates are exactly the repeated elements, each once, and there are none iff all elements are distinct |
| Validator.DuplicatesNonEmpty | src/schema.js:129-132 | the duplicates among non-empty strings are exactly the non-empty strings that occur twice, each once |
| Validator.DuplicateNamesMembers | src/schema.js:129-132 | the duplicate-name report lists exactly the non-empty names two functions share, each once |
| Validator.NameClashesExactly | src/schema.js:128-133 | there is at most one duplicate-name report; it names each shared non-empty name once; it is absent iff no non-empty name repeats |
| Validator.EachFunctionErrorsSnoc | src/schema.js:136-158 | each function adds its own reports after those of the functions before it |
| Validator.MissingKeysEmpty | src/schema.js:152-156 | no "missing key" report iff every parameter key is non-empty |
| Validator.NameErrorsEmpty | src/schema.js:137-141 | a function gets no name report iff its name is valid |
| Validator.KeyErrorsEmpty | src/schema.js:144-157 | a function gets no key report iff its keys are all non-empty and distinct |
| Validator.FunctionErrorsEmpty | src/schema.js:136-157 | a function gets no report iff its name is valid and its keys are non-empty and distinct |
| Validator.EachFunctionErrorsEmpty | src/schema.js:136-158 | the per-function checks report nothing iff every function passes |
| Validator.ValidExactly | src/schema.js:124-168 | the schema has no problem iff every function passes and the names are distinct |
| Validator.CheckFunction | src/schema.js:136-157 | the callback reports, in order: the name problem, the duplicate keys, one report per empty key |
| Validator.ValidateSchema | src/schema.js:124-169 | `errors` are the reports in source order; `valid` iff there are none; `warnings` is always empty |
| Importer.RequiredStringIncludes | src/import.js:58-64 | a non-empty string `required` includes a key iff the key occurs in it; an empty one includes nothing |
| Importer.RequiredStringMatchesSubstrings | src/import.js:58-64 | examples: `"location"` includes `"cat"`, and a number `required` raises a TypeError |
| Importer.ParamOf | src/import.js:6-70 | a parsed parameter carries the given key and flag; a `null` schema is a TypeError; only TypeErrors can occur |
| Importer.PropertiesOf | src/import.js:55-67 | parsing the nested properties fails only with a TypeError |
| Importer.EntriesOf | src/import.js:60-66 | parsing the nested entries fails only with a TypeError |
| Importer.EntriesOfStep | src/import.js:60-66 | one more entry that parses extends the entries parsed so far |
| Importer.PropertiesOfObject | src/import.js:56-67 | an object schema whose entries all parse has those entries as its nested properties |
| Importer.EntriesOfErrorSticks | src/import.js:60-66 | once an entry fails, the whole loop fails with that error |
| Importer.EntriesOfOk | src/import.js:58-66 | parsed entries keep the entry order and names; each is flagged iff `required` includes its name |
| Importer.ParamOfKeyed | src/import.js:6-70 | a parsed parameter has distinct nested names at every depth, each nested parameter keyed by its name |
| Importer.EntriesKeyed | src/import.js:60-66 | each parsed entry is keyed by its name and has distinct nested names |
| Importer.AssignKeepsMembers | src/import.js:61 | assigning entries one by one introduces no member that was not an entry |
| Importer.ParamOfFields | src/import.js:6-67 | `type`/`description` get their defaults; `enum`/`pattern` are copied when truthy; other constraints whenever defined, whatever the type; array members only for arrays; nested properties only for objects with properties |
| Importer.ParseScalars | src/import.js:7-53 | the loop-free part of the parser builds the object literal and copies the options and constraints |
| Importer.ParseAdvancedOptions | src/import.js:15-21 | `enum` is copied when truthy and `default` whenever defined |
| Importer.ParseNumericConstraints | src/import.js:24-29 | `minimum` and `maximum` are copied whenever defined |
| Importer.ParseStringConstraints | src/import.js:32-40 | `pattern` is copied when truthy; `minLength` and `maxLength` whenever defined |
| Importer.ItemType | src/import.js:45 | the item type is `items.type` whenever that is truthy, whatever its JSON type, and `"string"` otherwise |
| Importer.ParseArrayConstraints | src/import.js:43-53 | array members are set only for an array schema, `items.type` defaulting to `string` |
| Importer.NumericItemTypeKept | src/import.js:43-46 | example: an array schema with `items: {type: 5}` is read with item type `5` |
| Importer.ParseProperties | src/import.js:55-67 | the nested-property loop parses exactly what `PropertiesOf` describes |
| Importer.ParsePropertySchema | src/import.js:6-70 | the method parses exactly the parameter `ParamOf` describes |
| Importer.ParametersOfEntries | src/import.js:115-123 | a tool's parameters are its property entries, in order, when they all parse |
| Importer.OpenAIToolOf | src/import.js:99-127 | an OpenAI tool fails citing its own index when it is not of type `function` or lacks `function`, and otherwise only with a TypeError |
| Importer.OpenAIToolOfFunction | src/import.js:108-124 | a function tool is read from its `function` object |
| Importer.ClaudeToolOf | src/import.js:134-157 | a Claude tool fails citing its own index when it lacks `name`, and otherwise only with a TypeError |
| Importer.ToolResults | src/import.js:98-159 | there is one parse result per tool |
| Importer.CollectStep | src/import.js:98-159 | one more callback result that succeeds extends the mapped list |
| Importer.CollectErrorSticks | src/import.js:98-159 | once a callback throws, the whole `map` throws that error |
| Importer.CollectOk | src/import.js:98-159 | `map` succeeds iff every callback does, and then holds their results in order |
| Importer.CollectFirstError | src/import.js:98-159 | a failed `map` fails with the error of the first failing callback |
| Importer.FunctionsOfStep | src/import.js:98-128 | one more tool that parses extends the parsed functions |
| Importer.FunctionsOfErrorSticks | src/import.js:98-128 | one bad tool makes the whole parse fail; no partial list |
| Importer.FunctionsOfOk | src/import.js:98-128 | the parse succeeds iff every tool parses, and yields one function per tool, in order |
| Importer.FunctionsOfFirstError | src/import.js:98-159 | a failed parse reports the first bad tool |
| Importer.DetectFormatFirstOnly | src/import.js:75-93 | only the first tool decides the format, and the empty array is unknown |
| Importer.DetectFormatOpenAIWins | src/import.js:83-85 | a first tool of type `function` with `function` makes the array OpenAI-style, even if it also looks Claude-style |
| Importer.DetectFormatOtherwise | src/import.js:88-92 | otherwise `name` and `input_schema` make it Claude-style, and anything else is unknown |
| Importer.ImportRejects | src/import.js:175-189 | a non-array fails with "Tools must be an array", and `[]` with the unknown-format error |
| Importer.ImportOk | src/import.js:180-189 | a successful import has one function per tool, in order, each read in the detected format |
| Importer.ImportFirstBadTool | src/import.js:98-159 | a failed import reports the first bad tool, and an error about a tool cites that tool's index |
| Importer.ParseParameters | src/import.js:115-123 | the `push` loop builds exactly the parameters `ParametersOf` describes |
| Importer.ParseFunction | src/import.js:108-124 | name and description default to `''`, and the parameters to none |
| Importer.ParseOpenAITool | src/import.js:99-127 | the callback computes exactly `OpenAIToolOf` |
| Importer.ParseClaudeTool | src/import.js:134-157 | the callback computes exactly `ClaudeToolOf` |
| Importer.ParseOpenAIFormat | src/import.js:98-128 | the loop over the tools computes exactly the `map` `FunctionsOf` describes |
| Importer.ParseClaudeFormat | src/import.js:133-159 | the loop over the tools computes exactly the `map` `FunctionsOf` describes |
| Importer.ParseToolsJSON | src/import.js:164-190 | the dispatch computes exactly `ImportTools` |
| Importer.ValidateImportJSON | src/import.js:195-202 | `valid` iff the import succeeds; otherwise the error is the import's error |
| RoundTrip.IncludesListed | src/import.js:64 | a key is found in a generated `required` list iff it is listed |
| RoundTrip.FragmentReads | src/schema.js:14-77 | a built fragment shows every member of its parameter, nested fragments included |
| RoundTrip.FragmentAnnotations | src/schema.js:15-28 | the fragment's `type`, `description`, `enum` and `default` follow the parameter |
| RoundTrip.FragmentBounds | src/schema.js:31-47 | the fragment's numeric and string bounds follow the parameter |
| RoundTrip.FragmentArray | src/schema.js:50-60 | the fragment's array members follow the parameter |
| RoundTrip.FragmentObject | src/schema.js:63-74 | the fragment's `properties` has one member per nested entry, in order, and `required` lists the required names |
| RoundTrip.FragmentObjectMembers | src/schema.js:63-74 | the fragment's `type`, `properties` and `required` members |
| RoundTrip.NestedFragmentsRead | src/schema.js:65-67 | each nested fragment is stored under its entry's name and shows its parameter |
| RoundTrip.ScalarRoundTrip | src/import.js:7-53 | parsing a fragment recovers every scalar member of the normalized parameter |
| RoundTrip.AnnotationsRoundTrip | src/import.js:7-21 | parsing recovers key, type, description, flag, `enum` and `default` |
| RoundTrip.BoundsRoundTrip | src/import.js:24-40 | parsing recovers the numeric and string bounds |
| RoundTrip.ArrayRoundTrip | src/import.js:43-53 | parsing recovers the array members |
| RoundTrip.ParamRoundTrip | src/import.js:6-70 | parsing the fragment of a parameter gives back the normalized parameter |
| RoundTrip.ParamFromReads | src/import.js:6-70 | parsing any schema that shows a parameter gives back the normalized parameter |
| RoundTrip.PropertiesFromReads | src/import.js:56-67 | parsing recovers the normalized nested properties |
| RoundTrip.EntriesFromReads | src/import.js:60-66 | parsing recovers the nested entries in order, each with its flag |
| RoundTrip.RequiredFlag | src/schema.js:68-73 | among distinct names, a name is listed iff its entry is required |
| RoundTrip.RequiredKeyFlag | src/schema.js:100-105 | among distinct keys, the generated `required` list includes a key iff its parameter is required |
| RoundTrip.ParamReads | src/schema.js:100-101 | each parameter's fragment is stored under its key and shows that parameter |
| RoundTrip.ParamEntriesFromReads | src/import.js:120-122 | for parameters with distinct keys and distinct nested names, parsing the generated `properties` recovers the parameters in order, with their flags |
| RoundTrip.ParametersSchemaReads | src/schema.js:107-114 | the `properties` and `required` members of a generated `parameters` object |
| RoundTrip.RequiredListed | src/schema.js:112-114 | `required` is emitted iff some parameter is required |
| RoundTrip.RepeatedKeyKeepsLast | src/schema.js:100-101 | two parameters with one key leave one member in `properties`, the later parameter's fragment |
| RoundTrip.ParametersShape | src/schema.js:96-115 | `parameters` has type `object` and `required` iff some parameter is required; for parameters with distinct keys, `properties` holds one fragment per parameter, under its key and in order |
| RoundTrip.ParametersProperties | src/schema.js:96-104 | for any parameters, repeated keys included, `properties` has one member per distinct key, in the order in which the keys first occur, holding the fragment of the last parameter with that key |
| RoundTrip.AssignKeys | src/schema.js:100 | assigning members one after another keeps each name once, in the order of its first assignment |
| Json.KeysPut | src/schema.js:100 | `obj[k] = v` appends the name `k` only when the object does not have it yet |
| Json.LookupPut | src/schema.js:100 | after `obj[k] = v`, member `k` holds `v` and every other member is unchanged |
| Json.AssignLookup | src/schema.js:100 | after assigning members one after another, each name holds the value it was last assigned |
| RoundTrip.ParamSchemasImported | src/import.js:120-122 | the property fragments of parameters with distinct keys parse back as the normalized parameters, each under its key |
| RoundTrip.ParametersRoundTrip | src/import.js:115-123 | for a non-empty list of parameters with distinct keys and distinct nested names, parsing the generated `parameters` object gives back the normalized parameters, in order |
| RoundTrip.ToolReads | src/schema.js:84-115 | a tool has type `function`; its `function` holds the name, the description iff non-empty, and the parameters iff there are any |
| RoundTrip.GeneratedDocument | src/schema.js:82-119 | one tool per function, in order: a function tool named like the function, even when the name is empty |
| RoundTrip.ToolRoundTrip | src/import.js:99-127 | for a function whose parameter keys and nested names are distinct (`Importable`), parsing its generated tool gives back the normalized function, at any index |
| RoundTrip.GeneratedFunctions | src/import.js:98-128 | for functions whose parameter keys and nested names are distinct (`Importable`), parsing the generated tools gives back the normalized functions, in order |
| RoundTrip.ImportGenerated | src/schema.js:82-119 | importing the document generated from a non-empty list whose functions have distinct parameter keys gives back every function, in order, with its name, its description and its normalized parameters |
| Canonical.CanonicalExactly | src/import.js:6-70 | a parameter comes back unchanged from its fragment iff it is in canonical form |
| Canonical.NormalizedCanonical | src/import.js:6-70 | every parameter read back from a fragment is in canonical form |
| Canonical.CanonicalFixed | src/import.js:6-70 | a canonical parameter is its own normalized form |
| Canonical.CanonicalRoundTrip | src/schema.js:82-119 | a non-empty list of canonical functions whose parameter keys and nested names are distinct (`Importable`) is imported back exactly |
| Canonical.RoundTripKeeps | src/schema.js:82-119 | for a non-empty list of functions whose parameter keys and nested names are distinct (`Importable`), the round trip keeps every name, description and parameter key, description and flag in order; a type is kept, with the empty type read as `string` |

## Left out

- `JSON.parse` of a string input (src/import.js:168-169): the importer takes an already-parsed JSON value.
- `formatJSON` and the `JSON.stringify` check in `validateSchema`: building the document is total, so the "JSON generation error" report cannot occur and is not modelled.
- Floating-point numbers: `Num` holds an integer, and `Number(...)` is modelled only on `null`, booleans and numbers. A string or other value is passed through unchanged.
- JavaScript's ordering of integer-like object keys before the other keys: an object keeps insertion order.
- Duplicate keys inside one JSON object text, and the special `__proto__` key.
- `Importer.ParamOf`: a non-string `type` or `description` is read as its default (`string` or `''`); JavaScript would keep the raw value.
- `Importer.FunctionOf`: a non-string `name` or `description` is read as `''`; JavaScript would keep the raw value.
- `Importer.EntriesOf`: `Object.entries` of a string `properties` value (one entry per character) is modelled as having no entries.
- `Builder.PropertySchemaRead`: an `enum` given as an object with a `length` member is treated as having no elements.
- `Importer.Message`: a TypeError's message depends on the JavaScript engine and is modelled only as `NullMember` or `NotIncludable`.
- `Validator.ValidateSchema`: reports are structured values, rendered as the source's text by `Validator.Message`.
- `RoundTrip.ParametersShape`: the one-fragment-per-parameter shape is stated for distinct keys only. For repeated keys, `RoundTrip.ParametersProperties` states what `properties` holds.
- `RoundTrip.ParamEntriesFromReads`: stated for parameters with distinct keys and distinct nested names only; with a repeated key the import returns fewer parameters (`RoundTrip.ParametersProperties`).
- `RoundTrip.ParamSchemasImported`: stated for parameters with distinct keys and distinct nested names only; with a repeated key the import returns fewer parameters (`RoundTrip.ParametersProperties`).
- `RoundTrip.ParametersRoundTrip`: stated for parameters with distinct keys and distinct nested names only; with a repeated key the import returns fewer parameters (`RoundTrip.ParametersProperties`).
- `RoundTrip.ToolRoundTrip`: stated for `Importable` functions only (distinct parameter keys and nested names); with a repeated key the import returns fewer parameters.
- `RoundTrip.GeneratedFunctions`: stated for `Importable` functions only (distinct parameter keys and nested names); with a repeated key the import returns fewer parameters.
- `Canonical.CanonicalRoundTrip`: stated for non-empty lists of `Importable` functions only. The editor can add two fresh parameters with the empty key; both are canonical, but the generated document keeps one of them.
- `Canonical.RoundTripKeeps`: stated for non-empty lists of `Importable` functions only. The editor can add two fresh parameters with the empty key; both are canonical, but the generated document keeps one of them.
- `RoundTrip.ImportGenerated`: the round trip assumes a non-empty function list, distinct parameter keys within each function (`DistinctParamKeys`; a repeated key loses a parameter, see `RoundTrip.RepeatedKeyKeepsLast`) and distinct nested names in each parameter (`WellKeyed`, which always holds in the editor because nested properties are a JavaScript object).
- The user interface (`src/render.js`, `src/app.js`) and the analytics (`src/analytics.js`) are not part of this model.
