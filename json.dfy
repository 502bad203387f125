/** Option and Result datatypes shared by the whole model. */
module Wrappers {

  datatype Option<+T> = None | Some(value: T)

  datatype Result<+T, +E> = Ok(value: T) | Err(error: E)
}

/**
 * The JSON values the transformer reads and writes, with the few pieces of
 * JavaScript object semantics it relies on: member access, truthiness,
 * assignment of a member, `Object.entries` and `Number(...)`.
 */
module Json {
  import opened Wrappers

  /** An already-parsed JSON value. An object keeps its members in insertion
      order, which is the order in which `Object.entries` reports them. */
  datatype Json =
    | Null
    | Bool(b: bool)
    | Num(n: int)
    | Str(s: string)
    | Arr(elems: seq<Json>)
    | Obj(fields: seq<(string, Json)>)

  type Fields = seq<(string, Json)>

  function Keys<V>(fields: seq<(string, V)>): seq<string>
  {
    seq(|fields|, i requires 0 <= i < |fields| => fields[i].0)
  }

  /** No string occurs twice in `xs`. */
  predicate Distinct(xs: seq<string>)
  {
    forall i, j :: 0 <= i < j < |xs| ==> xs[i] != xs[j]
  }

  /** No member name occurs twice (true of every JavaScript object). */
  predicate DistinctKeys<V>(fields: seq<(string, V)>)
  {
    forall i, j :: 0 <= i < j < |fields| ==> fields[i].0 != fields[j].0
  }

  /** The value of member `k`: the first member with that name. */
  function Lookup(fields: Fields, k: string): Option<Json>
  {
    if |fields| == 0 then None
    else if fields[0].0 == k then Some(fields[0].1)
    else Lookup(fields[1..], k)
  }

  /** A member is found exactly when the object has that name, and what is
      found is the value of the first member so named. */
  lemma {:induction false} LookupFirst(fields: Fields, k: string)
    ensures Lookup(fields, k).None? <==> k !in Keys(fields)
    ensures Lookup(fields, k).Some? ==>
      exists i :: 0 <= i < |fields| && fields[i] == (k, Lookup(fields, k).value) && k !in Keys(fields[..i])
  {
    if |fields| > 0 {
      KeysCons(fields);
      if fields[0].0 == k {
        assert Keys(fields[..0]) == [];
      } else {
        LookupFirst(fields[1..], k);
        if Lookup(fields, k).Some? {
          var i :| 0 <= i < |fields[1..]| && fields[1..][i] == (k, Lookup(fields, k).value) && k !in Keys(fields[1..][..i]);
          assert fields[1..][..i] == fields[1..i + 1];
          assert Keys(fields[..i + 1]) == [fields[0].0] + Keys(fields[1..i + 1]);
        }
      }
    }
  }

  /** In an object whose member names are distinct, every member is found. */
  lemma {:induction false} LookupDistinct(fields: Fields, i: nat)
    requires DistinctKeys(fields) && i < |fields|
    ensures Lookup(fields, fields[i].0) == Some(fields[i].1)
  {
    if i > 0 {
      assert fields[0].0 != fields[i].0;
      LookupDistinct(fields[1..], i - 1);
    }
  }

  /** Member access `v.k`: absent (undefined) unless `v` is an object with
      that member. The value found is structurally smaller than `v`. */
  function Get(v: Json, k: string): (r: Option<Json>)
    ensures r.Some? ==> v.Obj? && r.value < v
    ensures v.Obj? ==> r == Lookup(v.fields, k)
  {
    if v.Obj? then
      LookupFirst(v.fields, k);
      Lookup(v.fields, k)
    else None
  }

  /** JavaScript truthiness of a JSON value. */
  predicate Truthy(v: Json)
  {
    match v
    case Null => false
    case Bool(b) => b
    case Num(n) => n != 0
    case Str(s) => s != ""
    case Arr(_) => true
    case Obj(_) => true
  }

  /** `if (x)` for a member that may be undefined. */
  predicate Present(o: Option<Json>)
  {
    o.Some? && Truthy(o.value)
  }

  /** `x !== undefined && x !== ''`. */
  predicate Given(o: Option<Json>)
  {
    o.Some? && o.value != Str("")
  }

  /** `x || fallback` for a member read as a string. */
  function StringOr(o: Option<Json>, fallback: string): (r: string)
    ensures Present(o) && o.value.Str? ==> r == o.value.s
    ensures !Present(o) ==> r == fallback
  {
    if o.Some? && o.value.Str? && o.value.s != "" then o.value.s else fallback
  }

  /** `x && x.length > 0`: only arrays and strings have a length. */
  predicate HasElements(v: Json)
  {
    (v.Arr? && |v.elems| > 0) || (v.Str? && |v.s| > 0)
  }

  /** `Number(x)` on the values the editor stores; see README for the cases
      the model leaves unconverted. */
  function ToNumber(v: Json): (r: Json)
    ensures v.Num? ==> r == v
    ensures v.Null? || v.Bool? ==> r.Num?
  {
    match v
    case Null => Num(0)
    case Bool(b) => Num(if b then 1 else 0)
    case _ => v
  }

  /** The decimal numeral of `n`, as JavaScript prints an array index. */
  function NatToString(n: nat): (s: string)
    ensures |s| > 0
    ensures forall i :: 0 <= i < |s| ==> '0' <= s[i] <= '9'
    ensures n < 10 ==> s == ['0' + n as char]
  {
    var d := ['0' + (n % 10) as char];
    if n < 10 then d else NatToString(n / 10) + d
  }

  /** Assignment `obj[k] = v`: an existing member keeps its position and
      takes the new value; a new member is appended. */
  function Put<V(==)>(fields: seq<(string, V)>, k: string, v: V): (r: seq<(string, V)>)
    ensures k !in Keys(fields) ==> r == fields + [(k, v)]
    ensures k in Keys(fields) ==> exists i :: 0 <= i < |fields| && fields[i].0 == k && r == fields[i := (k, v)]
  {
    if |fields| == 0 then
      [(k, v)]
    else if fields[0].0 == k then
      KeysCons(fields);
      [(k, v)] + fields[1..]
    else
      var rest := Put(fields[1..], k, v);
      KeysCons(fields);
      if k in Keys(fields[1..]) then
        var j :| 0 <= j < |fields[1..]| && fields[1..][j].0 == k && rest == fields[1..][j := (k, v)];
        assert [fields[0]] + rest == fields[j + 1 := (k, v)];
        [fields[0]] + rest
      else
        [fields[0]] + rest
  }

  lemma KeysCons<V>(fields: seq<(string, V)>)
    requires |fields| > 0
    ensures Keys(fields) == [fields[0].0] + Keys(fields[1..])
  {
  }

  /** Assigning a member keeps the names of an object distinct. */
  lemma PutKeepsDistinct<V>(fields: seq<(string, V)>, k: string, v: V)
    requires DistinctKeys(fields)
    ensures DistinctKeys(Put(fields, k, v))
  {
    var r := Put(fields, k, v);
    if k in Keys(fields) {
      var i :| 0 <= i < |fields| && fields[i].0 == k && r == fields[i := (k, v)];
      assert forall j :: 0 <= j < |r| ==> r[j].0 == fields[j].0;
    } else {
      assert forall j :: 0 <= j < |fields| ==> fields[j].0 == Keys(fields)[j];
    }
  }

  /** The object produced by assigning `entries` one after another to `{}`. */
  function Assign<V(==)>(entries: seq<(string, V)>): seq<(string, V)>
  {
    if |entries| == 0 then []
    else
      var last := entries[|entries| - 1];
      Put(Assign(entries[..|entries| - 1]), last.0, last.1)
  }

  /** Assigning one more entry is one more `Put`. */
  lemma AssignSnoc<V>(entries: seq<(string, V)>, n: nat)
    requires n < |entries|
    ensures Assign(entries[..n + 1]) == Put(Assign(entries[..n]), entries[n].0, entries[n].1)
  {
    assert entries[..n + 1][..n] == entries[..n];
  }

  /** An assigned object never repeats a name. */
  lemma {:induction false} AssignKeepsDistinct<V>(entries: seq<(string, V)>)
    ensures DistinctKeys(Assign(entries))
  {
    if |entries| > 0 {
      var last := entries[|entries| - 1];
      AssignKeepsDistinct(entries[..|entries| - 1]);
      PutKeepsDistinct(Assign(entries[..|entries| - 1]), last.0, last.1);
    }
  }

  /** Assigning entries with distinct names gives exactly those entries, in
      order. */
  lemma {:induction false} AssignDistinct<V>(entries: seq<(string, V)>)
    requires DistinctKeys(entries)
    ensures Assign(entries) == entries
  {
    if |entries| > 0 {
      var init := entries[..|entries| - 1];
      AssignDistinct(init);
      assert forall i :: 0 <= i < |init| ==> Keys(init)[i] != entries[|entries| - 1].0;
      assert entries == init + [entries[|entries| - 1]];
    }
  }

  /** Assigning a member leaves the names as they were when it is already
      there, and appends the name otherwise. */
  lemma KeysPut<V>(fields: seq<(string, V)>, k: string, v: V)
    ensures Keys(Put(fields, k, v)) == if k in Keys(fields) then Keys(fields) else Keys(fields) + [k]
  {
    var r := Put(fields, k, v);
    if k in Keys(fields) {
      var i :| 0 <= i < |fields| && fields[i].0 == k && r == fields[i := (k, v)];
      assert forall j :: 0 <= j < |r| ==> Keys(r)[j] == Keys(fields)[j];
    } else {
      assert forall j :: 0 <= j < |r| ==> Keys(r)[j] == (Keys(fields) + [k])[j];
    }
  }

  /** After `obj[k] = v`, member `k` holds `v` and every other member is
      found as before. */
  lemma {:induction false} LookupPut(fields: Fields, k: string, v: Json, k': string)
    ensures Lookup(Put(fields, k, v), k') == if k' == k then Some(v) else Lookup(fields, k')
  {
    if |fields| > 0 && fields[0].0 != k {
      var rest := Put(fields[1..], k, v);
      assert Put(fields, k, v) == [fields[0]] + rest;
      assert ([fields[0]] + rest)[1..] == rest;
      LookupPut(fields[1..], k, v, k');
    } else if |fields| > 0 {
      assert ([(k, v)] + fields[1..])[1..] == fields[1..];
    }
  }

  /** The value of the last member named `k`, if any. */
  function LastLookup(fields: Fields, k: string): Option<Json>
  {
    if |fields| == 0 then None
    else if fields[|fields| - 1].0 == k then Some(fields[|fields| - 1].1)
    else LastLookup(fields[..|fields| - 1], k)
  }

  /** Where later members repeat a name, the object built by assigning them
      in turn holds the value of the last one. */
  lemma {:induction false} AssignLookup(fields: Fields, k: string)
    ensures Lookup(Assign(fields), k) == LastLookup(fields, k)
  {
    if |fields| > 0 {
      var last := fields[|fields| - 1];
      AssignLookup(fields[..|fields| - 1], k);
      LookupPut(Assign(fields[..|fields| - 1]), last.0, last.1, k);
    }
  }

  /** A member that no later member renames is the last one so named. */
  lemma {:induction false} LastLookupAt(fields: Fields, j: nat)
    requires j < |fields|
    requires forall l :: j < l < |fields| ==> fields[l].0 != fields[j].0
    ensures LastLookup(fields, fields[j].0) == Some(fields[j].1)
  {
    if j < |fields| - 1 {
      LastLookupAt(fields[..|fields| - 1], j);
    }
  }

  /** `Object.entries(v)`: the members of an object, the index-keyed
      elements of an array, nothing for the other values. Each value listed
      is structurally smaller than `v`. */
  function Entries(v: Json): (r: Fields)
    ensures forall i :: 0 <= i < |r| ==> r[i].1 < v
    ensures v.Obj? ==> r == v.fields
  {
    match v
    case Obj(fields) => fields
    case Arr(elems) => seq(|elems|, i requires 0 <= i < |elems| => (NatToString(i), elems[i]))
    case _ => []
  }
}
