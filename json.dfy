/** JSON values as request and response bodies carry them. */
module Json {
  import opened Wrappers

  /** A JSON value. Numbers are modelled as integers; object members keep their order. */
  datatype Value =
    | Null
    | Bool(b: bool)
    | Num(n: int)
    | Str(s: string)
    | Arr(items: seq<Value>)
    | Obj(members: seq<(string, Value)>)

  /** Property access `obj[key]` on a parsed object: `None` is `undefined`, and the last
      occurrence of a repeated key wins, as it does for JSON.parse. */
  function Member(members: seq<(string, Value)>, key: string): (r: Option<Value>)
    ensures r.Some? <==> exists i :: 0 <= i < |members| && members[i].0 == key
  {
    if members == [] then None
    else if members[|members| - 1].0 == key then Some(members[|members| - 1].1)
    else Member(members[..|members| - 1], key)
  }

  /** True when no key occurs twice. */
  predicate DistinctKeys(members: seq<(string, Value)>) {
    forall i, j :: 0 <= i < j < |members| ==> members[i].0 != members[j].0
  }

  /** Lookup in a concatenation: members of the right part shadow those of the left. */
  lemma {:induction false} MemberAppend(a: seq<(string, Value)>, b: seq<(string, Value)>, key: string)
    ensures Member(a + b, key) == if Member(b, key).Some? then Member(b, key) else Member(a, key)
  {
    if b == [] {
      assert a + b == a;
    } else {
      var n := |b| - 1;
      assert (a + b)[..|a + b| - 1] == a + b[..n];
      assert (a + b)[|a + b| - 1] == b[n];
      MemberAppend(a, b[..n], key);
    }
  }

  /** With distinct keys, every member is found under its own key. */
  lemma {:induction false} MemberAt(members: seq<(string, Value)>, i: nat)
    requires DistinctKeys(members)
    requires i < |members|
    ensures Member(members, members[i].0) == Some(members[i].1)
  {
    var n := |members| - 1;
    if i < n {
      assert members[n].0 != members[i].0;
      assert members[..n][i] == members[i];
      MemberAt(members[..n], i);
    }
  }

  /** One property of an object literal as JSON.stringify writes it: a property whose
      value is `undefined` is left out. */
  function Defined(key: string, v: Option<Value>): (r: seq<(string, Value)>)
    ensures Member(r, key) == v
    ensures forall k :: k != key ==> Member(r, k) == None
  {
    if v.Some? then [(key, v.value)] else []
  }

  /** The members JSON.stringify writes for an object literal whose properties are `props`. */
  function Entries(props: seq<(string, Option<Value>)>): seq<(string, Value)>
  {
    if props == [] then [] else Entries(props[..|props| - 1]) + Defined(props[|props| - 1].0, props[|props| - 1].1)
  }

  /** True when no property name of an object literal occurs twice. */
  predicate DistinctNames(props: seq<(string, Option<Value>)>) {
    forall i, j :: 0 <= i < j < |props| ==> props[i].0 != props[j].0
  }

  /** Each property of an object literal with distinct names reads back as written,
      `undefined` when it was `undefined`, and a name that is not there reads `undefined`. */
  lemma {:induction false} EntriesMember(props: seq<(string, Option<Value>)>, key: string)
    requires DistinctNames(props)
    ensures forall i :: 0 <= i < |props| && props[i].0 == key ==> Member(Entries(props), key) == props[i].1
    ensures (forall i :: 0 <= i < |props| ==> props[i].0 != key) ==> Member(Entries(props), key) == None
  {
    if props != [] {
      var n := |props| - 1;
      var init := props[..n];
      assert DistinctNames(init) by {
        forall i, j | 0 <= i < j < |init| ensures init[i].0 != init[j].0 {
          assert init[i] == props[i] && init[j] == props[j];
        }
      }
      EntriesMember(init, key);
      MemberAppend(Entries(init), Defined(props[n].0, props[n].1), key);
      forall i | 0 <= i < |props| && props[i].0 == key
        ensures Member(Entries(props), key) == props[i].1
      {
        if i < n {
          assert init[i] == props[i];
          assert props[n].0 != key;
        }
      }
      if forall i :: 0 <= i < |props| ==> props[i].0 != key {
        forall i | 0 <= i < |init| ensures init[i].0 != key {
          assert init[i] == props[i];
        }
      }
    }
  }

  /** When no property is `undefined`, JSON.stringify writes every property, in order. */
  lemma {:induction false} EntriesAllDefined(props: seq<(string, Option<Value>)>)
    requires forall i :: 0 <= i < |props| ==> props[i].1.Some?
    ensures |Entries(props)| == |props|
    ensures forall i :: 0 <= i < |props| ==> Entries(props)[i] == (props[i].0, props[i].1.value)
  {
    if props != [] {
      var n := |props| - 1;
      EntriesAllDefined(props[..n]);
    }
  }
}
