/**
 * The nested key search the Bybit adapter uses to pull the user id out of
 * an arbitrary exchange reply (`find_value_by_key`), over a small model of
 * decoded JSON. Objects keep their members in iteration order.
 */
module BybitJson {
  import opened Common

  datatype Json =
    | JNull
    | JBool(b: bool)
    | JInt(i: int)
    | JStr(s: string)
    | JList(items: seq<Json>)
    | JObj(members: seq<Member>)

  datatype Member = Member(key: string, value: Json)

  /** Python truthiness. */
  predicate Truthy(j: Json)
  {
    match j
    case JNull => false
    case JBool(b) => b
    case JInt(i) => i != 0
    case JStr(s) => s != ""
    case JList(items) => items != []
    case JObj(ms) => ms != []
  }

  /** What a Python call returns: the value of a `return`, or None when the
      function falls off its end. */
  function Returned(o: Option<Json>): Json
  {
    if o.Some? then o.value else JNull
  }

  /** The loop over `data.items()`: `Some(v)` when a `return v` is executed.
      A key match returns its value whatever it is; a nested dict, or a dict
      inside a list, returns only a truthy result of its own search. */
  function SearchMembers(ms: seq<Member>, key: string): Option<Json>
    decreases ms
  {
    if ms == [] then None
    else if ms[0].key == key then Some(ms[0].value)
    else
      var nested := SearchNested(ms[0].value, key);
      if nested.Some? then nested else SearchMembers(ms[1..], key)
  }

  function SearchNested(v: Json, key: string): Option<Json>
    decreases v
  {
    match v
    case JObj(inner) =>
      var res := Returned(SearchMembers(inner, key));
      if Truthy(res) then Some(res) else None
    case JList(items) => SearchItems(items, key)
    case _ => None
  }

  function SearchItems(items: seq<Json>, key: string): Option<Json>
    decreases items
  {
    if items == [] then None
    else
      var res := if items[0].JObj? then Returned(SearchMembers(items[0].members, key)) else JNull;
      if Truthy(res) then Some(res) else SearchItems(items[1..], key)
  }

  /** `find_value_by_key(data, key)` */
  function FindValueByKey(data: seq<Member>, key: string): Json
  {
    Returned(SearchMembers(data, key))
  }

  /** `key` occurs with value `v` in `ms`, at the top level or inside a
      nested object, or inside an object held in a list. */
  predicate HasIn(ms: seq<Member>, key: string, v: Json)
    decreases ms
  {
    ms != [] &&
    ((ms[0].key == key && ms[0].value == v) || InValue(ms[0].value, key, v) || HasIn(ms[1..], key, v))
  }

  predicate InValue(j: Json, key: string, v: Json)
    decreases j
  {
    match j
    case JObj(inner) => HasIn(inner, key, v)
    case JList(items) => InItems(items, key, v)
    case _ => false
  }

  predicate InItems(items: seq<Json>, key: string, v: Json)
    decreases items
  {
    items != [] && ((items[0].JObj? && HasIn(items[0].members, key, v)) || InItems(items[1..], key, v))
  }

  /** Whatever the search returns is a value the key really has somewhere
      in the reply. */
  lemma {:induction false} SearchMembersSound(ms: seq<Member>, key: string)
    ensures SearchMembers(ms, key).Some? ==> HasIn(ms, key, SearchMembers(ms, key).value)
    decreases ms
  {
    if ms != [] && ms[0].key != key {
      SearchNestedSound(ms[0].value, key);
      SearchMembersSound(ms[1..], key);
    }
  }

  lemma {:induction false} SearchNestedSound(v: Json, key: string)
    ensures SearchNested(v, key).Some? ==> InValue(v, key, SearchNested(v, key).value)
    decreases v
  {
    match v
    case JObj(inner) => SearchMembersSound(inner, key);
    case JList(items) => SearchItemsSound(items, key);
    case _ =>
  }

  lemma {:induction false} SearchItemsSound(items: seq<Json>, key: string)
    ensures SearchItems(items, key).Some? ==> InItems(items, key, SearchItems(items, key).value)
    decreases items
  {
    if items != [] {
      if items[0].JObj? {
        SearchMembersSound(items[0].members, key);
      }
      SearchItemsSound(items[1..], key);
    }
  }

  /** A non-None answer is a value of the key in the reply, and a key that
      occurs nowhere gives None. */
  lemma FindValueByKeySound(data: seq<Member>, key: string)
    ensures FindValueByKey(data, key) != JNull ==> HasIn(data, key, FindValueByKey(data, key))
    ensures (forall v :: !HasIn(data, key, v)) ==> FindValueByKey(data, key) == JNull
  {
    SearchMembersSound(data, key);
  }

  /** Iteration order decides: the members before a split are searched
      first, and the rest only when they return nothing. */
  lemma {:induction false} SearchFirstWins(a: seq<Member>, b: seq<Member>, key: string)
    ensures SearchMembers(a + b, key) == if SearchMembers(a, key).Some? then SearchMembers(a, key) else SearchMembers(b, key)
  {
    if a == [] {
      assert a + b == b;
    } else {
      assert (a + b)[0] == a[0];
      assert (a + b)[1..] == a[1..] + b;
      SearchFirstWins(a[1..], b, key);
    }
  }

  /** A top-level occurrence of the key is returned as it is (even when it
      is falsy) unless something earlier already answered. */
  lemma TopLevelKeyWins(before: seq<Member>, v: Json, after: seq<Member>, key: string)
    requires SearchMembers(before, key).None?
    ensures FindValueByKey(before + [Member(key, v)] + after, key) == v
  {
    SearchFirstWins(before, [Member(key, v)] + after, key);
    assert before + [Member(key, v)] + after == before + ([Member(key, v)] + after);
  }

  /** A nested object whose own search gives a falsy value is skipped: its
      answer does not stop the search, and later members decide. */
  lemma FalsyNestedSkipped(k: string, inner: seq<Member>, after: seq<Member>, key: string)
    requires k != key && !Truthy(Returned(SearchMembers(inner, key)))
    ensures FindValueByKey([Member(k, JObj(inner))] + after, key) == FindValueByKey(after, key)
  {
    var ms := [Member(k, JObj(inner))] + after;
    assert ms[0] == Member(k, JObj(inner)) && ms[1..] == after;
    assert SearchNested(JObj(inner), key).None?;
    assert SearchMembers(ms, key) == SearchMembers(after, key);
  }
}
