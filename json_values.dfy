/** The JSON-like values the modelled code exchanges: the publisher's record (a
    Python dictionary of strings and dictionaries) and the job page's parsed
    response. Objects keep their members in insertion order, which is the order
    `Object.keys` and Python dictionaries list them in. */
module JsonValues {
  import opened Wrappers

  datatype Json =
    | JStr(s: string)
    | JBool(b: bool)
    | JNull
    | JObj(members: seq<Member>)

  datatype Member = Member(key: string, value: Json)

  /** The keys of an object's members, in order. */
  function Keys(members: seq<Member>): (ks: seq<string>)
    ensures |ks| == |members|
    ensures forall i :: 0 <= i < |members| ==> ks[i] == members[i].key
  {
    if members == [] then [] else [members[0].key] + Keys(members[1..])
  }

  /** Member `i` is the first with key `key`. */
  predicate FirstWithKey(members: seq<Member>, key: string, i: int) {
    0 <= i < |members| && members[i].key == key && forall j :: 0 <= j < i ==> members[j].key != key
  }

  /** Property access `obj[key]` on an object's members: the first member with
      that key, `None` (`undefined`) when there is none (`GetFound`). */
  function Get(members: seq<Member>, key: string): Option<Json> {
    if members == [] then None
    else if members[0].key == key then Some(members[0].value)
    else Get(members[1..], key)
  }

  /** A lookup fails exactly when no member has the key, and otherwise yields the
      value of the first member that has it. */
  lemma {:induction false} GetFound(members: seq<Member>, key: string)
    ensures Get(members, key).None? <==> key !in Keys(members)
    ensures Get(members, key).Some? ==>
      exists i :: FirstWithKey(members, key, i) && members[i].value == Get(members, key).value
  {
    if members == [] {
    } else if members[0].key == key {
      assert FirstWithKey(members, key, 0);
    } else {
      GetFound(members[1..], key);
      assert Keys(members) == [members[0].key] + Keys(members[1..]);
      var r := Get(members[1..], key);
      if r.Some? {
        var i :| FirstWithKey(members[1..], key, i) && members[1..][i].value == r.value;
        assert FirstWithKey(members, key, i + 1);
      }
    }
  }

  /** Looking up the key of a member that comes before any other with that key
      yields its value. */
  lemma {:induction false} GetFirst(members: seq<Member>, i: nat)
    requires i < |members|
    requires forall j :: 0 <= j < i ==> members[j].key != members[i].key
    ensures Get(members, members[i].key) == Some(members[i].value)
  {
    if i > 0 {
      GetFirst(members[1..], i - 1);
    }
  }
}
