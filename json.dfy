/** An abstract JSON document and the key-path reads the exporter performs on
    it (the jsonparser calls `GetFloat`, `GetString`, `GetBoolean` and
    `ArrayEach`). A read that finds no value of the requested type is absent;
    the library then hands back its zero value together with an error. */
module JsonValues {
  import opened Wrappers

  datatype Json =
    | JNull
    | JBool(b: bool)
    | JNumber(n: real)
    | JString(s: string)
    | JArray(elems: seq<Json>)
    | JObject(members: seq<(string, Json)>)

  /** The value of the first member named `key`: the parser scans an object's
      members in document order and stops at the first match. */
  function Member(members: seq<(string, Json)>, key: string): (r: Option<Json>)
    ensures r.None? <==> forall i | 0 <= i < |members| :: members[i].0 != key
  {
    if members == [] then None
    else if members[0].0 == key then Some(members[0].1)
    else Member(members[1..], key)
  }

  /** A found member is the first one carrying the key. */
  lemma {:induction false} MemberIsFirst(members: seq<(string, Json)>, key: string)
    requires Member(members, key).Some?
    ensures exists i | 0 <= i < |members| ::
      members[i] == (key, Member(members, key).value)
      && forall k | 0 <= k < i :: members[k].0 != key
  {
    if members[0].0 != key {
      var rest := members[1..];
      MemberIsFirst(rest, key);
      var i :| 0 <= i < |rest| && rest[i] == (key, Member(rest, key).value)
        && forall k | 0 <= k < i :: rest[k].0 != key;
      assert members[i + 1] == rest[i];
      forall k | 0 <= k < i + 1 ensures members[k].0 != key {
        if k > 0 { assert members[k] == rest[k - 1]; }
      }
    } else {
      assert members[0] == (key, Member(members, key).value);
    }
  }

  /** The value reached by following the object keys of `path` from `j`. */
  function Lookup(j: Json, path: seq<string>): Option<Json>
    decreases |path|
  {
    if path == [] then Some(j)
    else
      match j
      case JObject(members) =>
        (match Member(members, path[0])
         case Some(v) => Lookup(v, path[1..])
         case None => None)
      case _ => None
  }

  /** Following `p + q` is following `p`, then `q` from where `p` ends. */
  lemma {:induction false} LookupConcat(j: Json, p: seq<string>, q: seq<string>)
    ensures Lookup(j, p + q) ==
      match Lookup(j, p)
      case Some(v) => Lookup(v, q)
      case None => None
    decreases |p|
  {
    if p == [] {
      assert p + q == q;
    } else {
      assert (p + q)[0] == p[0];
      assert (p + q)[1..] == p[1..] + q;
      if j.JObject? && Member(j.members, p[0]).Some? {
        LookupConcat(Member(j.members, p[0]).value, p[1..], q);
      }
    }
  }

  /** `jp.GetFloat`: the number at `path`, if there is one. */
  function GetFloat(j: Json, path: seq<string>): Option<real> {
    match Lookup(j, path)
    case Some(JNumber(n)) => Some(n)
    case _ => None
  }

  /** `jp.GetString`: the string at `path`, if there is one. */
  function GetString(j: Json, path: seq<string>): Option<string> {
    match Lookup(j, path)
    case Some(JString(s)) => Some(s)
    case _ => None
  }

  /** `jp.GetBoolean`: the boolean at `path`, if there is one. */
  function GetBoolean(j: Json, path: seq<string>): Option<bool> {
    match Lookup(j, path)
    case Some(JBool(b)) => Some(b)
    case _ => None
  }

  /** The elements `jp.ArrayEach` visits, in order: those of the array at
      `path`, and none when `path` is missing or holds something else. */
  function ArrayElements(j: Json, path: seq<string>): seq<Json> {
    match Lookup(j, path)
    case Some(JArray(elems)) => elems
    case _ => []
  }

  /** `r` is the number stored at `path`, or 0 when `path` is missing or
      holds something other than a number. */
  ghost predicate NumberOrZero(j: Json, path: seq<string>, r: real) {
    match Lookup(j, path)
    case Some(JNumber(n)) => r == n
    case _ => r == 0.0
  }
}
