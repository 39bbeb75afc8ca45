/** JSON-like values: the shapes of tool definitions, tool arguments and
    peer-agent payloads (Python dicts, lists, strings, numbers, booleans, None). */
module Json {
  import opened Wrappers

  datatype Json =
    | JNull
    | JBool(b: bool)
    | JInt(i: int)
    | JStr(s: string)
    | JArr(items: seq<Json>)
    | JObj(fields: seq<(string, Json)>)

  /** The value of the first field named `key`. */
  function Lookup(fields: seq<(string, Json)>, key: string): (r: Option<Json>)
  {
    if fields == [] then None
    else if fields[0].0 == key then Some(fields[0].1)
    else Lookup(fields[1..], key)
  }

  /** A key is found exactly when some field carries it, and what is found
      is the value of the first such field. */
  lemma {:induction false} LookupMeaning(fields: seq<(string, Json)>, key: string)
    ensures var r := Lookup(fields, key);
            && (r.Some? <==> exists i :: 0 <= i < |fields| && fields[i].0 == key)
            && (r.Some? ==> exists i :: 0 <= i < |fields| && fields[i] == (key, r.value)
                                 && forall j :: 0 <= j < i ==> fields[j].0 != key)
  {
    if fields != [] && fields[0].0 != key {
      LookupMeaning(fields[1..], key);
      var r := Lookup(fields, key);
      if r.Some? {
        var i :| 0 <= i < |fields[1..]| && fields[1..][i] == (key, r.value)
                 && forall j :: 0 <= j < i ==> fields[1..][j].0 != key;
        assert fields[i + 1] == (key, r.value);
        assert forall j :: 0 <= j < i + 1 ==> fields[j].0 != key by {
          forall j | 0 <= j < i + 1
            ensures fields[j].0 != key
          {
            if j > 0 {
              assert fields[j] == fields[1..][j - 1];
            }
          }
        }
      } else {
        forall i | 0 <= i < |fields|
          ensures fields[i].0 != key
        {
          if i > 0 {
            assert fields[i] == fields[1..][i - 1];
          }
        }
      }
    }
  }

  /** `key in obj` for a dict; false for any other value. */
  predicate Has(j: Json, key: string)
  {
    j.JObj? && Lookup(j.fields, key).Some?
  }

  /** `obj[key]`, when `obj` is a dict holding `key`. */
  function Get(j: Json, key: string): Json
    requires Has(j, key)
  {
    Lookup(j.fields, key).value
  }

  /** The set of keys of a dict. */
  function KeySet(j: Json): set<string>
    requires j.JObj?
  {
    set i | 0 <= i < |j.fields| :: j.fields[i].0
  }
}
