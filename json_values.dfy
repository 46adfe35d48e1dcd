/**
 * Decoded JSON documents, as the HTTP client's `response.json()` hands them
 * to the repositories, and the key lookups the repositories perform on them.
 */
module JsonValues {
  import opened Wrappers

  /** A decoded JSON value. Numbers are kept exact. */
  datatype Json =
    | JNull
    | JBool(b: bool)
    | JNumber(n: real)
    | JString(s: string)
    | JArray(items: seq<Json>)
    | JObject(fields: map<string, Json>)

  /**
   * Python's `dict.get(key)` on a decoded object: the value stored under the
   * key, or `None` (leaving the key out and storing null read alike).
   */
  function DictGet(fields: map<string, Json>, key: string): (r: Json)
    ensures key !in fields ==> r == JNull
    ensures key in fields ==> r == fields[key]
  {
    if key in fields then fields[key] else JNull
  }

  /**
   * Alias-choice lookup (pydantic's `AliasChoices`): the value under the first of `aliases` that is a key
   * of `fields`, or `None` when none is.
   */
  function FirstAlias<V>(fields: map<string, V>, aliases: seq<string>): (r: Option<V>)
    ensures r.None? <==> forall i :: 0 <= i < |aliases| ==> aliases[i] !in fields
    ensures r.Some? ==> exists i :: 0 <= i < |aliases| && aliases[i] in fields && r.value == fields[aliases[i]]
                                 && forall j :: 0 <= j < i ==> aliases[j] !in fields
  {
    if |aliases| == 0 then None
    else if aliases[0] in fields then Some(fields[aliases[0]])
    else
      var rest := FirstAlias(fields, aliases[1..]);
      assert forall j :: 1 <= j < |aliases| ==> aliases[j] == aliases[1..][j - 1];
      rest
  }

  /** The lookup reads only the alias keys: two maps that agree on them give the same answer. */
  lemma {:induction false} FirstAliasReadsOnlyAliases<V>(a: map<string, V>, b: map<string, V>, aliases: seq<string>)
    requires forall i :: 0 <= i < |aliases| ==> (aliases[i] in a <==> aliases[i] in b)
    requires forall i :: 0 <= i < |aliases| && aliases[i] in a ==> a[aliases[i]] == b[aliases[i]]
    ensures FirstAlias(a, aliases) == FirstAlias(b, aliases)
  {
    if |aliases| > 0 && aliases[0] !in a {
      assert forall i :: 1 <= i < |aliases| ==> aliases[i] == aliases[1..][i - 1];
      FirstAliasReadsOnlyAliases(a, b, aliases[1..]);
    }
  }
}
