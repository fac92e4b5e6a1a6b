/**
 * JSON values as serde produces and consumes them. The model works on the
 * value tree; the textual form printed by serde_json is not modelled.
 */
module Json {
  import opened Wrappers

  datatype Json =
    | JNull
    | JBool(b: bool)
    | JNum(n: int)
    | JStr(s: string)
    | JArr(items: seq<Json>)
    | JObj(fields: seq<(string, Json)>)

  /** The value of the first member named `key` of an object. */
  function Field(j: Json, key: string): Option<Json>
  {
    if j.JObj? then Lookup(j.fields, key) else None
  }

  function Lookup(fields: seq<(string, Json)>, key: string): Option<Json>
  {
    if |fields| == 0 then None
    else if fields[0].0 == key then Some(fields[0].1)
    else Lookup(fields[1..], key)
  }

  /** In an object whose member names are distinct, each member is found under its own name. */
  lemma {:induction false} LookupDistinct(fields: seq<(string, Json)>, k: nat)
    requires k < |fields|
    requires forall i, j :: 0 <= i < j < |fields| ==> fields[i].0 != fields[j].0
    ensures Lookup(fields, fields[k].0) == Some(fields[k].1)
    decreases k
  {
    if k > 0 {
      assert fields[0].0 != fields[k].0;
      assert fields[1..][k - 1] == fields[k];
      LookupDistinct(fields[1..], k - 1);
    }
  }

  /** A name that no member carries is not found. */
  lemma {:induction false} LookupAbsent(fields: seq<(string, Json)>, key: string)
    requires forall i :: 0 <= i < |fields| ==> fields[i].0 != key
    ensures Lookup(fields, key) == None
    decreases |fields|
  {
    if |fields| > 0 {
      assert forall i :: 0 <= i < |fields| - 1 ==> fields[1..][i] == fields[i + 1];
      LookupAbsent(fields[1..], key);
    }
  }

  /** The member names of an object, in order. */
  function Keys(j: Json): seq<string>
  {
    if j.JObj? then seq(|j.fields|, i requires 0 <= i < |j.fields| => j.fields[i].0) else []
  }

  /** serde's encoding of `Option<String>`: `None` is `null`. */
  function OptStr(o: Option<string>): Json
  {
    match o
    case None => JNull
    case Some(s) => JStr(s)
  }

  function ReadString(j: Option<Json>): Option<string>
  {
    if j.Some? && j.value.JStr? then Some(j.value.s) else None
  }

  function ReadBool(j: Option<Json>): Option<bool>
  {
    if j.Some? && j.value.JBool? then Some(j.value.b) else None
  }

  function ReadNat(j: Option<Json>): Option<nat>
  {
    if j.Some? && j.value.JNum? && j.value.n >= 0 then Some(j.value.n) else None
  }

  /** serde's decoding of `Option<String>`: a missing member or `null` is `None`. */
  function ReadOptString(j: Option<Json>): Option<Option<string>>
  {
    match j
    case None => Some(None)
    case Some(JNull) => Some(None)
    case Some(JStr(s)) => Some(Some(s))
    case Some(_) => None
  }

  lemma ReadOptStringOptStr(o: Option<string>)
    ensures ReadOptString(Some(OptStr(o))) == Some(o)
  {
  }
}
