/** Gson's JSON tree (JsonElement and its subclasses) and the accessors the
    clients call, each returning what Gson returns or the exception class it
    throws. Numbers keep both their value and their text, as Gson's lazily
    parsed numbers do. JSON text itself is not modelled: a response body is
    either malformed text or the tree it parses to. */
module Gson {
  import opened Lang

  datatype Json =
    | JNull
    | JBool(b: bool)
    | JNum(value: real, lexeme: string)
    | JStr(s: string)
    | JArr(items: seq<Json>)
    | JObj(members: seq<(string, Json)>)

  /** The members of a JsonObject in insertion order (a LinkedTreeMap). */
  type Members = seq<(string, Json)>

  /** An HTTP response body as JsonParser.parseString sees it. */
  datatype Body = Malformed | Parsed(tree: Json)

  /** JsonObject.has(key). */
  predicate Has(m: Members, key: string) {
    exists i :: 0 <= i < |m| && m[i].0 == key
  }

  /** JsonObject.get(key): null when absent. When parsed text repeats a key
      Gson keeps the last value, so the search runs from the end. */
  function Get(m: Members, key: string): (r: Option<Json>)
    ensures r.Some? <==> Has(m, key)
  {
    if m == [] then None
    else if m[|m| - 1].0 == key then Some(m[|m| - 1].1)
    else
      var r := Get(m[..|m| - 1], key);
      assert Has(m, key) <==> Has(m[..|m| - 1], key) by {
        if Has(m, key) {
          var i :| 0 <= i < |m| && m[i].0 == key;
          assert i < |m| - 1 && m[..|m| - 1][i].0 == key;
        }
        if Has(m[..|m| - 1], key) {
          var i :| 0 <= i < |m| - 1 && m[..|m| - 1][i].0 == key;
          assert m[i].0 == key;
        }
      }
      r
  }

  function Keys(m: Members): (ks: seq<string>)
    ensures |ks| == |m| && forall i :: 0 <= i < |m| ==> ks[i] == m[i].0
  {
    seq(|m|, i requires 0 <= i < |m| => m[i].0)
  }

  /** JsonObject.add / addProperty: a key already present keeps its place
      and takes the new value; a new key goes at the end. */
  function Put(m: Members, key: string, v: Json): (r: Members)
    ensures Has(m, key) ==> |r| == |m|
    ensures !Has(m, key) ==> r == m + [(key, v)]
  {
    if Has(m, key) then
      seq(|m|, i requires 0 <= i < |m| => if m[i].0 == key then (key, v) else m[i])
    else m + [(key, v)]
  }

  lemma {:induction false} GetReplaced(m: Members, key: string, v: Json, k: string)
    requires Has(m, key)
    ensures var r := seq(|m|, i requires 0 <= i < |m| => if m[i].0 == key then (key, v) else m[i]);
            Get(r, k) == if k == key then Some(v) else Get(m, k)
    decreases |m|
  {
    var r := seq(|m|, i requires 0 <= i < |m| => if m[i].0 == key then (key, v) else m[i]);
    var n := |m| - 1;
    if m[n].0 == key {
      if k != key {
        var p := m[..n];
        if Has(p, key) {
          GetReplaced(p, key, v, k);
          assert r[..n] == seq(|p|, i requires 0 <= i < |p| => if p[i].0 == key then (key, v) else p[i]);
        } else {
          assert r[..n] == p;
        }
      }
    } else {
      var p := m[..n];
      assert Has(p, key) by {
        var i :| 0 <= i < |m| && m[i].0 == key;
        assert i < n && p[i].0 == key;
      }
      GetReplaced(p, key, v, k);
      assert r[..n] == seq(|p|, i requires 0 <= i < |p| => if p[i].0 == key then (key, v) else p[i]);
    }
  }

  lemma {:induction false} GetAppended(m: Members, key: string, v: Json, k: string)
    ensures Get(m + [(key, v)], k) == if k == key then Some(v) else Get(m, k)
  {
    assert (m + [(key, v)])[..|m|] == m;
  }

  /** After Put, the key reads back the new value and every other key reads
      what it read before. */
  lemma PutGet(m: Members, key: string, v: Json, k: string)
    ensures Get(Put(m, key, v), k) == if k == key then Some(v) else Get(m, k)
  {
    if Has(m, key) { GetReplaced(m, key, v, k); } else { GetAppended(m, key, v, k); }
  }

  /** Put keeps the key order, and a new key comes last. */
  lemma PutKeys(m: Members, key: string, v: Json)
    ensures Keys(Put(m, key, v)) == if Has(m, key) then Keys(m) else Keys(m) + [key]
  {
  }

  /** No key occurs twice, as in every JsonObject Gson holds. */
  predicate DistinctKeys(m: Members) {
    forall i, j :: 0 <= i < j < |m| ==> m[i].0 != m[j].0
  }

  /** In an object without repeated keys, each member is found by its key. */
  lemma {:induction false} GetDistinct(m: Members, i: nat)
    requires DistinctKeys(m) && i < |m|
    ensures Get(m, m[i].0) == Some(m[i].1)
    decreases |m|
  {
    if i < |m| - 1 {
      GetDistinct(m[..|m| - 1], i);
    }
  }

  /** JsonPrimitive(Number) for a Java int: its value and Integer.toString text. */
  function IntJson(n: int): Json {
    JNum(n as real, Decimal(n))
  }

  /** JsonObject.addProperty(key, String): a null string is stored as JsonNull. */
  function StringOrNull(s: Option<string>): (j: Json)
    ensures s.Some? <==> j.JStr?
    ensures s.Some? ==> j == JStr(s.value)
  {
    match s
    case Some(str) => JStr(str)
    case None => JNull
  }

  /** JsonParser.parseString(body): malformed text throws JsonSyntaxException. */
  function ParseString(body: Body): (r: Try<Json>)
    ensures r.Value? <==> body.Parsed?
    ensures r.Thrown? ==> r.error == Java(JsonSyntax)
  {
    match body
    case Malformed => Thrown(Java(JsonSyntax))
    case Parsed(j) => Value(j)
  }

  /** JsonElement.getAsJsonObject(): IllegalStateException unless an object. */
  function AsObject(j: Json): (r: Try<Members>)
    ensures r.Value? <==> j.JObj?
    ensures r.Value? ==> r.value == j.members
    ensures r.Thrown? ==> r.error == Java(IllegalState)
  {
    if j.JObj? then Value(j.members) else Thrown(Java(IllegalState))
  }

  /** The cast (JsonArray) j: ClassCastException unless an array. */
  function CastArray(j: Json): (r: Try<seq<Json>>)
    ensures r.Value? <==> j.JArr?
    ensures r.Value? ==> r.value == j.items
    ensures r.Thrown? ==> r.error == Java(ClassCast)
  {
    if j.JArr? then Value(j.items) else Thrown(Java(ClassCast))
  }

  /** The cast (JsonObject) j: ClassCastException unless an object. */
  function CastObject(j: Json): (r: Try<Members>)
    ensures r.Value? <==> j.JObj?
    ensures r.Value? ==> r.value == j.members
    ensures r.Thrown? ==> r.error == Java(ClassCast)
  {
    if j.JObj? then Value(j.members) else Thrown(Java(ClassCast))
  }

  /** JsonObject.getAsJsonArray(key), a plain cast: null when absent,
      ClassCastException when the member is not an array (JsonNull included). */
  function MemberArray(m: Members, key: string): (r: Try<Option<seq<Json>>>)
    ensures Get(m, key) == None ==> r == Value(None)
    ensures Get(m, key).Some? && Get(m, key).value.JArr? ==> r == Value(Some(Get(m, key).value.items))
    ensures Get(m, key).Some? && !Get(m, key).value.JArr? ==> r == Thrown(Java(ClassCast))
  {
    match Get(m, key)
    case None => Value(None)
    case Some(j) => var items :- CastArray(j); Value(Some(items))
  }

  /** JsonObject.getAsJsonObject(key), a plain cast likewise. */
  function MemberObject(m: Members, key: string): (r: Try<Option<Members>>)
    ensures Get(m, key) == None ==> r == Value(None)
    ensures Get(m, key).Some? && Get(m, key).value.JObj? ==> r == Value(Some(Get(m, key).value.members))
    ensures Get(m, key).Some? && !Get(m, key).value.JObj? ==> r == Thrown(Java(ClassCast))
  {
    match Get(m, key)
    case None => Value(None)
    case Some(j) => var members :- CastObject(j); Value(Some(members))
  }

  /** JsonArray.get(i). */
  function At(items: seq<Json>, i: nat): (r: Try<Json>)
    ensures i < |items| ==> r == Value(items[i])
    ensures |items| <= i ==> r == Thrown(Java(IndexOutOfBounds))
  {
    if i < |items| then Value(items[i]) else Thrown(Java(IndexOutOfBounds))
  }

  /** JsonElement.getAsString(): a string, the text of a number or of a
      boolean; a one-element array delegates to its element; any other array
      throws IllegalStateException; null and objects throw
      UnsupportedOperationException. */
  function AsString(j: Json): (r: Try<string>)
    ensures j.JStr? ==> r == Value(j.s)
    ensures j.JNull? || j.JObj? ==> r == Thrown(Java(UnsupportedOperation))
    ensures r.Thrown? ==> r.error in {Java(IllegalState), Java(UnsupportedOperation)}
  {
    match j
    case JStr(s) => Value(s)
    case JNum(_, lexeme) => Value(lexeme)
    case JBool(b) => Value(if b then "true" else "false")
    case JArr(items) => if |items| == 1 then AsString(items[0]) else Thrown(Java(IllegalState))
    case JNull => Thrown(Java(UnsupportedOperation))
    case JObj(_) => Thrown(Java(UnsupportedOperation))
  }

  /** JsonElement.getAsInt(): a number's intValue() (fraction dropped, low 32
      bits kept), Integer.parseInt of a string or a boolean's text, a
      one-element array delegates, other arrays, null and objects throw. */
  function AsInt(j: Json): (r: Try<int>)
    ensures r.Value? ==> IsInt32(r.value)
    ensures j.JNum? ==> r == Value(Wrap32(TruncateReal(j.value)))
    ensures j.JBool? ==> r == Thrown(Java(NumberFormat))
    ensures j.JNull? || j.JObj? ==> r == Thrown(Java(UnsupportedOperation))
    ensures r.Thrown? ==> r.error in {Java(IllegalState), Java(UnsupportedOperation), Java(NumberFormat)}
  {
    match j
    case JNum(v, _) => Value(Wrap32(TruncateReal(v)))
    case JStr(s) => ParseInt(s)
    case JBool(b) =>
      var text := if b then "true" else "false";
      assert !IsDigit(text[0]);
      ParseInt(text)
    case JArr(items) => if |items| == 1 then AsInt(items[0]) else Thrown(Java(IllegalState))
    case JNull => Thrown(Java(UnsupportedOperation))
    case JObj(_) => Thrown(Java(UnsupportedOperation))
  }

  /** An int written with IntJson reads back unchanged. */
  lemma IntJsonRoundTrip(n: int)
    requires IsInt32(n)
    ensures AsInt(IntJson(n)) == Value(n)
    ensures AsString(IntJson(n)) == Value(Decimal(n))
  {
    assert TruncateReal(n as real) == n;
  }
}
