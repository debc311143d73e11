/** json_database/serializer.py: the loops of `_encode` and `_decode_tagged`. */
module Encoding {
  import opened Wrappers
  import opened Dicts
  import opened Host
  import opened Values
  import opened JsonText
  import opened JsonProofs
  import opened Serializer
  import opened SerializerProofs
  import opened Errors

  lemma {:induction false} HashableIsWellFormed(v: Value)
    requires Hashable(v)
    ensures WellFormed(v)
  {
    if v.Tuple? {
      forall i | 0 <= i < |v.items| ensures WellFormed(v.items[i]) {
        HashableIsWellFormed(v.items[i]);
      }
    }
  }

  /** `_encode`, for any value of any depth. */
  method Encode(v: Value) returns (r: Result<Json, DbError>)
    requires WellFormed(v)
    ensures r == if Encodable(v) then Ok(Enc(v)) else Err(SerializationError)
    decreases v, 1
  {
    match v {
      case Null => r := Ok(JNull);
      case Bool(b) => r := Ok(JBool(b));
      case Int(i) => r := Ok(JInt(i));
      case Str(s) => r := Ok(JStr(s));
      case Float(f) =>
        r := if Py.isFinite(f) then Ok(JFloat(f)) else Err(SerializationError);
      case Scalar(k, c) =>
        r := if Py.storable(k, c) then Ok(Tagged(TagOf(k), JStr(Py.text(k, c)))) else Err(SerializationError);
      case Other =>
        r := Err(SerializationError);
      case Set(ms) =>
        forall i | 0 <= i < |ms| ensures WellFormed(ms[i]) {
          HashableIsWellFormed(ms[i]);
        }
        var encoded :- EncodeItems(v, ms);
        r := Ok(Tagged("set", JArr(SortItems(encoded))));
      case Dict(es) =>
        r := EncodeDict(v);
      case List(items) =>
        var encoded :- EncodeItems(v, items);
        r := Ok(JArr(encoded));
      case Tuple(items) =>
        var encoded :- EncodeItems(v, items);
        r := Ok(JArr(encoded));
    }
  }

  /** `[self._encode(item) for item in value]`. */
  method EncodeItems(ghost v: Value, items: seq<Value>) returns (r: Result<seq<Json>, DbError>)
    requires forall i :: 0 <= i < |items| ==> WellFormed(items[i]) && items[i] < v
    ensures r.Ok? <==> forall i :: 0 <= i < |items| ==> Encodable(items[i])
    ensures r.Ok? ==> r.value == seq(|items|, i requires 0 <= i < |items| => Enc(items[i]))
    ensures r.Err? ==> r.error == SerializationError
    decreases v, 0
  {
    var encoded: seq<Json> := [];
    var i := 0;
    while i < |items|
      invariant 0 <= i == |encoded| <= |items|
      invariant forall j :: 0 <= j < i ==> Encodable(items[j]) && encoded[j] == Enc(items[j])
    {
      var item :- Encode(items[i]);
      encoded := encoded + [item];
      i := i + 1;
    }
    r := Ok(encoded);
  }

  /** `result[key] = self._encode(item)` for every item of a dict. */
  method EncodeDict(v: Value) returns (r: Result<Json, DbError>)
    requires v.Dict? && WellFormed(v)
    ensures r == if Encodable(v) then Ok(Enc(v)) else Err(SerializationError)
    decreases v, 0
  {
    hide Put, AsMap, UniqueKeys, Has;
    var es := v.entries;
    var result: seq<Entry<Json>> := [];
    var i := 0;
    while i < |es|
      invariant 0 <= i == |result| <= |es|
      invariant forall j :: 0 <= j < i ==> Encodable(es[j].val) && result[j] == Entry(es[j].key, Enc(es[j].val))
    {
      var item :- Encode(es[i].val);
      forall j | 0 <= j < i ensures result[j].key != es[i].key {
        UniqueAtIndices(es, j, i);
      }
      NotAKey(result, es[i].key);
      PutAppends(result, es[i].key, item);
      result := Put(result, es[i].key, item);
      i := i + 1;
    }
    assert result == Enc(v).fields;
    r := Ok(JObj(result));
  }

  // ---------- Decoding the members of a set ----------

  /** The members of a set envelope: each decoded and coerced in turn. */
  function Members(js: seq<Json>): Option<seq<Value>> {
    var vs :- DecodeAll(js);
    CoerceAll(vs)
  }

  lemma MembersOneByOne(js: seq<Json>)
    requires js != []
    ensures Members(js) ==
      match Decode(js[0])
      case None => None
      case Some(v) =>
        match (Coerce(v), Members(js[1..]))
        case (Some(m), Some(ms)) => Some([m] + ms)
        case _ => None
  {
    if Decode(js[0]).Some? && DecodeAll(js[1..]).Some? {
      var vs := DecodeAll(js[1..]).value;
      assert ([Decode(js[0]).value] + vs)[1..] == vs;
    }
  }

  /** `ms` is what is left of the members after `items`. */
  ghost predicate Continues(js: seq<Json>, items: seq<Value>, rest: seq<Json>) {
    match Members(rest)
    case None => Members(js).None?
    case Some(ms) => Members(js).Some? && Members(js).value == items + ms
  }

  lemma ContinuesOne(js: seq<Json>, items: seq<Value>, rest: seq<Json>)
    requires rest != [] && Continues(js, items, rest)
    ensures Decode(rest[0]).None? || Coerce(Decode(rest[0]).value).None? ==> Members(js).None?
    ensures Decode(rest[0]).Some? && Coerce(Decode(rest[0]).value).Some? ==>
      Continues(js, items + [Coerce(Decode(rest[0]).value).value], rest[1..])
  {
    MembersOneByOne(rest);
    if Members(rest).Some? {
      var m, ms := Coerce(Decode(rest[0]).value).value, Members(rest[1..]).value;
      assert items + ([m] + ms) == items + [m] + ms;
    }
  }

  /** The loop over a set's items, and `set(items)`. */
  method DecodeSet(raw: Json) returns (r: Option<Value>)
    ensures r == DecodeTagged("set", raw)
  {
    if !raw.JArr? {
      return None;
    }
    var items: seq<Value> := [];
    var i := 0;
    assert raw.items[0..] == raw.items;
    assert Members(raw.items).Some? ==> [] + Members(raw.items).value == Members(raw.items).value;
    while i < |raw.items|
      invariant 0 <= i <= |raw.items|
      invariant Continues(raw.items, items, raw.items[i..])
    {
      ContinuesOne(raw.items, items, raw.items[i..]);
      assert raw.items[i..][0] == raw.items[i] && raw.items[i..][1..] == raw.items[i + 1..];
      var decoded := Decode(raw.items[i]);
      if decoded.None? {
        return None;
      }
      var member := Coerce(decoded.value);
      if member.None? {
        return None;
      }
      items := items + [member.value];
      i := i + 1;
    }
    assert Members(raw.items[i..]) == Some([]);
    assert items + [] == items;
    r := Some(Set(Dedup(items)));
  }
}
