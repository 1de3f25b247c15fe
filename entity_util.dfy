/** Model of `remove_value` (`backend/mwwolf/src/infrastructure/datastore/entity.rs`),
    which takes one property out of an entity's map and decodes it. */
module EntityUtil {
  import opened Prelude
  import opened Values

  /** What `remove_value` returns: the property missing, its decoding
      error, or the map without it together with the decoded value. */
  function TakeProperty<T>(vmap: map<string, Value>, key: string, decode: Value -> ConvertResult<T>): (r: ConvertResult<(map<string, Value>, T)>)
    ensures key !in vmap ==> r == Err(MissingProperty(key))
    ensures key in vmap && decode(vmap[key]).Err? ==> r == Err(decode(vmap[key]).error)
    ensures key in vmap && decode(vmap[key]).Ok? ==> r == Ok((vmap - {key}, decode(vmap[key]).value))
    ensures r.Ok? ==> key in vmap && decode(vmap[key]) == Ok(r.value.1)
    ensures r.Ok? ==> r.value.0.Keys == vmap.Keys - {key} && |r.value.0| == |vmap| - 1
    ensures r.Ok? ==> forall k :: k in r.value.0 ==> r.value.0[k] == vmap[k]
  {
    if key !in vmap then Err(MissingProperty(key))
    else
      var rest := vmap - {key};
      assert vmap.Keys == rest.Keys + {key};
      match decode(vmap[key])
      case Err(e) => Err(e)
      case Ok(value) => Ok((rest, value))
  }

  /** `remove_value`: removes `key` from the owned map in place, then
      decodes the removed value. */
  method RemoveValue<T>(vmap: map<string, Value>, key: string, decode: Value -> ConvertResult<T>)
    returns (r: ConvertResult<(map<string, Value>, T)>)
    ensures r == TakeProperty(vmap, key, decode)
  {
    var m := vmap;
    if key !in m {
      return Err(MissingProperty(key));
    }
    var v := m[key];
    m := m - {key};
    var decoded := decode(v);
    if decoded.Err? {
      return Err(decoded.error);
    }
    r := Ok((m, decoded.value));
  }

  /** Taking out a string that is there gives it back with the rest of the
      map untouched; taking it out twice finds it missing. */
  lemma TakePropertyExample(vmap: map<string, Value>)
    requires "kind" in vmap && vmap["kind"] == Strings("kind_test")
    ensures TakeProperty(vmap, "kind", StringFromValue).Ok?
    ensures TakeProperty(vmap, "kind", StringFromValue).value.1 == "kind_test"
    ensures TakeProperty(TakeProperty(vmap, "kind", StringFromValue).value.0, "kind", StringFromValue)
      == Err(MissingProperty("kind"))
  {
  }
}
