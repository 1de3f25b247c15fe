/** Model of the datastore entity
    (`backend/mwwolf/src/infrastructure/datastore/proto_api/entity.rs`): a
    key with a value that is always an `Entity` map of properties. */
module Entities {
  import opened Prelude
  import opened Values

  datatype Entity = Entity(key: Key, properties: Value) {

    /** What `Entity::new` guarantees of every entity it builds. */
    predicate Valid() {
      properties.Entity?
    }

    /** `into_key` and `key`: the stored key. */
    function IntoKey(): (k: Key)
      ensures Entity.Entity(k, properties) == this
    {
      key
    }

    /** `into_properties` and `properties`: the stored properties. */
    function IntoProperties(): (p: Value)
      ensures Entity.Entity(key, p) == this
      ensures Valid() ==> p.Entity?
    {
      properties
    }

    /** `impl IntoEntity for Entity`: the identity. */
    function IntoEntity(): (r: ConvertResult<Entity>)
      ensures r == Ok(this)
    {
      Ok(this)
    }
  }

  /** `Entity::new(key, value)`, given `value.into_value()`: accepted
      exactly when it is an `Entity` map, and stored with the key. */
  function New(key: Key, properties: Value): (r: ConvertResult<Entity>)
    ensures r.Ok? <==> properties.Entity?
    ensures r.Ok? ==> r.value.Valid() && r.value.IntoKey() == key && r.value.IntoProperties() == properties
    ensures r.Err? ==> r.error == UnexpectedPropertyType("entity", properties.TypeName())
  {
    if properties.Entity? then Ok(Entity.Entity(key, properties))
    else Err(UnexpectedPropertyType("entity", properties.TypeName()))
  }

  /** `impl IntoEntity for (Key, V)`: the pair handed to `Entity::new`. */
  function PairIntoEntity(pair: (Key, Value)): (r: ConvertResult<Entity>)
    ensures r == New(pair.0, pair.1)
  {
    var (k, v) := pair;
    New(k, v)
  }

  /** An entity taken apart and put together again by `new` is the same
      entity, when it is one `new` could have built. */
  lemma NewOfParts(e: Entity)
    requires e.Valid()
    ensures New(e.IntoKey(), e.IntoProperties()) == Ok(e)
  {
  }

  /** A map of strings, such as the fixtures of the theme tests build,
      becomes an entity of string properties. */
  lemma NewFromStringMap(key: Key, m: map<string, string>)
    ensures New(key, MapIntoValue(m, StringIntoValue)).Ok?
    ensures var props := New(key, MapIntoValue(m, StringIntoValue)).value.IntoProperties().properties;
      props.Keys == m.Keys && forall k :: k in m ==> props[k] == Strings(m[k])
  {
  }
}
