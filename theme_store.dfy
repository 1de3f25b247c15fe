/** Model of the conversions between a theme and its datastore entity
    (`backend/mwwolf/src/infrastructure/datastore/theme.rs`). A theme is
    stored as an entity with the three string properties `kind`, `first`
    and `second`.

    The id of a theme and the key of its entity are converted by code that
    is not part of this model, so both directions are parameters here:
    `idToKey` and `keyToId`. */
module ThemeStore {
  import opened Prelude
  import opened Ids
  import opened Themes
  import opened Values
  import Entities
  import opened EntityUtil

  /** The property names of `ThemeFields`, which `into_value` also uses. */
  const KindField := "kind"
  const FirstField := "first"
  const SecondField := "second"

  /** The properties a theme is stored as. */
  function ThemeProperties(theme: Theme): (props: map<string, Value>)
    ensures props.Keys == {KindField, FirstField, SecondField}
    ensures props[KindField] == Strings(theme.kind.RawKind())
    ensures props[FirstField] == Strings(theme.first.Raw())
    ensures props[SecondField] == Strings(theme.second.Raw())
  {
    map[KindField := Strings(theme.kind.RawKind()),
        FirstField := Strings(theme.first.Raw()),
        SecondField := Strings(theme.second.Raw())]
  }

  /** `impl IntoValue for Theme`: fills a fresh map with three inserts. */
  method IntoValue(theme: Theme) returns (v: Value)
    ensures v == Value.Entity(ThemeProperties(theme))
  {
    var properties: map<string, Value> := map[];
    properties := properties[KindField := StringIntoValue(theme.kind.RawKind())];
    properties := properties[FirstField := StringIntoValue(theme.first.Raw())];
    properties := properties[SecondField := StringIntoValue(theme.second.Raw())];
    v := Value.Entity(properties);
  }

  /** `impl IntoEntity for Theme`: the theme's properties under the key of
      its id, which `Entity::new` always accepts. */
  function IntoEntity(theme: Theme, idToKey: Id<Theme> -> Key): (r: ConvertResult<Entities.Entity>)
    ensures r.Ok? && r.value.Valid()
    ensures r.value.IntoKey() == idToKey(theme.id)
    ensures r.value.IntoProperties() == Value.Entity(ThemeProperties(theme))
  {
    Entities.New(idToKey(theme.id), Value.Entity(ThemeProperties(theme)))
  }

  /** The property `name` is present and a string. */
  predicate HasString(vmap: map<string, Value>, name: string) {
    name in vmap && vmap[name].Strings?
  }

  /** The error `remove_value::<String>` reports for a property that is
      missing or not a string. */
  function FieldError(vmap: map<string, Value>, name: string): ConvertError
    requires !HasString(vmap, name)
  {
    if name !in vmap then MissingProperty(name) else Unexpected("string", vmap[name])
  }

  /** `try_new(..).unwrap()` of the three strings read only panics on an
      empty one: the precondition of `from_entity`. */
  predicate FieldsNonBlank(e: Entities.Entity) {
    e.properties.Entity? ==>
      var vmap := e.properties.properties;
      HasString(vmap, KindField) && HasString(vmap, FirstField) && HasString(vmap, SecondField) ==>
        vmap[KindField].s != [] && vmap[FirstField].s != [] && vmap[SecondField].s != []
  }

  /** `impl FromEntity for Theme`: reads `kind`, `first` and `second`, in
      that order, each removed from the map before the next is read. */
  function FromEntity(e: Entities.Entity, keyToId: Key -> Id<Theme>): (r: ConvertResult<Theme>)
    requires FieldsNonBlank(e)
    ensures !e.properties.Entity? ==> r == Err(Unexpected("entity", e.properties))
    ensures e.properties.Entity? ==>
      var vmap := e.properties.properties;
      && (!HasString(vmap, KindField) ==> r == Err(FieldError(vmap, KindField)))
      && (HasString(vmap, KindField) && !HasString(vmap, FirstField) ==>
            r == Err(FieldError(vmap, FirstField)))
      && (HasString(vmap, KindField) && HasString(vmap, FirstField) && !HasString(vmap, SecondField) ==>
            r == Err(FieldError(vmap, SecondField)))
      && (HasString(vmap, KindField) && HasString(vmap, FirstField) && HasString(vmap, SecondField) ==>
            r.Ok? && r.value.id == keyToId(e.key) && r.value.kind.RawKind() == vmap[KindField].s
            && r.value.first.Raw() == vmap[FirstField].s && r.value.second.Raw() == vmap[SecondField].s)
  {
    var id := keyToId(e.IntoKey());
    var props := e.IntoProperties();
    if props.Entity? then
      var vmap := props.properties;
      var (vmap, kind) :- TakeProperty(vmap, KindField, StringFromValue);
      var (vmap, first) :- TakeProperty(vmap, FirstField, StringFromValue);
      var (_, second) :- TakeProperty(vmap, SecondField, StringFromValue);
      Ok(Theme(id, ThemeKind.TryNew(kind).value, Word.TryNew(first).value, Word.TryNew(second).value))
    else
      Err(Unexpected("entity", props))
  }

  /** Decoding what `into_value` stores gives the theme back, under the id
      its key converts to; so a key conversion that inverts the id's gives
      back the very theme `into_entity` stored. */
  lemma FromEntityOfIntoEntity(theme: Theme, idToKey: Id<Theme> -> Key, keyToId: Key -> Id<Theme>)
    ensures FieldsNonBlank(IntoEntity(theme, idToKey).value)
    ensures FromEntity(IntoEntity(theme, idToKey).value, keyToId)
      == Ok(Theme(keyToId(idToKey(theme.id)), theme.kind, theme.first, theme.second))
    ensures keyToId(idToKey(theme.id)) == theme.id ==>
      FromEntity(IntoEntity(theme, idToKey).value, keyToId) == Ok(theme)
  {
    var e := IntoEntity(theme, idToKey).value;
    var r := FromEntity(e, keyToId);
    assert r.Ok?;
    assert r.value.kind == theme.kind;
    assert r.value.first == theme.first;
    assert r.value.second == theme.second;
  }

  /** The cases of `domain_theme_from_entity_works`: an entity built from a
      map of three strings decodes to the theme holding them. */
  lemma FromEntityExample(key: Key, keyToId: Key -> Id<Theme>)
    ensures var m := map[KindField := "kind_test", FirstField := "first_word", SecondField := "second_word"];
      var e := Entities.New(key, MapIntoValue(m, StringIntoValue));
      && e.Ok? && FieldsNonBlank(e.value)
      && FromEntity(e.value, keyToId) == Ok(Theme(keyToId(key), ThemeKind("kind_test"), Word("first_word"), Word("second_word")))
  {
  }

  /** A property that is not a string is reported with the tag it has. */
  lemma FromEntityWrongTypeExample(key: Key, keyToId: Key -> Id<Theme>)
    ensures var e := Entities.Entity(key, Value.Entity(map[KindField := Integer(1)]));
      FieldsNonBlank(e) && FromEntity(e, keyToId) == Err(UnexpectedPropertyType("string", "integer"))
  {
  }
}
