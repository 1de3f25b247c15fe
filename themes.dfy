/** Model of `backend/mwwolf/src/domain/theme.rs`: a theme is a kind and a
    pair of secret words, one for the wolves and one for the citizens. The
    derived `Theme::new` and getters are the datatype's constructor and
    fields. */
module Themes {
  import opened Prelude
  import opened Errors
  import opened Ids
  import Format

  datatype ThemeKind = ThemeKind(raw: NonBlank) {

    /** `ThemeKind::try_new`: every non-empty string is a kind. */
    static function TryNew(kind: string): (r: DomainResult<ThemeKind>)
      ensures r.Err? <==> kind == []
      ensures r.Err? ==> r.error == NewError(InvalidInput, "kind should not be blank")
      ensures r.Ok? ==> r.value.raw == kind
    {
      if kind == [] then Err(NewError(InvalidInput, "kind should not be blank")) else Ok(ThemeKind(kind))
    }

    /** `ThemeKind::raw_kind`: the string `try_new` accepted. */
    function RawKind(): (s: string)
      ensures TryNew(s) == Ok(this)
    {
      raw
    }

    /** The derived `Debug`, as in `ThemeKind("theme_kind1")`: the kind's
        `{:?}` inside `ThemeKind(…)`, which for a kind of plain characters
        is the kind itself between quotes. */
    function Debug(): (d: string)
      ensures (forall i :: 0 <= i < |raw| ==> Format.Plain(raw[i])) ==> d == "ThemeKind(\"" + raw + "\")"
      ensures |d| >= |raw| + 13
    {
      "ThemeKind(" + Format.DebugStr(raw) + ")"
    }
  }

  datatype Word = Word(raw: NonBlank) {

    /** `Word::try_new`: every non-empty string is a word. */
    static function TryNew(word: string): (r: DomainResult<Word>)
      ensures r.Err? <==> word == []
      ensures r.Err? ==> r.error == NewError(InvalidInput, "word should not be blank")
      ensures r.Ok? ==> r.value.raw == word
    {
      if word == [] then Err(NewError(InvalidInput, "word should not be blank")) else Ok(Word(word))
    }

    /** `raw()` of a word, which the datastore calls to store it. No
        definition of it is part of this model; it is taken to return the
        string the word holds, as the derived `From<Word> for String` does. */
    function Raw(): (s: string)
      ensures TryNew(s) == Ok(this)
    {
      raw
    }
  }

  datatype Theme = Theme(id: Id<Theme>, kind: ThemeKind, first: Word, second: Word) {

    /** `Theme::choice_word`: the random boolean `draw` decides which word
        comes first. The pair always holds both words of the theme, one
        from each slot. */
    function ChoiceWord(draw: bool): (pair: (Word, Word))
      ensures multiset{pair.0, pair.1} == multiset{first, second}
      ensures draw ==> pair.0 == first && pair.1 == second
      ensures !draw ==> pair.0 == second && pair.1 == first
    {
      if draw then (first, second) else (second, first)
    }
  }

  /** The tests of `theme_choose_word_works`: both `StepRng` sources used
      there draw `false`, so a theme of ("foo", "bar") yields ("bar", "foo"). */
  lemma ChoiceWordStepRngExample()
    ensures Theme(Id("theme1"), ThemeKind("test"), Word("foo"), Word("bar")).ChoiceWord(false) == (Word("bar"), Word("foo"))
  {
  }
}
