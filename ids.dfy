/** Model of `backend/mwwolf/src/libmww/id.rs`: an identifier is a raw
    string tagged with the kind of entity it names. The tag `T` is a phantom:
    it never holds data, and equality, ordering and formatting look at the
    raw string only. */
module Ids {
  import opened Prelude

  /** Lexicographic comparison of strings, character by character (Rust's
      `Ord for String` compares UTF-8 bytes, which orders strings the same
      way as comparing their code points one by one). */
  function CompareStrings(a: string, b: string): Ordering
    decreases |a|
  {
    if a == [] && b == [] then Equal
    else if a == [] then Less
    else if b == [] then Greater
    else if a[0] < b[0] then Less
    else if a[0] > b[0] then Greater
    else CompareStrings(a[1..], b[1..])
  }

  lemma {:induction false} CompareStringsEqualIff(a: string, b: string)
    ensures CompareStrings(a, b) == Equal <==> a == b
    decreases |a|
  {
    if a != [] && b != [] && a[0] == b[0] {
      CompareStringsEqualIff(a[1..], b[1..]);
      assert a == [a[0]] + a[1..] && b == [b[0]] + b[1..];
    }
  }

  lemma {:induction false} CompareStringsAntisymmetric(a: string, b: string)
    ensures CompareStrings(a, b) == CompareStrings(b, a).Reverse()
    decreases |a|
  {
    if a != [] && b != [] && a[0] == b[0] {
      CompareStringsAntisymmetric(a[1..], b[1..]);
    }
  }

  lemma {:induction false} CompareStringsTransitive(a: string, b: string, c: string)
    requires CompareStrings(a, b) == Less && CompareStrings(b, c) == Less
    ensures CompareStrings(a, c) == Less
    decreases |a|
  {
    if a != [] && b != [] && c != [] && a[0] == b[0] && b[0] == c[0] {
      CompareStringsTransitive(a[1..], b[1..], c[1..]);
    }
  }

  datatype Id<T> = Id(raw: string) {

    /** `Id::new`. */
    static function New(raw: string): (id: Id<T>)
      ensures id.RawId() == raw
    {
      Id(raw)
    }

    /** `Id::raw_id`: the string the id was made from. */
    function RawId(): string {
      raw
    }

    /** `PartialEq::eq`: two ids are equal exactly when their raw strings are. */
    function Equals(other: Id<T>): (b: bool)
      ensures b <==> this == other
    {
      raw == other.raw
    }

    /** `Ord::cmp`: the comparison of the raw strings. */
    function Cmp(other: Id<T>): (o: Ordering)
      ensures o == CompareStrings(raw, other.raw)
      ensures o == Equal <==> Equals(other)
    {
      CompareStringsEqualIff(raw, other.raw);
      CompareStrings(raw, other.raw)
    }

    /** `PartialOrd::partial_cmp`: always defined, and in agreement with `cmp`. */
    function PartialCmp(other: Id<T>): (o: Option<Ordering>)
      ensures o == Some(Cmp(other))
    {
      Some(CompareStrings(RawId(), other.RawId()))
    }

    /** `Clone::clone`. */
    function Clone(): (c: Id<T>)
      ensures c.RawId() == RawId() && c.Equals(this)
    {
      Id(raw)
    }

    /** `Display::fmt` (and `Debug::fmt`, which writes the same): the raw
        string with nothing around it. */
    function Display(): (s: string)
      ensures New(s) == this
    {
      raw
    }

    /** `From<Id<T>> for String`. */
    function IntoString(): (s: string)
      ensures s == RawId()
    {
      raw
    }
  }

  /** Making an id from the raw string of another gives that id back. */
  lemma NewOfRawId<T>(id: Id<T>)
    ensures Id<T>.New(id.RawId()) == id
  {
  }

  /** The ordering of ids is a total order that agrees with equality, as
      Rust's `Ord` requires of `cmp`. */
  lemma IdCmpIsTotalOrder<T>(a: Id<T>, b: Id<T>, c: Id<T>)
    ensures a.Cmp(b) == b.Cmp(a).Reverse()
    ensures a.Cmp(b) == Less && b.Cmp(c) == Less ==> a.Cmp(c) == Less
  {
    CompareStringsAntisymmetric(a.raw, b.raw);
    if a.Cmp(b) == Less && b.Cmp(c) == Less {
      CompareStringsTransitive(a.raw, b.raw, c.raw);
    }
  }

  /** The tests of `works_eq`: "hoge" equals "hoge", "hfoo" does not. */
  lemma IdEqualsExamples<T>()
    ensures Id<T>.New("hoge").Equals(Id<T>.New("hoge"))
    ensures !Id<T>.New("hfoo").Equals(Id<T>.New("hoge"))
  {
  }
}
