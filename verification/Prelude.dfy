/** Small building blocks shared by the models: an option type, sequences used as
    ordered collections of distinct identifiers, and words in a text. */
module Prelude {

  datatype Option<+T> = None | Some(value: T)

  function Max(a: int, b: int): int { if a >= b then a else b }

  function Min(a: int, b: int): int { if a <= b then a else b }

  ghost predicate NoDup<T>(xs: seq<T>) {
    forall i, j :: 0 <= i < j < |xs| ==> xs[i] != xs[j]
  }

  predicate Within<T(==,!new)>(xs: seq<T>, keys: set<T>) {
    forall x :: x in xs ==> x in keys
  }

  function Elems<T(==)>(xs: seq<T>): (r: set<T>) {
    set x | x in xs
  }

  /** The members of xs that belong to keep, in their order in xs. */
  function Pick<T(==,!new)>(xs: seq<T>, keep: set<T>): (r: seq<T>)
    ensures |r| <= |xs|
    ensures forall x :: x in r <==> x in xs && x in keep
  {
    if xs == [] then []
    else
      var rest := Pick(xs[..|xs| - 1], keep);
      if xs[|xs| - 1] in keep then rest + [xs[|xs| - 1]] else rest
  }

  /** The members of xs that do not belong to drop, in their order in xs. */
  function Omit<T(==,!new)>(xs: seq<T>, drop: set<T>): (r: seq<T>)
    ensures |r| <= |xs|
    ensures forall x :: x in r <==> x in xs && x !in drop
  {
    if xs == [] then []
    else
      var rest := Omit(xs[..|xs| - 1], drop);
      if xs[|xs| - 1] in drop then rest else rest + [xs[|xs| - 1]]
  }

  lemma OmitNoDup<T(!new)>(xs: seq<T>, drop: set<T>)
    requires NoDup(xs)
    ensures NoDup(Omit(xs, drop))
  {
    if xs != [] {
      OmitNoDup(xs[..|xs| - 1], drop);
    }
  }

  lemma PickNoDup<T(!new)>(xs: seq<T>, keep: set<T>)
    requires NoDup(xs)
    ensures NoDup(Pick(xs, keep))
  {
    if xs != [] {
      PickNoDup(xs[..|xs| - 1], keep);
    }
  }

  lemma NoDupCard<T>(xs: seq<T>)
    requires NoDup(xs)
    ensures |Elems(xs)| == |xs|
  {
    if xs == [] {
      assert Elems(xs) == {};
    } else {
      var last := xs[|xs| - 1];
      NoDupCard(xs[..|xs| - 1]);
      assert Elems(xs) == Elems(xs[..|xs| - 1]) + {last};
    }
  }

  lemma SubsetCard<T>(a: set<T>, b: set<T>)
    requires a <= b
    ensures |a| <= |b|
    ensures a < b ==> |a| < |b|
  {
    assert b == a + (b - a);
    if a < b {
      assert b - a != {};
    }
  }

  // ----- Text ----------------------------------------------------------------

  /** The word stands in the text at i. */
  ghost predicate OccursAt(word: string, text: string, i: int) {
    0 <= i <= |text| - |word| && forall j :: 0 <= j < |word| ==> text[i + j] == word[j]
  }

  lemma OccursAtSlice(word: string, text: string, i: int)
    ensures OccursAt(word, text, i) <==> 0 <= i <= |text| - |word| && text[i..i + |word|] == word
  {
    if 0 <= i <= |text| - |word| {
      var part := text[i..i + |word|];
      assert forall j {:trigger part[j]} :: 0 <= j < |word| ==> part[j] == text[i + j];
    }
  }
}
