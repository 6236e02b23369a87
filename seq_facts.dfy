/** Facts about sequence prefixes that the loops over arrays use. */
module SeqFacts {
  /** A prefix one longer is the prefix followed by the next element. */
  lemma TakeSnoc<T>(s: seq<T>, i: nat)
    requires i < |s|
    ensures s[..i + 1] == s[..i] + [s[i]]
  {
  }

  /** The same, behind a first element x. */
  lemma ConsTakeSnoc<T>(x: T, s: seq<T>, i: nat)
    requires i < |s|
    ensures [x] + s[..i + 1] == [x] + s[..i] + [s[i]]
  {
    TakeSnoc(s, i);
  }
}
