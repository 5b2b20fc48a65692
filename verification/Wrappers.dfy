module Wrappers {
  datatype Option<+T> = None | Some(value: T)

  function FoldLeft<A, B>(f: (A, B) -> A, a: A, s: seq<B>): A
    decreases |s|
  {
    if s == [] then a else FoldLeft(f, f(a, s[0]), s[1..])
  }

  lemma FoldOnce<A, B>(f: (A, B) -> A, a: A, b: B)
    ensures FoldLeft(f, a, [b]) == f(a, b)
  {
    var one := [b];
    assert one[1..] == [];
    assert FoldLeft(f, f(a, b), one[1..]) == f(a, b);
  }

  lemma {:induction false} FoldCompose<A, B>(f: (A, B) -> A, a: A, s: seq<B>, t: seq<B>)
    ensures FoldLeft(f, a, s + t) == FoldLeft(f, FoldLeft(f, a, s), t)
    decreases |s|
  {
    if s == [] {
      assert s + t == t;
    } else {
      FoldCompose(f, f(a, s[0]), s[1..], t);
      assert (s + t)[1..] == s[1..] + t;
    }
  }
}
