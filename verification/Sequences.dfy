/** The elements of a sequence, and a sequence for the elements of a set. */
module Sequences {

  function Elems<T>(s: seq<T>): set<T> {
    set x | x in s
  }

  lemma ElemsFirst<T>(s: seq<T>)
    requires s != []
    ensures Elems(s) == {s[0]} + Elems(s[1..])
  {
  }

  lemma ElemsOfSum<T>(a: seq<T>, b: seq<T>)
    ensures Elems(a + b) == Elems(a) + Elems(b)
    ensures |b| == 1 ==> Elems(b) == {b[0]}
  {
  }

  lemma ElemsOfNone<T>()
    ensures Elems<T>([]) == {}
  {
  }

  ghost function Enumeration<T>(s: set<T>): (elems: seq<T>)
    ensures Elems(elems) == s
  {
    if s == {} then []
    else
      var x :| x in s;
      var rest := Enumeration(s - {x});
      assert Elems([x] + rest) == s by {
        ElemsFirst([x] + rest);
        assert ([x] + rest)[1..] == rest;
      }
      [x] + rest
  }
}
