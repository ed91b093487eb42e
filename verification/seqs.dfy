/** Order-preserving selection and concatenation over sequences: the two things
    every lookup loop in the handlers does. */
module Seqs {

  /** The elements of `s` that satisfy `p`, in their original order. */
  function Filter<T>(p: T -> bool, s: seq<T>): (r: seq<T>)
    ensures |r| <= |s|
    ensures forall i :: 0 <= i < |r| ==> r[i] in s && p(r[i])
    ensures forall i :: 0 <= i < |s| && p(s[i]) ==> s[i] in r
    ensures (forall i :: 0 <= i < |s| ==> p(s[i])) ==> r == s
  {
    if s == [] then [] else (if p(s[0]) then [s[0]] else []) + Filter(p, s[1..])
  }

  /** Selection distributes over concatenation, so matches keep document order. */
  lemma {:induction false} FilterAppend<T>(p: T -> bool, a: seq<T>, b: seq<T>)
    ensures Filter(p, a + b) == Filter(p, a) + Filter(p, b)
  {
    if a == [] {
      assert a + b == b;
    } else {
      assert (a + b)[1..] == a[1..] + b;
      FilterAppend(p, a[1..], b);
    }
  }

  /** Every element rendered, one after the other. */
  function Concat<T>(render: T -> string, s: seq<T>): (r: string)
    ensures (forall i :: 0 <= i < |s| ==> |render(s[i])| > 0) ==> (r == [] <==> s == [])
    ensures |s| == 1 ==> r == render(s[0])
  {
    if s == [] then [] else render(s[0]) + Concat(render, s[1..])
  }

  /** Rendering distributes over concatenation. */
  lemma {:induction false} ConcatAppend<T>(render: T -> string, a: seq<T>, b: seq<T>)
    ensures Concat(render, a + b) == Concat(render, a) + Concat(render, b)
  {
    if a == [] {
      assert a + b == b;
    } else {
      assert (a + b)[1..] == a[1..] + b;
      ConcatAppend(render, a[1..], b);
    }
  }

  /** One more element of a list extends the selection by that element exactly
      when it passes (`pass` is whether it does), and rendering one more selected
      element appends its block: the step of every lookup loop. */
  lemma FilterConcatStep<T>(p: T -> bool, render: T -> string, s: seq<T>, i: nat, pass: bool)
    requires i < |s| && pass == p(s[i])
    ensures pass ==> Filter(p, s[..i + 1]) == Filter(p, s[..i]) + [s[i]]
    ensures !pass ==> Filter(p, s[..i + 1]) == Filter(p, s[..i])
    ensures Concat(render, Filter(p, s[..i]) + [s[i]]) == Concat(render, Filter(p, s[..i])) + render(s[i])
  {
    assert s[..i + 1] == s[..i] + [s[i]];
    FilterAppend(p, s[..i], [s[i]]);
    ConcatAppend(render, Filter(p, s[..i]), [s[i]]);
  }
}
