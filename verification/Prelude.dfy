// Small shared vocabulary: optional values, bytes, and order-preserving
// operations on sequences that grow at the back.
module Prelude {
  datatype Option<+T> = None | Some(value: T)

  datatype Result<+T, +E> = Ok(value: T) | Err(error: E)

  newtype byte = x: int | 0 <= x < 256
  type bytes = seq<byte>

  function Last<T>(s: seq<T>): T
    requires s != []
  {
    s[|s| - 1]
  }

  function Init<T>(s: seq<T>): seq<T>
    requires s != []
  {
    s[..|s| - 1]
  }

  /** The elements of s that satisfy p, in order. */
  function Filter<T>(p: T -> bool, s: seq<T>): seq<T> {
    if s == [] then []
    else Filter(p, Init(s)) + (if p(Last(s)) then [Last(s)] else [])
  }

  lemma FilterSnoc<T>(p: T -> bool, s: seq<T>, x: T)
    ensures Filter(p, s + [x]) == Filter(p, s) + (if p(x) then [x] else [])
  {
    assert Init(s + [x]) == s;
  }

  lemma {:induction false} FilterConcat<T>(p: T -> bool, a: seq<T>, b: seq<T>)
    ensures Filter(p, a + b) == Filter(p, a) + Filter(p, b)
  {
    if b == [] {
      assert a + b == a;
    } else {
      FilterConcat(p, a, Init(b));
      assert a + b == (a + Init(b)) + [Last(b)];
      FilterSnoc(p, a + Init(b), Last(b));
    }
  }

  lemma {:induction false} FilterMembers<T>(p: T -> bool, s: seq<T>, x: T)
    ensures x in Filter(p, s) <==> x in s && p(x)
  {
    if s == [] {
    } else {
      FilterMembers(p, Init(s), x);
      assert s == Init(s) + [Last(s)];
    }
  }

  /** Filtering by q after p keeps what satisfies both. */
  lemma {:induction false} FilterFilter<T>(p: T -> bool, q: T -> bool, s: seq<T>)
    requires forall x :: q(x) ==> p(x)
    ensures Filter(q, Filter(p, s)) == Filter(q, s)
  {
    if s == [] {
    } else {
      FilterFilter(p, q, Init(s));
      if p(Last(s)) {
        FilterSnoc(q, Filter(p, Init(s)), Last(s));
      } else {
        assert Filter(p, s) == Filter(p, Init(s));
      }
    }
  }

  /** a arises from b by leaving elements out, in order. */
  predicate Subsequence<T(==)>(a: seq<T>, b: seq<T>) {
    if a == [] then true
    else if b == [] then false
    else Subsequence(a, Init(b)) || (Last(a) == Last(b) && Subsequence(Init(a), Init(b)))
  }

  lemma SubsequenceSkip<T>(a: seq<T>, b: seq<T>, x: T)
    requires Subsequence(a, b)
    ensures Subsequence(a, b + [x])
  {
    assert Init(b + [x]) == b;
  }

  lemma SubsequenceTake<T>(a: seq<T>, b: seq<T>, x: T)
    requires Subsequence(a, b)
    ensures Subsequence(a + [x], b + [x])
  {
    assert Init(a + [x]) == a && Init(b + [x]) == b;
  }

  lemma {:induction false} SubsequenceTransitive<T>(a: seq<T>, b: seq<T>, c: seq<T>)
    requires Subsequence(a, b) && Subsequence(b, c)
    ensures Subsequence(a, c)
    decreases |a| + |b| + |c|
  {
    if a == [] {
    } else if Subsequence(b, Init(c)) {
      SubsequenceTransitive(a, b, Init(c));
    } else if Subsequence(a, Init(b)) {
      SubsequenceTransitive(a, Init(b), Init(c));
    } else {
      SubsequenceTransitive(Init(a), Init(b), Init(c));
    }
  }

  lemma {:induction false} SubsequenceMembers<T>(a: seq<T>, b: seq<T>)
    requires Subsequence(a, b)
    ensures forall x :: x in a ==> x in b
    ensures Distinct(b) ==> Distinct(a)
  {
    if a == [] {
    } else {
      var x := Last(b);
      assert b == Init(b) + [x] && a == Init(a) + [Last(a)];
      DistinctSnoc(Init(b), x);
      DistinctSnoc(Init(a), Last(a));
      if Subsequence(a, Init(b)) {
        SubsequenceMembers(a, Init(b));
      } else {
        SubsequenceMembers(Init(a), Init(b));
      }
    }
  }

  lemma SliceStep<T>(s: seq<T>, i: nat)
    requires i < |s|
    ensures s[i..] != [] && s[i..][0] == s[i] && s[i..][1..] == s[i + 1..] && s[..i] + [s[i]] == s[..i + 1]
  {
  }

  /** Moving the head of one sequence to the back of another. */
  lemma HeadMoves<T>(a: seq<T>, b: seq<T>)
    requires b != []
    ensures (a + [b[0]]) + b[1..] == a + b
  {
    assert b == [b[0]] + b[1..];
  }

  lemma EmptyOrInhabited<T>(s: seq<T>)
    ensures s == [] || exists x :: x in s
  {
    if s != [] {
      assert s[0] in s;
    }
  }

  predicate Distinct<T(==)>(s: seq<T>) {
    forall i, j :: 0 <= i < j < |s| ==> s[i] != s[j]
  }

  lemma DistinctSnoc<T>(s: seq<T>, x: T)
    ensures Distinct(s + [x]) <==> Distinct(s) && x !in s
  {
    var t := s + [x];
    assert forall i :: 0 <= i < |s| ==> t[i] == s[i];
    assert t[|s|] == x;
    if Distinct(t) {
      assert forall i :: 0 <= i < |s| ==> s[i] != x;
    }
  }

  // ---- runs of an automaton ----

  /** The state that a sequence of events leads to from s, or None when the
      automaton does not accept it. */
  function Fold<S, E>(next: (S, E) -> Option<S>, s: S, es: seq<E>): Option<S> {
    if es == [] then Some(s)
    else
      match Fold(next, s, Init(es))
      case None => None
      case Some(m) => next(m, Last(es))
  }

  lemma FoldSnoc<S, E>(next: (S, E) -> Option<S>, s: S, es: seq<E>, e: E)
    requires Fold(next, s, es).Some?
    ensures Fold(next, s, es + [e]) == next(Fold(next, s, es).value, e)
  {
    assert Init(es + [e]) == es;
  }

  lemma {:induction false} FoldConcat<S, E>(next: (S, E) -> Option<S>, s: S, a: seq<E>, b: seq<E>)
    requires Fold(next, s, a).Some?
    ensures Fold(next, s, a + b) == Fold(next, Fold(next, s, a).value, b)
  {
    if b == [] {
      assert a + b == a;
    } else {
      FoldConcat(next, s, a, Init(b));
      assert Init(a + b) == a + Init(b);
    }
  }

  /** Cutting a run anywhere leaves a run. */
  lemma {:induction false} FoldPrefix<S, E>(next: (S, E) -> Option<S>, s: S, es: seq<E>, n: nat)
    requires n <= |es| && Fold(next, s, es).Some?
    ensures Fold(next, s, es[..n]).Some?
  {
    if n == |es| {
      assert es[..n] == es;
    } else {
      FoldPrefix(next, s, Init(es), n);
      assert Init(es)[..n] == es[..n];
    }
  }
}
