/** Runs of a deterministic machine. */
module Machine {
  ghost function Fold<S(!new), E(!new)>(next: (S, E) -> S, s: S, events: seq<E>): S {
    if events == [] then s else next(Fold(next, s, events[..|events| - 1]), events[|events| - 1])
  }

  lemma {:induction false} FoldKeeps<S(!new), E(!new)>(next: (S, E) -> S, inv: S -> bool, s: S, events: seq<E>)
    requires inv(s) && forall x, e :: inv(x) ==> inv(next(x, e))
    ensures inv(Fold(next, s, events))
  {
    FoldKeepsOn(next, inv, _ => true, s, events);
  }

  /** The same for runs whose events are all of one kind. */
  lemma {:induction false} FoldKeepsOn<S(!new), E(!new)>(next: (S, E) -> S, inv: S -> bool, ok: E -> bool, s: S, events: seq<E>)
    requires inv(s) && (forall i :: 0 <= i < |events| ==> ok(events[i])) && forall x, e :: inv(x) && ok(e) ==> inv(next(x, e))
    ensures inv(Fold(next, s, events))
  {
    if events != [] {
      FoldKeepsOn(next, inv, ok, s, events[..|events| - 1]);
    }
  }

  ghost function Iterate<S>(f: S -> S, s: S, n: nat): S
    decreases n
  {
    if n == 0 then s else Iterate(f, f(s), n - 1)
  }

  /** Steps that keep shrinking something come to an end within its size. */
  lemma {:induction false} Settles<S(!new)>(f: S -> S, busy: S -> bool, inv: S -> bool, size: S -> nat, s: S) returns (n: nat)
    requires inv(s) && forall x :: inv(x) && busy(x) ==> inv(f(x)) && size(f(x)) < size(x)
    ensures n <= size(s) && !busy(Iterate(f, s, n))
    decreases size(s)
  {
    n := 0;
    if busy(s) {
      var rest := Settles(f, busy, inv, size, f(s));
      n := rest + 1;
    }
  }

  lemma {:induction false} FoldConcat<S(!new), E(!new)>(next: (S, E) -> S, s: S, a: seq<E>, b: seq<E>)
    ensures Fold(next, s, a + b) == Fold(next, Fold(next, s, a), b)
  {
    if b == [] {
      assert a + b == a;
    } else {
      FoldConcat(next, s, a, b[..|b| - 1]);
      assert (a + b)[..|a + b| - 1] == a + b[..|b| - 1];
    }
  }

  lemma {:induction false} FoldCons<S(!new), E(!new)>(next: (S, E) -> S, s: S, e: E, rest: seq<E>)
    ensures Fold(next, s, [e] + rest) == Fold(next, next(s, e), rest)
  {
    FoldConcat(next, s, [e], rest);
    assert [e][..0] == [];
  }

  lemma {:induction false} TwoSteps<S(!new), E(!new)>(next: (S, E) -> S, s: S, x: E, y: E)
    ensures Fold(next, s, [x, y]) == next(next(s, x), y)
  {
    FoldCons(next, s, x, [y]);
    FoldCons(next, next(s, x), y, []);
    assert [x] + [y] == [x, y] && [y] + [] == [y];
  }

  lemma {:induction false} ThreeSteps<S(!new), E(!new)>(next: (S, E) -> S, s: S, x: E, y: E, z: E)
    ensures Fold(next, s, [x, y, z]) == next(next(next(s, x), y), z)
  {
    FoldCons(next, s, x, [y, z]);
    FoldCons(next, next(s, x), y, [z]);
    FoldCons(next, next(next(s, x), y), z, []);
    assert [x] + [y, z] == [x, y, z] && [y] + [z] == [y, z] && [z] + [] == [z];
  }

  lemma {:induction false} SubsetSize<T>(a: set<T>, b: set<T>)
    requires a <= b
    ensures |a| <= |b|
  {
    assert b == a + (b - a);
  }
}
