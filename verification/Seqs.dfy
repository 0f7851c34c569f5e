/** Counting and removing in sequences. */
module Seqs {

  ghost function Occ<T(!new)>(s: seq<T>, x: T): nat {
    if s == [] then 0 else Occ(s[..|s| - 1], x) + if s[|s| - 1] == x then 1 else 0
  }

  function Drop<T>(s: seq<T>, i: nat): seq<T>
    requires i < |s|
  {
    s[..i] + s[i + 1..]
  }

  lemma {:induction false} OccConcat<T(!new)>(a: seq<T>, b: seq<T>, x: T)
    ensures Occ(a + b, x) == Occ(a, x) + Occ(b, x)
    decreases |b|
  {
    if b == [] {
      assert a + b == a;
    } else {
      OccConcat(a, b[..|b| - 1], x);
      assert (a + b)[..|a + b| - 1] == a + b[..|b| - 1];
    }
  }

  lemma OccOne<T(!new)>(y: T, x: T)
    ensures Occ([y], x) == if y == x then 1 else 0
  {
    assert [y][..0] == [];
  }

  lemma {:induction false} OccIn<T(!new)>(s: seq<T>, x: T)
    ensures x in s <==> Occ(s, x) > 0
  {
    if s != [] {
      OccIn(s[..|s| - 1], x);
      assert s == s[..|s| - 1] + [s[|s| - 1]];
    }
  }

  lemma OccSplit<T(!new)>(s: seq<T>, i: nat, x: T)
    requires i < |s|
    ensures Occ(s, x) == Occ(s[..i], x) + Occ(s[i + 1..], x) + if s[i] == x then 1 else 0
    ensures Occ(Drop(s, i), x) == Occ(s[..i], x) + Occ(s[i + 1..], x)
  {
    hide Occ;
    assert s == s[..i] + ([s[i]] + s[i + 1..]);
    OccConcat(s[..i], [s[i]] + s[i + 1..], x);
    OccConcat([s[i]], s[i + 1..], x);
    OccOne(s[i], x);
    OccConcat(s[..i], s[i + 1..], x);
  }

  lemma OccTwo<T(!new)>(s: seq<T>, i: nat, j: nat)
    requires i < j < |s| && s[i] == s[j]
    ensures Occ(s, s[i]) >= 2
  {
    OccSplit(s, j, s[i]);
    OccIn(s[..j], s[i]);
    assert s[..j][i] == s[i];
  }

  ghost predicate Distinct<T(!new)>(s: seq<T>) {
    forall i, j :: 0 <= i < j < |s| ==> s[i] != s[j]
  }
}
