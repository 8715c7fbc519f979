/** SQL MIN, MAX and LIMIT, and counting facts about finite sets. */
module Sets {
  lemma Pick<T>(s: set<T>) returns (x: T)
    requires s != {}
    ensures x in s
  {
    x :| x in s;
  }

  /** A set of numbers has a least element. */
  lemma {:induction false} LeastExists(s: set<int>)
    requires s != {}
    ensures exists m :: m in s && forall y :: y in s ==> m <= y
  {
    var x := Pick(s);
    if s == {x} {
    } else {
      LeastExists(s - {x});
      var m :| m in s - {x} && forall y :: y in s - {x} ==> m <= y;
      assert s == {x} + (s - {x});
      var k := if x < m then x else m;
      assert k in s && forall y :: y in s ==> k <= y;
    }
  }

  /** SQL MIN over a non-empty set of values. */
  function Least(s: set<int>): (m: int)
    requires s != {}
    ensures m in s && forall y :: y in s ==> m <= y
  {
    LeastExists(s);
    var m :| m in s && forall y :: y in s ==> m <= y;
    m
  }

  /** SQL MAX over a non-empty set of values. */
  function Greatest(s: set<int>): (m: int)
    requires s != {}
    ensures m in s && forall y :: y in s ==> y <= m
  {
    var negated := set y | y in s :: -y;
    assert forall y :: y in s ==> -y in negated;
    var m := Least(negated);
    assert forall y :: y in s ==> m <= -y;
    -m
  }

  /** A subset is no larger. */
  lemma SubsetCard<T>(a: set<T>, b: set<T>)
    requires a <= b
    ensures |a| <= |b|
  {
    assert b == a + (b - a);
  }

  /** `chosen` is a legal result of SELECT ... LIMIT over the candidates. */
  predicate LimitOf<T(==)>(chosen: set<T>, candidates: set<T>, limit: int) {
    chosen <= candidates && |chosen| == if |candidates| < limit then |candidates| else limit
  }

  lemma LimitInside<T>(chosen: set<T>, candidates: set<T>, limit: int)
    requires LimitOf(chosen, candidates, limit)
    ensures chosen <= candidates && |chosen| <= limit
  {
    SubsetCard(chosen, candidates);
  }

  method PickOne<T(==)>(s: set<T>) returns (x: T)
    requires s != {}
    ensures x in s
  {
    x :| x in s;
  }

  /** SELECT ... LIMIT over an unordered set. */
  method TakeSome<T(==)>(rows: set<T>, limit: nat) returns (taken: set<T>)
    ensures LimitOf(taken, rows, limit)
  {
    taken := {};
    var left := rows;
    while |taken| < limit && left != {}
      invariant taken + left == rows && taken !! left && |taken| <= limit
      decreases left
    {
      var row := PickOne(left);
      taken, left := taken + {row}, left - {row};
    }
    if left != {} { SubsetCard(taken, rows); }
  }

  /** Number of rows in the first `n` selections. */
  function Taken<T>(picks: seq<set<T>>, n: nat): nat
    requires n <= |picks|
  {
    if n == 0 then 0 else Taken(picks, n - 1) + |picks[n - 1]|
  }

  lemma {:induction false} TakenPrefix<T>(picks: seq<set<T>>, pick: set<T>, n: nat)
    requires n <= |picks|
    ensures Taken(picks + [pick], n) == Taken(picks, n)
  {
    if n > 0 { TakenPrefix(picks, pick, n - 1); }
  }

  lemma {:induction false} TakenGrows<T>(picks: seq<set<T>>, i: nat, j: nat)
    requires i <= j <= |picks|
    ensures Taken(picks, i) <= Taken(picks, j)
  {
    if i < j { TakenGrows(picks, i, j - 1); }
  }
}
