/** How many threads of a program-counter map are in a given kind of state. */
module Counting {

  function Having<V>(m: map<nat, V>, f: V -> bool): set<nat> {
    set p | p in m && f(m[p])
  }

  function Count<V>(m: map<nat, V>, f: V -> bool): nat {
    |Having(m, f)|
  }

  function One(b: bool): nat {
    if b then 1 else 0
  }

  lemma CountUpdate<V>(m: map<nat, V>, p: nat, v: V, f: V -> bool)
    ensures Count(m[p := v], f) == Count(m, f) - One(p in m && f(m[p])) + One(f(v))
  {
    var before, after := Having(m, f), Having(m[p := v], f);
    assert p in before <==> p in m && f(m[p]);
    if f(v) {
      assert after == before + {p};
    } else {
      assert after == before - {p};
    }
  }

  lemma CountRemove<V>(m: map<nat, V>, p: nat, f: V -> bool)
    ensures Count(m - {p}, f) == Count(m, f) - One(p in m && f(m[p]))
  {
    assert Having(m - {p}, f) == Having(m, f) - {p};
  }

  lemma CountBound<V>(m: map<nat, V>, f: V -> bool, p: nat)
    ensures Count(m, f) <= |m|
    ensures p in m && !f(m[p]) ==> Count(m, f) < |m|
    ensures p in m && f(m[p]) ==> Count(m, f) > 0
  {
    var others := m.Keys - {p};
    SubsetSize(Having(m, f), m.Keys);
    if p in m && !f(m[p]) {
      SubsetSize(Having(m, f), others);
    }
    if p in m && f(m[p]) {
      assert p in Having(m, f);
    }
  }

  /** A positive count has a witness. */
  lemma CountWitness<V>(m: map<nat, V>, f: V -> bool) returns (p: nat)
    requires Count(m, f) > 0
    ensures p in m && f(m[p])
  {
    p :| p in Having(m, f);
  }

  lemma CountZero<V>(m: map<nat, V>, f: V -> bool)
    ensures Count(m, f) == 0 <==> forall p :: p in m ==> !f(m[p])
  {
    if Count(m, f) == 0 {
      assert Having(m, f) == {};
      assert forall p :: p in m && f(m[p]) ==> p in Having(m, f);
    }
  }

  lemma SubsetSize<A>(a: set<A>, b: set<A>)
    requires a <= b
    ensures |a| <= |b|
  {
    if a != {} {
      var x :| x in a;
      SubsetSize(a - {x}, b - {x});
    }
  }
}
