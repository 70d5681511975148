/** The values of a finite map added up. */
module MapFacts {

  ghost function Sum<K>(m: map<K, nat>): nat
    decreases |m.Keys|
  {
    if m.Keys == {} then 0
    else
      var key :| key in m.Keys;
      m[key] + Sum(m - {key})
  }

  lemma {:induction false} SumWithout<K>(m: map<K, nat>, key: K)
    requires key in m.Keys
    ensures Sum(m) == m[key] + Sum(m - {key})
    decreases |m.Keys|
  {
    var first :| first in m.Keys && Sum(m) == m[first] + Sum(m - {first});
    if first != key {
      SumWithout(m - {first}, key);
      SumWithout(m - {key}, first);
      assert m - {first} - {key} == m - {key} - {first};
    }
  }

  lemma SumUpdate<K>(m: map<K, nat>, key: K, value: nat)
    ensures Sum(m[key := value]) == Sum(m) + value - if key in m.Keys then m[key] else 0
  {
    var after := m[key := value];
    SumWithout(after, key);
    assert after - {key} == m - {key};
    if key in m.Keys {
      SumWithout(m, key);
    } else {
      assert m - {key} == m;
    }
  }
}
