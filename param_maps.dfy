/**
 * Both versions fill a string-keyed Go map by ranging over a model's
 * parameters, writing each one under a key spelled from its name. Go visits
 * the parameters in no fixed order; because no two names share a key, the
 * map that comes out does not depend on the order.
 */
module ParamMaps {
  import opened ModelNames

  /** No two parameters are written under the same key. */
  predicate Injective(key: ParamName -> string) {
    forall a: ParamName, b: ParamName :: key(a) == key(b) ==> a == b
  }

  /** The entries of m for the parameters in done, each under key(n). */
  function Rekey<V>(key: ParamName -> string, m: map<ParamName, V>, done: set<ParamName>): map<string, V>
    requires Injective(key)
  {
    map n | n in done && n in m :: key(n) := m[n]
  }

  lemma NameOfIsInjective()
    ensures Injective(NameOf)
  {
    forall a: ParamName, b: ParamName | NameOf(a) == NameOf(b) ensures a == b {
      NameOfInjective(a, b);
    }
  }

  lemma CfgKeyIsInjective()
    ensures Injective(CfgKey)
  {
    forall a: ParamName, b: ParamName | CfgKey(a) == CfgKey(b) ensures a == b {
      CfgKeyInjective(a, b);
    }
  }

  /** key(n) is present exactly for the parameters written, and holds n's entry. */
  lemma RekeyAt<V>(key: ParamName -> string, m: map<ParamName, V>, done: set<ParamName>, n: ParamName)
    requires Injective(key)
    ensures key(n) in Rekey(key, m, done) <==> n in done && n in m
    ensures n in done && n in m ==> Rekey(key, m, done)[key(n)] == m[n]
  {
  }

  /** Every key present is the key of some parameter written. */
  lemma RekeyKeys<V>(key: ParamName -> string, m: map<ParamName, V>, done: set<ParamName>, k: string)
    requires Injective(key)
    requires k in Rekey(key, m, done)
    ensures exists n :: n in done && n in m && key(n) == k
  {
  }

  lemma {:induction false} RekeyEmpty<V>(key: ParamName -> string, m: map<ParamName, V>)
    requires Injective(key)
    ensures Rekey(key, m, {}) == map[]
  {
  }

  /** Writing one more parameter adds its entry under its key and changes nothing else. */
  lemma RekeyAdd<V>(key: ParamName -> string, m: map<ParamName, V>, done: set<ParamName>, n: ParamName)
    requires Injective(key)
    requires n !in done
    ensures Rekey(key, m, done + {n}) ==
      if n in m then Rekey(key, m, done)[key(n) := m[n]] else Rekey(key, m, done)
  {
    var grown := Rekey(key, m, done + {n});
    var expected := if n in m then Rekey(key, m, done)[key(n) := m[n]] else Rekey(key, m, done);
    RekeyAddOld(key, m, done, n, grown, expected);
    RekeyAddNew(key, m, done, n, grown, expected);
  }

  lemma RekeyAddOld<V>(key: ParamName -> string, m: map<ParamName, V>, done: set<ParamName>, n: ParamName,
                       grown: map<string, V>, expected: map<string, V>)
    requires Injective(key)
    requires n !in done
    requires grown == Rekey(key, m, done + {n})
    requires expected == if n in m then Rekey(key, m, done)[key(n) := m[n]] else Rekey(key, m, done)
    ensures forall k | k in grown :: k in expected && grown[k] == expected[k]
  {
    forall k | k in grown ensures k in expected && grown[k] == expected[k] {
      RekeyKeys(key, m, done + {n}, k);
      var j :| j in done + {n} && j in m && key(j) == k;
      RekeyAt(key, m, done + {n}, j);
      if j != n {
        RekeyAt(key, m, done, j);
      }
    }
  }

  lemma RekeyAddNew<V>(key: ParamName -> string, m: map<ParamName, V>, done: set<ParamName>, n: ParamName,
                       grown: map<string, V>, expected: map<string, V>)
    requires Injective(key)
    requires n !in done
    requires grown == Rekey(key, m, done + {n})
    requires expected == if n in m then Rekey(key, m, done)[key(n) := m[n]] else Rekey(key, m, done)
    ensures forall k | k in expected :: k in grown
  {
    forall k | k in expected ensures k in grown {
      if n in m && k == key(n) {
        RekeyAt(key, m, done + {n}, n);
      } else {
        RekeyKeys(key, m, done, k);
        var j :| j in done && j in m && key(j) == k;
        RekeyAt(key, m, done + {n}, j);
      }
    }
  }

  lemma UpdateUnion<V>(a: map<string, V>, b: map<string, V>, k: string, v: V)
    ensures (a + b)[k := v] == a + b[k := v]
  {
  }

  /**
   * One more iteration of a loop that has written the parameters in done:
   * starting from base plus what was written, the map after writing n (or not,
   * when n has no entry) is base plus what is now written.
   */
  lemma RekeyStep<V>(key: ParamName -> string, m: map<ParamName, V>, done: set<ParamName>, n: ParamName,
                     base: map<string, V>, before: map<string, V>, after: map<string, V>)
    requires Injective(key)
    requires n !in done
    requires before == base + Rekey(key, m, done)
    requires after == if n in m then before[key(n) := m[n]] else before
    ensures after == base + Rekey(key, m, done + {n})
  {
    RekeyAdd(key, m, done, n);
    if n in m {
      UpdateUnion(base, Rekey(key, m, done), key(n), m[n]);
    }
  }
}
