/**
 * Plain JavaScript objects as the script uses them: string keys with values,
 * enumerated (by `Object.keys`, `forEach`, `for..in`) in insertion order.
 * An object is its contents, a map, together with the order in which its
 * keys were first written; writing an existing key replaces its value and
 * keeps its place, writing a new key appends it.
 */
module Objects {

  datatype Option<T> = None | Some(value: T)

  /**
   * A spreadsheet cell or object field: an integer amount, a text, or a date
   * (as a day number, see module Calendar).
   */
  datatype Value = Num(n: int) | Text(s: string) | Date(day: int)

  datatype Obj<V> = Obj(keys: seq<string>, vals: map<string, V>)

  /** `{}`. */
  function Empty<V>(): Obj<V>
  {
    Obj([], map[])
  }

  predicate Distinct(ks: seq<string>)
  {
    forall i, j :: 0 <= i < j < |ks| ==> ks[i] != ks[j]
  }

  /** The representation invariant: the enumeration order lists each key of the contents once. */
  predicate Wf<V>(o: Obj<V>)
  {
    Distinct(o.keys) && (forall k :: k in o.vals ==> k in o.keys) && (forall k :: k in o.keys ==> k in o.vals)
  }

  /** `o[k]`, or None (`undefined`) when `k` is not a key of `o`. */
  function Find<V>(o: Obj<V>, k: string): Option<V>
  {
    if k in o.vals then Some(o.vals[k]) else None
  }

  /** `o[k] = v`. */
  function Set<V>(o: Obj<V>, k: string, v: V): Obj<V>
  {
    Obj(if k in o.vals then o.keys else o.keys + [k], o.vals[k := v])
  }

  /** Writing a key keeps the representation invariant. */
  lemma SetWf<V>(o: Obj<V>, k: string, v: V)
    requires Wf(o)
    ensures Wf(Set(o, k, v))
  {
    var r := Set(o, k, v);
    if k !in o.vals {
      forall i, j | 0 <= i < j < |r.keys| ensures r.keys[i] != r.keys[j] {
        if j == |o.keys| {
          assert r.keys[j] == k && r.keys[i] == o.keys[i];
        } else {
          assert r.keys[i] == o.keys[i] && r.keys[j] == o.keys[j];
        }
      }
    }
  }
  /** The keys after `o[k] = v` are those of `o` and `k`. */
  lemma SetKeys<V>(o: Obj<V>, k: string, v: V, s: string)
    requires Wf(o)
    ensures Wf(Set(o, k, v))
    ensures s in Set(o, k, v).keys <==> s in o.keys || s == k
  {
    SetWf(o, k, v);
  }

  /** Writing three distinct keys into `{}` gives them in that order. */
  lemma SetThree<V>(k1: string, v1: V, k2: string, v2: V, k3: string, v3: V)
    requires k1 != k2 && k1 != k3 && k2 != k3
    ensures Set(Set(Set(Empty(), k1, v1), k2, v2), k3, v3) == Obj([k1, k2, k3], map[k1 := v1, k2 := v2, k3 := v3])
  {
    assert [] + [k1] + [k2] + [k3] == [k1, k2, k3];
  }
}
