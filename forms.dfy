/**
 * State idioms shared by the four form components: the `x || fallback` default for
 * optional strings and the "clear this field's message while the user types" update of
 * an error map.
 */
module Forms {
  import opened Wrappers

  /** `x || fallback` for a string that may be missing: a missing or empty value gives `fallback`. */
  function Or(x: Option<string>, fallback: string): (r: string)
    ensures r == fallback || (x.Some? && r == x.value)
    ensures r == fallback <== x == None || x == Some([])
    ensures x.Some? && x.value != [] ==> r == x.value
  {
    match x
    case Some(v) => if v != [] then v else fallback
    case None => fallback
  }

  /**
   * `if (errors[k]) setErrors({ ...errors, [k]: '' })`: a non-empty message under `k`
   * becomes `''`; an absent or already empty entry leaves the map as it was.
   */
  function ClearFieldError<K>(m: map<K, string>, k: K): (r: map<K, string>)
    ensures r.Keys == m.Keys
    ensures k in r ==> r[k] == []
    ensures forall j | j in m && j != k :: r[j] == m[j]
  {
    if k in m && m[k] != [] then m[k := []] else m
  }

  /** The guard is only an optimisation: clearing is the same as always writing `''` to a present key. */
  lemma ClearIsUnconditionalWrite<K>(m: map<K, string>, k: K)
    ensures ClearFieldError(m, k) == if k in m then m[k := []] else m
  {
    if k in m && m[k] == [] {
      assert m[k := []] == m;
    }
  }

  /** Clearing twice is clearing once. */
  lemma ClearIdempotent<K>(m: map<K, string>, k: K)
    ensures ClearFieldError(ClearFieldError(m, k), k) == ClearFieldError(m, k)
  {
  }
}
