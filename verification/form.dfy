/** Parsed url-encoded form values, as Go's `url.Values` reduced to the first value per key. */
module Form {

  type Values = map<string, string>

  /** `url.Values.Get`: the first value of the key, or "" when the key is absent. */
  function Get(v: Values, key: string): string {
    if key in v then v[key] else ""
  }

  /** True when two value sets give every key in `keys` the same value. */
  predicate AgreeOn(a: Values, b: Values, keys: set<string>) {
    forall k :: k in keys ==> Get(a, k) == Get(b, k)
  }
}
