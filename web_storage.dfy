/**
 * The browser's `localStorage` and `sessionStorage`: string keys to string values.
 * `setItem(k, v)` is `store[k := v]`, `removeItem(k)` is `store - {k}`.
 */
module WebStorage {

  type Store = map<string, string>

  /**
   * `getItem(key)` used as a JavaScript condition: `null` (absent) and the empty
   * string are both false.
   */
  function IsTruthy(store: Store, key: string): (truthy: bool)
    ensures key !in store ==> !truthy
    ensures key in store && store[key] == "" ==> !truthy
    ensures key in store && store[key] != "" ==> truthy
  {
    key in store && store[key] != ""
  }
}
