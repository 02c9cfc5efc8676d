/**
 * The browser's `localStorage`: one flat namespace from string keys to
 * JSON text. Every blob the storefront writes is a JSON array, and
 * `JSON.stringify` followed by `JSON.parse` gives the array back, so the
 * model keeps the parsed array itself. Callers simulate collections by
 * naming keys (`<uid>_cart`, `product_reviews_<id>`, `<uid>_orders`, ...).
 */
module LocalStorage {
  import opened Prelude

  type Store<T> = map<string, seq<T>>

  /** `localStorage.getItem(key)` parsed, `None` for a missing key. */
  function GetItem<T>(store: Store<T>, key: string): Option<seq<T>>
  {
    if key in store then Some(store[key]) else None
  }

  /** `JSON.parse(localStorage.getItem(key) || "[]")`. */
  function GetOrEmpty<T>(store: Store<T>, key: string): (r: seq<T>)
    ensures GetItem(store, key).None? ==> r == []
    ensures GetItem(store, key).Some? ==> r == GetItem(store, key).value
  {
    if key in store then store[key] else []
  }

  /** `localStorage.setItem(key, JSON.stringify(value))`. */
  function SetItem<T>(store: Store<T>, key: string, value: seq<T>): (r: Store<T>)
    ensures GetItem(r, key) == Some(value)
    ensures forall k :: k != key ==> GetItem(r, k) == GetItem(store, k)
  {
    store[key := value]
  }

  /** Writing back what was just read changes nothing. */
  lemma SetWhatWasRead<T>(store: Store<T>, key: string)
    requires key in store
    ensures SetItem(store, key, GetOrEmpty(store, key)) == store
  {
  }

  /** A second write to the same key replaces the first entirely. */
  lemma LaterWriteWins<T>(store: Store<T>, key: string, first: seq<T>, second: seq<T>)
    ensures SetItem(SetItem(store, key, first), key, second) == SetItem(store, key, second)
  {
  }
}
