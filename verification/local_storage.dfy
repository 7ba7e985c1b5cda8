/** The browser's `localStorage`, as a value: a map from keys to strings. */
module LocalStorage {
  import opened Js

  type Storage = map<string, string>

  /** `localStorage.getItem(key)`: the stored string, or null. */
  function GetItem(st: Storage, key: string): (r: Value)
    ensures r.Null? <==> key !in st
    ensures key in st ==> r == Str(st[key])
  {
    if key in st then Str(st[key]) else Null
  }

  /** `localStorage.setItem(key, v)`: the value is stored as `String(v)`. */
  function SetItem(st: Storage, key: string, v: Value): (r: Storage)
    ensures r.Keys == st.Keys + {key}
    ensures r[key] == ToStr(v)
    ensures forall k :: k in st && k != key ==> r[k] == st[k]
  {
    st[key := ToStr(v)]
  }

  /** `localStorage.removeItem(key)`. */
  function RemoveItem(st: Storage, key: string): (r: Storage)
    ensures r.Keys == st.Keys - {key}
    ensures forall k :: k in r ==> r[k] == st[k]
  {
    st - {key}
  }
}
