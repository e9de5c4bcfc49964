/**
  The host's transient store: string keys holding a value with an expiry instant.
  `get_transient`, `set_transient` and `delete_transient` become the functions
  `Get`, `Set` and `Delete`; the clock is the explicit parameter `now`, and an
  entry is present while `now` is before its expiry.
*/
module TransientStore {
  import opened Wrappers

  datatype Entry<V> = Entry(value: V, expiry: int)

  type Store<V> = map<string, Entry<V>>

  /** `get_transient($key)`: the stored value while it has not expired, nothing (PHP `false`) otherwise. */
  function Get<V>(s: Store<V>, key: string, now: int): Option<V>
  {
    if key in s && now < s[key].expiry then Some(s[key].value) else None
  }

  /**
    `set_transient($key, $value, $duration)` at instant `now`: the key reads back
    `value` for the next `duration` seconds and nothing after, and no other key
    changes.
  */
  function Set<V>(s: Store<V>, key: string, value: V, duration: int, now: int): (r: Store<V>)
    ensures forall t :: Get(r, key, t) == (if t < now + duration then Some(value) else None)
    ensures forall k :: k != key ==> (k in r <==> k in s) && (k in s ==> r[k] == s[k])
  {
    s[key := Entry(value, now + duration)]
  }

  /** `delete_transient($key)`: the key reads back nothing at any instant, and no other key changes. */
  function Delete<V>(s: Store<V>, key: string): (r: Store<V>)
    ensures forall t :: Get(r, key, t) == None
    ensures forall k :: k != key ==> (k in r <==> k in s) && (k in s ==> r[k] == s[k])
    ensures key !in s ==> r == s
  {
    s - {key}
  }
}
