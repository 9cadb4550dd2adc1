/**
 Redis as the repository uses it: keys with a time to live, and commands that take effect
 at most once but whose caller may see an error either way.
 */
module TtlStore {
  import opened Options

  datatype Entry<+V> = Entry(value: V, expiry: nat)

  type Store<!K, +V> = map<K, Entry<V>>

  predicate Live<K, V>(store: Store<K, V>, key: K, now: nat) {
    key in store && now < store[key].expiry
  }

  /** `GET key` */
  function Lookup<K, V>(store: Store<K, V>, key: K, now: nat): Option<V> {
    if Live(store, key, now) then Some(store[key].value) else None
  }

  /** `SET key value EX ttl` */
  function SetEx<K, V>(store: Store<K, V>, key: K, value: V, now: nat, ttl: nat): Store<K, V> {
    store[key := Entry(value, now + ttl)]
  }

  /** `DEL key` */
  function Delete<K, V>(store: Store<K, V>, key: K): Store<K, V> {
    store - {key}
  }

  /**
   What becomes of one command: it is answered; Redis reports an error before or after it took
   effect; or the coroutine that issues it is cut off before or after it took effect, so that its
   caller sees no answer and no Redis error: it is cancelled, or `run_sync` cannot run it.
   */
  datatype Delivery = Delivered | LostBefore | LostAfter | CutBefore | CutAfter {
    predicate Applied() {
      !LostBefore? && !CutBefore?
    }

    predicate Raised() {
      !Delivered?
    }

    predicate Cut() {
      CutBefore? || CutAfter?
    }
  }
}
