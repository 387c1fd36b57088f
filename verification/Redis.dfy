/** The part of Redis the task-list cache uses: string keys, integers and payloads, optional expiry. */
module Redis {
  import opened Wrappers
  import opened Text
  import opened Clock
  import opened Domain

  /** A counter, a saved page that loads back unchanged, or a text that does not load as a page. */
  datatype Value = Number(n: nat) | Json(page: TaskPage) | Garbage(text: string)

  datatype Entry = Entry(value: Value, expiresAt: Option<Instant>)

  type Store = map<string, Entry>

  /** GET: an expired entry is not there. */
  function Lookup(store: Store, now: Instant, key: string): Option<Value> {
    if key in store && (store[key].expiresAt.Some? ==> now < store[key].expiresAt.value)
    then Some(store[key].value) else None
  }

  /** SET with EX. */
  function Stored(store: Store, key: string, page: TaskPage, expiresAt: Instant): Store {
    store[key := Entry(Json(page), Some(expiresAt))]
  }

  /** INCR: an absent key counts from zero, and a value that is no integer is an error that changes nothing. */
  function Incremented(store: Store, now: Instant, key: string): Store {
    match Lookup(store, now, key)
    case None => store[key := Entry(Number(1), None)]
    case Some(Number(n)) => store[key := store[key].(value := Number(n + 1))]
    case Some(_) => store
  }

  /** INCR a number of times: none when the call is lost, more than once when the client retries a call that took effect. */
  function Bumped(store: Store, now: Instant, key: string, times: nat): Store {
    if times == 0 then store else Incremented(Bumped(store, now, key, times - 1), now, key)
  }

  /** A stored page is read back unchanged before its expiry, and not at all from then on; other keys are untouched. */
  lemma StoredUntilExpiry(store: Store, key: string, page: TaskPage, expiresAt: Instant, now: Instant, other: string)
    ensures Lookup(Stored(store, key, page, expiresAt), now, key) == if now < expiresAt then Some(Json(page)) else None
    ensures other != key ==> Lookup(Stored(store, key, page, expiresAt), now, other) == Lookup(store, now, other)
  {
  }

  /** INCR counts: `times` of them add `times` to the number that a GET of the key returns, absent being zero. */
  lemma {:induction false} BumpedCounts(store: Store, now: Instant, key: string, times: nat, other: string)
    requires Lookup(store, now, key).None? || Lookup(store, now, key).value.Number?
    ensures var n := if Lookup(store, now, key).Some? then Lookup(store, now, key).value.n else 0;
            times > 0 ==> Lookup(Bumped(store, now, key, times), now, key) == Some(Number(n + times))
    ensures other != key ==> Lookup(Bumped(store, now, key, times), now, other) == Lookup(store, now, other)
  {
    if times > 0 {
      BumpedCounts(store, now, key, times - 1, other);
    }
  }

  /** `_normalize_version` of a reply decoded to text: no reply and an empty reply both read as version 0. */
  function VersionText(reply: Option<Value>): string
    requires reply.Some? ==> !reply.value.Json?
  {
    match reply
    case None => "0"
    case Some(Number(n)) => Decimal(n)
    case Some(Garbage(text)) => if text == "" then "0" else text
  }
}
