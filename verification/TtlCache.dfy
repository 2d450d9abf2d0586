/** The cache contract: entries leave by deletion, by Pop, or when their lifetime has run out. */
module TtlCache {
  import opened GoStrings

  /**
    One stored entry. origin identifies the stored thing: it is the index, in the history, of the
    event that first put it into a cache, and stays with whatever descends from it.
   */
  datatype Entry<+T> = Entry(value: T, expires: int, origin: nat)

  type Table<T> = map<GoString, Entry<T>>

  /** What a reader sees at an instant. */
  function Lookup<T>(t: Table<T>, k: GoString, now: int): Option<Entry<T>> {
    if k in t && now < t[k].expires then Some(t[k]) else None
  }
}
