/**
 * The writes that the admin panels send to the hosted table store. The store
 * itself is not modelled: a handler returns the request it would issue.
 */
module Store {
  import opened Wrappers

  /** Row identity (a UUID string in the store). */
  type Id = string

  /**
   * One write against a table. `Insert` carries the inserted row, `Update` the
   * patch applied to the row whose id equals `key`; insert and patch may have
   * different shapes (the admin-user insert carries a role, its patch does not).
   */
  datatype Write<I, U> = Insert(row: I) | Update(key: Id, patch: U) | Delete(key: Id)

  /**
   * Every delete handler first asks `confirm(...)` and returns when it is
   * declined; only a confirmed delete reaches the store, keyed by the row id.
   */
  function DeleteIfConfirmed<I, U>(key: Id, confirmed: bool): (w: Option<Write<I, U>>)
    ensures w.Some? <==> confirmed
    ensures w.Some? ==> w.value.Delete? && w.value.key == key
  {
    if confirmed then Some(Delete(key)) else None
  }
}
