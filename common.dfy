/** Shared vocabulary of the two record-manager screens and the navigation bar:
    optional values, the outcome of a call to the remote record store, the
    signed-in user, JavaScript string truthiness, and what a complete listing
    of a store collection is. */
module Common {

  datatype Option<+T> = None | Some(value: T)

  /** What one call to the remote record store came back with: the value it
      resolved to, or a rejection (network, permission, not found, ...). */
  datatype Reply<+T> = Ok(value: T) | Fail

  /** The user the session context holds (`useAuthStore().user`). */
  datatype User = User(id: string, name: string, role: string)

  /** `if (s)` on a `string | null` in JavaScript: null and "" are falsy. */
  predicate Truthy(s: Option<string>) {
    s.Some? && s.value != ""
  }

  predicate Distinct<T(==)>(s: seq<T>) {
    forall i, j :: 0 <= i < j < |s| ==> s[i] != s[j]
  }

  /** `order` is a listing of the collection `store`: every identifier the
      store holds, each exactly once, in whatever order the store chose. */
  predicate ListsAll<R>(order: seq<string>, store: map<string, R>) {
    && Distinct(order)
    && (forall i :: 0 <= i < |order| ==> order[i] in store)
    && (forall id :: id in store ==> id in order)
  }

  lemma DistinctTail<T>(s: seq<T>)
    requires Distinct(s) && s != []
    ensures Distinct(s[1..]) && s[0] !in s[1..]
  {
  }
}
