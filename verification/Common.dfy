/** Types shared by every component of the model. */
module Common {

  /** A uuid. Identifiers are only ever compared, so any type with equality will do. */
  type Id = nat

  datatype Option<+T> = None | Some(value: T)

  /** The HTTP statuses the services answer with. */
  datatype Status = BadRequest | Forbidden | NotFound | InternalServerError

  datatype Result<+T> = Success(value: T) | Failure(status: Status)

  /** No element occurs twice. */
  ghost predicate Distinct<T(!new)>(s: seq<T>) {
    forall i, j :: 0 <= i < j < |s| ==> s[i] != s[j]
  }

  /** `sMembers`: a missing key is the empty set. */
  function SMembers<K(==)>(sets: map<K, set<Id>>, k: K): set<Id> {
    if k in sets then sets[k] else {}
  }
}
