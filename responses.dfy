/** Vocabulary shared by the five contract mocks: identities, the
    ok/err response every public contract function returns, and the pair of
    "new state and response" that a transition produces. */
module Responses {

  /** A Clarity principal. Identities are only ever compared for equality. */
  type Principal = string

  /** A contract response: `ok` with a value, or `err` with a numeric code. */
  datatype Response<T> = Ok(value: T) | Err(code: nat)

  datatype Option<T> = None | Some(value: T)

  /** What one contract call leaves behind: the new state and the response. */
  datatype Reply<S, T> = Reply(state: S, outcome: Response<T>)

  /** `m'` agrees with `m` on every key other than `k` (presence and value). */
  ghost predicate SameOutside<K(!new), V>(m: map<K, V>, m': map<K, V>, k: K)
  {
    forall j :: j != k ==> (j in m <==> j in m') && (j in m ==> m'[j] == m[j])
  }
}
