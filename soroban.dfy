/** Vocabulary shared by the contract models: addresses, what an invocation can
    observe of its host environment, how an entry point ends, and the storage
    helpers (reads with a default, sums over a keyed store) the contracts use. */
module Soroban {

  /** A Stellar account or contract address; only equality matters here. */
  type Address = string

  datatype Option<+T> = None | Some(value: T) {
    function GetOr(default: T): T {
      match this
      case Some(v) => v
      case None => default
    }
  }

  /** The part of a contract invocation's host that the contracts consult:
      the addresses whose `require_auth` succeeds in this invocation, whether
      the token transfers the invocation makes go through, and the ledger
      timestamp. */
  datatype Env = Env(signers: set<Address>, transfersSucceed: bool, timestamp: nat)

  /** Why an invocation aborted. An aborted invocation changes no storage. */
  datatype Failure =
    | Panic(message: string)        // panic!, expect or assert! with the contract's message
    | MissingKey(key: string)       // unwrap() of a storage key that was never written
    | Unauthorized(who: Address)    // require_auth() of an address that did not sign
    | TransferFailed                // the token contract refused the transfer

  datatype Outcome<+T> = Ok(value: T) | Err(failure: Failure)

  /** `require_auth`: the invocation goes on only if `who` signed it. */
  predicate Authorized(env: Env, who: Address) {
    who in env.signers
  }

  /** A storage read `get(key).unwrap_or(default)`. */
  function GetOr<K, V>(m: map<K, V>, k: K, default: V): (v: V)
    ensures k in m ==> v == m[k]
    ensures k !in m ==> v == default
  {
    if k in m then m[k] else default
  }

  /** The sum of all values stored under a family of keys. */
  ghost function Sum<K>(m: map<K, int>): int
    decreases |m|
  {
    if m == map[] then 0
    else
      var k :| k in m;
      m[k] + Sum(m - {k})
  }

  /** The sum does not depend on which key is taken out first. */
  lemma {:induction false} SumRemove<K>(m: map<K, int>, k: K)
    requires k in m
    ensures Sum(m) == m[k] + Sum(m - {k})
    decreases |m|
  {
    var j :| j in m && Sum(m) == m[j] + Sum(m - {j});
    if j != k {
      var mj, mk := m - {j}, m - {k};
      assert |mj| < |m| && k in mj;
      SumRemove(mj, k);
      assert |mk| < |m| && j in mk;
      SumRemove(mk, j);
      assert mj - {k} == mk - {j};
    }
  }

  /** Writing `v` under key `k` changes the sum by `v` minus what was read
      there with default 0. */
  lemma SumUpdate<K>(m: map<K, int>, k: K, v: int)
    ensures Sum(m[k := v]) == Sum(m) - GetOr(m, k, 0) + v
  {
    var m' := m[k := v];
    SumRemove(m', k);
    if k in m {
      SumRemove(m, k);
      assert m' - {k} == m - {k};
    } else {
      assert m' - {k} == m;
    }
  }

  /** The ids 1..n handed out by a counter that has reached n. */
  function Ids(n: nat): (s: set<nat>)
    ensures forall i :: i in s <==> 1 <= i <= n
  {
    if n == 0 then {} else Ids(n - 1) + {n}
  }

  /** A counter that has reached n has handed out exactly n ids. */
  lemma {:induction false} IdsCount(n: nat)
    ensures |Ids(n)| == n
  {
    if n > 0 {
      IdsCount(n - 1);
      assert n !in Ids(n - 1);
    }
  }
}
