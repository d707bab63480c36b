/** Types shared by all the models. */
module Common {

  /** The message type. No model ever looks inside a message. */
  type Msg(==, !new)

  /** A definition under `forall k :: Unfold(k) ==> ...` stays folded in a proof
      until the proof mentions `Unfold(0)`. */
  predicate Unfold(k: int) { true }

  datatype Option<+T> = None | Some(value: T)

  function ListOf<T>(o: Option<T>): seq<T> { if o.Some? then [o.value] else [] }

  /** What was taken is what was returned and a debt; a step that keeps the balance of the debt keeps that. */
  lemma Balance<T>(taken: seq<T>, returned: seq<T>, debt: seq<T>, takes: seq<T>, paid: seq<T>, debt': seq<T>)
    requires taken == returned + debt && debt + takes == paid + debt'
    ensures taken + takes == returned + paid + debt'
  {
    assert returned + debt + takes == returned + (debt + takes);
    assert returned + (paid + debt') == returned + paid + debt';
  }

  /** Step `k` of an account: what is taken, what is paid, and the debt that is left. */
  predicate Settled<T(==)>(taken: seq<seq<T>>, returned: seq<seq<T>>, debt: seq<seq<T>>, takes: seq<seq<T>>, paid: seq<seq<T>>, k: nat) {
    && k < |takes| && k < |paid| && k + 1 < |taken| && k + 1 < |returned| && k + 1 < |debt|
    && taken[k + 1] == taken[k] + takes[k] && returned[k + 1] == returned[k] + paid[k]
    && debt[k] + takes[k] == paid[k] + debt[k + 1]
  }

  /** An account that is settled step by step is settled. */
  lemma {:induction false} AddUp<T>(
      taken: seq<seq<T>>, returned: seq<seq<T>>, debt: seq<seq<T>>, takes: seq<seq<T>>, paid: seq<seq<T>>, n: nat)
    requires n < |taken| && n < |returned| && n < |debt| && taken[0] == returned[0] == debt[0] == []
    requires forall k :: 0 <= k < n ==> Settled(taken, returned, debt, takes, paid, k)
    ensures taken[n] == returned[n] + debt[n]
  {
    if n > 0 {
      AddUp(taken, returned, debt, takes, paid, n - 1);
      assert Settled(taken, returned, debt, takes, paid, n - 1);
      Balance(taken[n - 1], returned[n - 1], debt[n - 1], takes[n - 1], paid[n - 1], debt[n]);
    }
  }
}
