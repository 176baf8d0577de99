/** Shared vocabulary. */
module Common {
  /** A value that may be absent: `null` in the services. */
  datatype Option<+T> = None | Some(value: T)

  /** User ids are UUIDs, compared for equality and order only. */
  type UserId = nat

  /** Ids never run out: there is always one at or above `from` and above all those in use. */
  lemma {:induction false} SomeIdIsUnused(used: set<nat>, from: nat) returns (id: nat)
    ensures id >= from && forall n | n in used :: n < id
  {
    if used == {} {
      id := from;
    } else {
      var k :| k in used;
      var bound := SomeIdIsUnused(used - {k}, from);
      id := if k < bound then bound else k + 1;
      assert forall n | n in used :: n == k || n in used - {k};
    }
  }

  lemma TimesMonotone(k: nat, n: nat, m: nat)
    requires n <= m
    ensures k * n <= k * m
  {
  }

  lemma TimesOneMore(k: nat, n: nat)
    ensures k * (n + 1) == k * n + k
  {
  }
}
