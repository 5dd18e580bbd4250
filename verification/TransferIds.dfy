/** The per-reactor transfer identifiers. */
module TransferIds {
  import opened Messages
  import opened Words

  const MAX_WORD: nat := WORD - 1

  /** The atomic update of newTransferId: the new counter, and the identifier or the exhausted answer. */
  datatype Issue = Issue(next: nat, id: Option<nat>)

  function NewId(current: nat): Issue {
    if current == MAX_WORD then Issue(current, None) else Issue(current + 1, Some(current + 1))
  }

  /** The counter after n calls, from any threads in any order. */
  function After(n: nat): nat {
    if n == 0 then 0 else NewId(After(n - 1)).next
  }

  /** What the call number k answers, counting from zero. */
  function Answer(k: nat): Option<nat> {
    NewId(After(k)).id
  }

  lemma {:induction false} AfterCounts(n: nat)
    ensures After(n) == if n <= MAX_WORD then n else MAX_WORD
  {
    if n > 0 {
      AfterCounts(n - 1);
    }
  }

  /** Identifiers are never zero, never repeat and never wrap: a call fails exactly when all 2^64 - 1 have been
      issued. */
  lemma IdsNeverRepeat(i: nat, j: nat)
    requires i < j
    ensures Answer(i).Some? <==> i < MAX_WORD
    ensures Answer(i).Some? ==> 0 < Answer(i).value < WORD
    ensures Answer(i).Some? && Answer(j).Some? ==> Answer(i).value < Answer(j).value
  {
    AfterCounts(i);
    AfterCounts(j);
  }

  class IdCounter {
    var nextId: nat

    constructor ()
      ensures nextId == After(0)
    {
      nextId := 0;
    }

    method NewTransferId(ghost n: nat) returns (id: Option<nat>)
      requires nextId == After(n)
      modifies this
      ensures nextId == After(n + 1) && id == Answer(n)
    {
      if nextId == MAX_WORD {
        id := None;
      } else {
        nextId := nextId + 1;
        id := Some(nextId);
      }
    }
  }
}
