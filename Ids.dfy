/** The identity source. Every entity of the system draws a random UUID at
    construction; here the monitor draws identifiers from a counter instead,
    so that uniqueness is a fact that can be proved rather than a
    probability. The `n`-th identifier is `n + 1` copies of one character:
    only its length carries information. */
module Ids {
  import opened Common
  import opened Text

  /** The identifier handed out when the counter reads `n`. */
  function Mint(n: nat): (id: Id)
    ensures |id| == n + 1
    ensures !IsBlank(id)
  {
    var id := if n == 0 then "#" else Mint(n - 1) + "#";
    assert id[n] == '#';
    id
  }

  /** An identifier that is at most `n` long was not handed out at or after
      counter value `n`. */
  predicate DrawnBefore(id: Id, n: nat)
  {
    |id| <= n
  }

  /** Distinct counter values give distinct identifiers. */
  lemma MintInjective(m: nat, n: nat)
    ensures Mint(m) == Mint(n) <==> m == n
  {
  }

  /** An identifier handed out at `n` is drawn before `n + 1` but not before `n`. */
  lemma MintDrawn(n: nat)
    ensures DrawnBefore(Mint(n), n + 1) && !DrawnBefore(Mint(n), n)
  {
  }

  /** An identifier drawn before `m` is still drawn before `m + 1`, and is
      not the one handed out at `m`. */
  lemma DrawnBeforeKept(id: Id, m: nat)
    requires DrawnBefore(id, m)
    ensures DrawnBefore(id, m + 1) && id != Mint(m)
  {
  }
}
