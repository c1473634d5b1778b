/** Residues modulo a number, the small groups which show that the laws asked of the primitives can be met. */
module Residues {
  const Q: nat := 251

  function Residue(p: nat, s: nat): nat {
    (p * s) % Q
  }

  lemma ModMultiple(m: nat, x: nat)
    ensures (Q * m + x) % Q == x % Q
  {
  }

  /** A factor may be reduced first. */
  lemma ResidueTimes(a: nat, b: nat)
    ensures Residue(a % Q, b) == Residue(a, b)
    ensures a * b == b * a
  {
    var k, r := a / Q, a % Q;
    assert a * b == Q * (k * b) + r * b;
    ModMultiple(k * b, r * b);
  }
}
