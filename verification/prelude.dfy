/** Datatypes and arithmetic shared by the whole model. */
module Prelude {

  datatype Option<+T> = None | Some(value: T)

  /** A number of microseconds. All clocks of the model are one clock in this unit. */
  type Micros = int

  const SECOND: Micros := 1_000_000

  function Max(a: int, b: int): int {
    if a >= b then a else b
  }

  function Min(a: int, b: int): int {
    if a <= b then a else b
  }

  function Pow2(n: nat): (p: nat)
    ensures p >= 1
  {
    if n == 0 then 1 else 2 * Pow2(n - 1)
  }

  /** The elements of a sequence, once each. */
  function Elements<T>(s: seq<T>): set<T> {
    set x | x in s
  }

  lemma ElementsMore<T>(s: seq<T>, i: nat)
    requires i < |s|
    ensures Elements(s[..i + 1]) == Elements(s[..i]) + {s[i]}
  {
    assert s[..i + 1] == s[..i] + [s[i]];
  }

  ghost predicate Distinct<T(!new)>(s: seq<T>) {
    forall i, j | 0 <= i < j < |s| :: s[i] != s[j]
  }

  lemma FreshNumber(used: set<nat>) returns (n: nat)
    ensures n !in used
  {
    n := 0;
    var rest := used;
    while n in rest
      invariant forall k | k in used && k !in rest :: k < n
      decreases rest
    {
      ghost var was := rest;
      rest := set k | k in rest && k > n;
      assert n in was && n !in rest && rest <= was;
      n := n + 1;
    }
  }
}
