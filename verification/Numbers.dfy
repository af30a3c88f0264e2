/** Unused numbers. */
module Numbers {
  lemma {:induction false} Above(used: set<nat>) returns (bound: nat)
    ensures forall p | p in used :: p < bound
  {
    if used == {} {
      bound := 0;
    } else {
      var p :| p in used;
      var rest := Above(used - {p});
      bound := if rest > p then rest else p + 1;
      forall q | q in used ensures q < bound {
        assert q == p || q in used - {p};
      }
    }
  }
}
