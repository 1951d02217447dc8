/** gen_random_uuid never repeats: some token is always unused. */
module Tokens {
  type Token = nat

  lemma FreshToken(used: set<Token>)
    ensures exists t: Token :: t !in used
  {
    var t := Above(used);
    assert t !in used;
  }

  ghost function Above(used: set<Token>): (t: Token)
    ensures forall u | u in used :: u < t
  {
    if used == {} then 0 else
      var u :| u in used;
      var t := Above(used - {u});
      assert forall v | v in used :: v == u || v in used - {u};
      if u < t then t else u + 1
  }
}
