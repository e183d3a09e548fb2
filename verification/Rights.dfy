/** What a capability permits. The five bits of the packed word are modelled as a set of
    flags; `ContainsIsMaskTest` and `UnionAndIntersectionAreBitwise` show that the set and the
    word agree. */
module Rights {
  datatype Right = READ | WRITE | EXECUTE | GRANT | DESTROY

  const NONE: set<Right> := {}
  const ALL: set<Right> := {READ, WRITE, EXECUTE, GRANT, DESTROY}

  /** Rights a fresh channel or memory region is created with. */
  const OWNER: set<Right> := {READ, WRITE, GRANT, DESTROY}

  /** The packed word with the given bits set, READ lowest. */
  function Word(r: bool, w: bool, x: bool, g: bool, d: bool): bv32 {
    (if r then 1 else 0) | (if w then 2 else 0) | (if x then 4 else 0) | (if g then 8 else 0) | (if d then 16 else 0)
  }

  function Bits(s: set<Right>): bv32 {
    Word(READ in s, WRITE in s, EXECUTE in s, GRANT in s, DESTROY in s)
  }

  predicate Contains(held: set<Right>, required: set<Right>) {
    required <= held
  }

  lemma WordOps(a: bool, b: bool, c: bool, d: bool, e: bool, a': bool, b': bool, c': bool, d': bool, e': bool)
    ensures Word(a, b, c, d, e) & Word(a', b', c', d', e') == Word(a && a', b && b', c && c', d && d', e && e')
    ensures Word(a, b, c, d, e) | Word(a', b', c', d', e') == Word(a || a', b || b', c || c', d || d', e || e')
    ensures Word(a, b, c, d, e) == Word(a', b', c', d', e') <==> a == a' && b == b' && c == c' && d == d' && e == e'
  {
  }

  lemma SameMembers(a: set<Right>, b: set<Right>)
    requires READ in a <==> READ in b
    requires WRITE in a <==> WRITE in b
    requires EXECUTE in a <==> EXECUTE in b
    requires GRANT in a <==> GRANT in b
    requires DESTROY in a <==> DESTROY in b
    ensures a == b
  {
    forall r: Right ensures r in a <==> r in b {
      match r case READ => case WRITE => case EXECUTE => case GRANT => case DESTROY =>
    }
  }

  /** The union and the intersection of two sets are the bitwise operations on their words. */
  lemma UnionAndIntersectionAreBitwise(a: set<Right>, b: set<Right>)
    ensures Bits(a + b) == Bits(a) | Bits(b)
    ensures Bits(a * b) == Bits(a) & Bits(b)
  {
    WordOps(READ in a, WRITE in a, EXECUTE in a, GRANT in a, DESTROY in a,
            READ in b, WRITE in b, EXECUTE in b, GRANT in b, DESTROY in b);
  }

  /** Containment is the mask test, and two rights with the same word are the same rights. */
  lemma ContainsIsMaskTest(held: set<Right>, required: set<Right>)
    ensures Contains(held, required) <==> Bits(held) & Bits(required) == Bits(required)
    ensures Bits(held) == Bits(required) <==> held == required
  {
    UnionAndIntersectionAreBitwise(held, required);
    WordOps(READ in held * required, WRITE in held * required, EXECUTE in held * required,
            GRANT in held * required, DESTROY in held * required,
            READ in required, WRITE in required, EXECUTE in required, GRANT in required, DESTROY in required);
    WordOps(READ in held, WRITE in held, EXECUTE in held, GRANT in held, DESTROY in held,
            READ in required, WRITE in required, EXECUTE in required, GRANT in required, DESTROY in required);
    if Bits(held * required) == Bits(required) {
      SameMembers(held * required, required);
    }
    if Contains(held, required) {
      assert held * required == required;
    }
    if Bits(held) == Bits(required) {
      SameMembers(held, required);
    }
  }
}
