/** Resource ids: a counter scrambled by a 64-bit mixer, skipping zero. */
module Ids {
  import opened Common
  import opened Words

  const TWO_64 := U64_MAX + 1
  const MUL_A := 0xBF58_476D_1CE4_E5B9
  const MUL_B := 0x94D0_49BB_1331_11EB

  /** Xor-shift, then multiply with 64-bit wrap-around. */
  function Stir(z: U64, shift: nat, m: nat): U64 {
    XorShift(z, shift) * m % TWO_64
  }

  function Mixed(z: U64): nat {
    XorShift(Stir(Stir(z, 30, MUL_A), 27, MUL_B), 31)
  }

  function HashedId(seed: U64, counter: U64): nat {
    Mixed((seed + counter) % TWO_64)
  }

  /** Multiply by the inverse, then undo the xor-shift. */
  function Unstir(v: nat, shift: nat, inverse: nat): nat
    requires shift > 0
  {
    Unshift(v * inverse % TWO_64, shift)
  }

  lemma StirBack(z: U64, shift: nat, m: nat, inverse: nat, k: nat)
    requires shift > 0 && m * inverse == 1 + k * TWO_64
    ensures Unstir(Stir(z, shift, m), shift, inverse) == z
  {
    Widths();
    XorShiftFits(z, shift, 64);
    MulUndo(XorShift(z, shift), m, inverse, k, TWO_64);
    XorShiftBack(z, shift);
  }

  /** The sum of seed and counter that an id was made from. */
  function Unmixed(id: nat): nat {
    Unstir(Unstir(Unshift(id, 31), 27, 0x3196_42B2_D24D_8EC3), 30, 0x96DE_1B17_3F11_9089)
  }

  lemma MixedBack(z: U64)
    ensures Unmixed(Mixed(z)) == z
  {
    var u := Stir(z, 30, MUL_A);
    XorShiftBack(Stir(u, 27, MUL_B), 31);
    StirBack(u, 27, MUL_B, 0x3196_42B2_D24D_8EC3, 0x1CD3_36ED_A85F_1453);
    StirBack(z, 30, MUL_A, 0x96DE_1B17_3F11_9089, 0x70C3_BCA7_8F27_F46C);
  }

  /** With the seed, the counter comes back from the id. */
  lemma IdRoundTrip(seed: U64, counter: U64)
    ensures (Unmixed(HashedId(seed, counter)) + TWO_64 - seed) % TWO_64 == counter
  {
    MixedBack((seed + counter) % TWO_64);
    SumBack(seed, counter, (seed + counter) % TWO_64);
  }

  lemma SumBack(a: U64, b: U64, sum: nat)
    requires sum == (a + b) % TWO_64
    ensures (sum + TWO_64 - a) % TWO_64 == b
  {
    if a + b < TWO_64 {
      assert sum + TWO_64 - a == b + TWO_64;
    } else {
      assert sum + TWO_64 - a == b;
    }
  }

  lemma AddInjective(seed: U64, a: U64, b: U64)
    requires (seed + a) % TWO_64 == (seed + b) % TWO_64
    ensures a == b
  {
  }

  /** Two sources of ids meet exactly where seed and counter have the same sum. */
  lemma SeedsExactly(s: U64, a: U64, t: U64, b: U64)
    ensures HashedId(s, a) == HashedId(t, b) <==> (s + a) % TWO_64 == (t + b) % TWO_64
  {
    MixedBack((s + a) % TWO_64);
    MixedBack((t + b) % TWO_64);
  }

  /** Distinct counters give distinct ids, over all 64-bit counters. */
  lemma HashedIdInjective(seed: U64, a: U64, b: U64)
    ensures HashedId(seed, a) == HashedId(seed, b) ==> a == b
  {
    if HashedId(seed, a) == HashedId(seed, b) {
      SeedsExactly(seed, a, seed, b);
      AddInjective(seed, a, b);
    }
  }

  /** The id that is skipped comes from one counter: the one that brings the seed to zero. */
  lemma ZeroExactly(seed: U64, counter: U64)
    ensures HashedId(seed, counter) == 0 <==> (seed + counter) % TWO_64 == 0
  {
    ShrZero(30);
    ShrZero(27);
    ShrZero(31);
    assert HashedId(0, 0) == 0;
    SeedsExactly(seed, counter, 0, 0);
  }

  lemma HashedIdFits(seed: U64, counter: U64)
    ensures HashedId(seed, counter) <= U64_MAX
  {
    Widths();
    XorShiftFits(Stir(Stir((seed + counter) % TWO_64, 30, MUL_A), 27, MUL_B), 31, 64);
  }

  /** Wrapping increment. */
  function Next(counter: U64): U64 {
    if counter == U64_MAX then 0 else counter + 1
  }

  /** The id came from a counter below this one. */
  ghost predicate Passed(seed: U64, counter: U64, id: nat) {
    exists c: U64 :: c < counter && HashedId(seed, c) == id
  }

  /** An id drawn later is not among those passed. */
  lemma DrawnIsFresh(seed: U64, counter: U64, drawn: U64)
    requires counter <= drawn
    ensures !Passed(seed, counter, HashedId(seed, drawn))
  {
    forall c: U64 | c < counter ensures HashedId(seed, c) != HashedId(seed, drawn) {
      HashedIdInjective(seed, c, drawn);
    }
  }

  /** Two counters in a row never both give zero. */
  lemma OneRetry(seed: U64, counter: U64)
    ensures HashedId(seed, counter) == 0 ==> HashedId(seed, Next(counter)) != 0
  {
    HashedIdInjective(seed, counter, Next(counter));
  }

  /** One of the registry's two id counters. */
  class IdCounter {
    const seed: U64
    var counter: U64
    ghost var issued: set<nat>   // history
    ghost var wrapped: bool      // history: the counter came back to zero

    /** Until the counter wraps, every issued id came from a counter already passed. */
    ghost predicate Valid()
      reads this
    {
      !wrapped ==> forall id | id in issued :: Passed(seed, counter, id)
    }

    constructor (seed: U64)
      ensures Valid() && this.seed == seed && counter == 0 && issued == {} && !wrapped
    {
      this.seed, counter, issued, wrapped := seed, 0, {}, false;
    }

    /** One atomic fetch-and-add. */
    method Draw() returns (id: nat)
      modifies this`counter, this`wrapped
      ensures id == HashedId(seed, old(counter)) && id <= U64_MAX
      ensures counter == Next(old(counter)) && (wrapped <==> old(wrapped) || counter == 0)
    {
      id := HashedId(seed, counter);
      HashedIdFits(seed, counter);
      counter := Next(counter);
      wrapped := wrapped || counter == 0;
    }

    /**
     `next_local_id` and `next_shared_id`: at most one retry, and fresh until an
     id is drawn from a counter that has wrapped.
     */
    method NextId() returns (id: nat)
      requires Valid()
      modifies this`counter, this`issued, this`wrapped
      ensures Valid() && issued == old(issued) + {id}
      ensures 0 < id <= U64_MAX
      ensures counter == Next(old(counter))
              || (HashedId(seed, old(counter)) == 0 && counter == Next(Next(old(counter))))
      ensures wrapped <==> old(wrapped) || counter < old(counter)
      ensures !old(wrapped) && (HashedId(seed, old(counter)) != 0 || old(counter) < U64_MAX) ==> id !in old(issued)
    {
      ghost var tries := 0;
      ghost var drawn: U64 := counter;
      id := Draw();
      while id == 0
        invariant tries <= 1 && issued == old(issued) && id <= U64_MAX && id == HashedId(seed, drawn)
        invariant drawn == if tries == 0 then old(counter) else Next(old(counter))
        invariant drawn >= old(counter) || (tries == 1 && old(counter) == U64_MAX)
        invariant counter == Next(drawn) && (tries == 1 ==> HashedId(seed, old(counter)) == 0)
        invariant wrapped <==> old(wrapped) || counter < old(counter)
        decreases 1 - tries
      {
        if tries == 1 {
          OneRetry(seed, old(counter));
        }
        drawn := counter;
        id := Draw();
        tries := tries + 1;
      }
      if !old(wrapped) {
        FreshId(seed, old(counter), drawn, old(issued));
        if !wrapped {
          IssuedLater(seed, old(counter), counter, old(issued));
        }
      }
      issued := issued + {id};
    }
  }

  lemma FreshId(seed: U64, before: U64, drawn: U64, ids: set<nat>)
    requires forall id | id in ids :: Passed(seed, before, id)
    ensures before <= drawn ==> HashedId(seed, drawn) !in ids
  {
    if before <= drawn {
      DrawnIsFresh(seed, before, drawn);
    }
  }

  lemma IssuedLater(seed: U64, before: U64, after: U64, ids: set<nat>)
    requires before <= after && forall id | id in ids :: Passed(seed, before, id)
    ensures forall id | id in ids :: Passed(seed, after, id)
  {
  }
}
