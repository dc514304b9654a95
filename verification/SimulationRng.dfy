/** Rejection sampling in the simulation's random source. */
module SimulationRng {
  import opened Money
  import opened FiniteSets

  const MAX_WORD: int := 0xffff_ffff_ffff_ffff

  /** Draws at or above this are rejected. */
  function Limit(bound: int): int
    requires bound > 0
  {
    MAX_WORD - MAX_WORD % bound
  }

  /** The first accepted word of a stream, or its length. */
  function FirstAccepted(words: seq<int>, bound: int): (i: nat)
    requires bound > 0
    ensures i <= |words|
    ensures i < |words| ==> words[i] < Limit(bound)
    ensures forall j :: 0 <= j < i ==> words[j] >= Limit(bound)
  {
    if words == [] || words[0] < Limit(bound) then 0 else 1 + FirstAccepted(words[1..], bound)
  }

  /** The generator as a stream of 64-bit words still to come. */
  class SimulationRng {
    var words: seq<int>

    constructor (stream: seq<int>)
      ensures words == stream
    {
      words := stream;
    }

    /** Draws words until one is below the limit; only a stream that ends first yields nothing. */
    method Intn(n: int) returns (r: Result<int>)
      requires forall i :: 0 <= i < |words| ==> 0 <= words[i] <= MAX_WORD
      modifies this
      ensures n <= 0 ==> r == Err(RandomFailed) && words == old(words)
      ensures n > 0 ==>
                var i := FirstAccepted(old(words), n);
                if i < |old(words)| then r == Ok(old(words)[i] % n) && 0 <= r.value < n && words == old(words)[i + 1..]
                else r == Err(RandomFailed) && words == []
    {
      if n <= 0 {
        return Err(RandomFailed);
      }
      var limit := Limit(n);
      ghost var skipped: nat := 0;
      while words != []
        invariant skipped <= |old(words)| && words == old(words)[skipped..]
        invariant FirstAccepted(old(words), n) == skipped + FirstAccepted(words, n)
        decreases |words|
      {
        var value := words[0];
        words := words[1..];
        if value < limit {
          return Ok(value % n);
        }
        skipped := skipped + 1;
      }
      return Err(RandomFailed);
    }
  }

  /** The accepted words that yield r. */
  ghost function WordsFor(limit: int, bound: int, r: int): set<int>
    requires bound > 0
  {
    set w | 0 <= w < limit && w % bound == r
  }

  lemma {:induction false} ResidueCount(bound: int, r: int, groups: nat)
    requires 0 <= r < bound
    ensures |WordsFor(groups * bound, bound, r)| == groups
  {
    if groups == 0 {
      assert WordsFor(0 * bound, bound, r) == {};
    } else {
      ResidueCount(bound, r, groups - 1);
      var last := (groups - 1) * bound + r;
      GroupBounds(bound, groups);
      OneInGroup(bound, groups - 1, last, r);
      forall w
        ensures w in WordsFor(groups * bound, bound, r) <==> w in WordsFor((groups - 1) * bound, bound, r) + {last}
      {
        if (groups - 1) * bound <= w < groups * bound {
          OneInGroup(bound, groups - 1, w, r);
        }
      }
      assert WordsFor(groups * bound, bound, r) == WordsFor((groups - 1) * bound, bound, r) + {last};
    }
  }

  lemma GroupBounds(bound: int, groups: nat)
    requires groups > 0 && bound > 0
    ensures groups * bound == (groups - 1) * bound + bound && 0 <= (groups - 1) * bound
  {
    MulMonotone(0, groups - 1, bound);
  }

  /** A group of consecutive words, as long as the bound, holds each residue once. */
  lemma OneInGroup(bound: int, q: nat, w: int, r: int)
    requires 0 <= r < bound && q * bound <= w < q * bound + bound
    ensures w % bound == r <==> w == q * bound + r
  {
    var rest := w - q * bound;
    Remainder(bound, q, rest);
  }

  lemma Remainder(bound: int, q: nat, rest: int)
    requires 0 <= rest < bound
    ensures (q * bound + rest) % bound == rest
  {
    var w := q * bound + rest;
    assert w == (w / bound) * bound + w % bound;
    assert (w / bound - q) * bound == rest - w % bound;
    if w / bound > q {
      MulMonotone(1, w / bound - q, bound);
    } else if w / bound < q {
      MulMonotone(w / bound - q, -1, bound);
    }
  }

  /** Rejection sampling is exact: every residue is produced by equally many of the accepted 64-bit words, and fewer words
      than the bound are rejected. */
  lemma EqualChances(bound: int, r: int)
    requires 0 <= r < bound <= MAX_INT64
    ensures |WordsFor(Limit(bound), bound, r)| == MAX_WORD / bound >= 1
    ensures Limit(bound) == (MAX_WORD / bound) * bound && MAX_WORD - bound < Limit(bound) <= MAX_WORD
  {
    assert MAX_WORD == (MAX_WORD / bound) * bound + MAX_WORD % bound;
    ResidueCount(bound, r, MAX_WORD / bound);
  }
}
