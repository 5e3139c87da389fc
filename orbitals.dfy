/** The greedy electron-configuration model: seven subshells filled in a fixed
    order, each up to the capacity of its orbital letter. */
module OrbitalFiller {

  /** The subshells of the model, listed in their filling order. */
  datatype Subshell = S1 | S2 | P2 | S3 | P3 | S4 | D3 {
    /** The orbital letter: the last character of the subshell's name. */
    function Letter(): (c: char)
      ensures c in {'s', 'p', 'd'}
    {
      match this
      case S1 | S2 | S3 | S4 => 's'
      case P2 | P3 => 'p'
      case D3 => 'd'
    }
  }

  /** The fixed filling order 1s, 2s, 2p, 3s, 3p, 4s, 3d (3d last, after 4s). */
  const Ordering: seq<Subshell> := [S1, S2, P2, S3, P3, S4, D3]

  /** Maximum number of electrons per orbital letter. */
  function MaxElectrons(letter: char): nat
    requires letter in {'s', 'p', 'd'}
  {
    if letter == 's' then 2 else if letter == 'p' then 6 else 10
  }

  /** Capacity of the subshell at position `i` of the filling order. */
  function Capacity(i: nat): nat
    requires i < |Ordering|
  {
    MaxElectrons(Ordering[i].Letter())
  }

  /** Cumulative capacity of the first `n` subshells. */
  function Cum(n: nat): nat
    requires n <= |Ordering|
  {
    if n == 0 then 0 else Cum(n - 1) + Capacity(n - 1)
  }

  /** The occupation record, one count per subshell, in filling order. */
  datatype Orbitals = Orbitals(ne1s: int, ne2s: int, ne2p: int, ne3s: int,
                               ne3p: int, ne4s: int, ne3d: int)
  {
    function Counts(): (s: seq<int>)
      ensures |s| == |Ordering|
    {
      [ne1s, ne2s, ne2p, ne3s, ne3p, ne4s, ne3d]
    }
  }

  function FromCounts(s: seq<int>): (o: Orbitals)
    requires |s| == |Ordering|
    ensures o.Counts() == s
  {
    Orbitals(s[0], s[1], s[2], s[3], s[4], s[5], s[6])
  }

  /** Sum of the first `n` entries of `s`. */
  function PrefixSum(s: seq<int>, n: nat): int
    requires n <= |s|
  {
    if n == 0 then 0 else PrefixSum(s, n - 1) + s[n - 1]
  }

  function Sum(s: seq<int>): int
  {
    PrefixSum(s, |s|)
  }

  // ---------------------------------------------------------------------------
  // Specification of the greedy fill

  /** Electrons placed in the first `n` subshells when filling for atomic number
      `z`: `min(z, Cum(n))` once at least one subshell has been visited. Before
      any subshell it is 0, which is what makes a negative `z` land in 1s. */
  function Filled(z: int, n: nat): int
    requires n <= |Ordering|
  {
    if n == 0 then 0 else if z < Cum(n) then z else Cum(n)
  }

  /** Occupation of subshell `i`: what the fill adds at that step. */
  function Slot(z: int, i: nat): int
    requires i < |Ordering|
  {
    Filled(z, i + 1) - Filled(z, i)
  }

  /** The seven occupations for atomic number `z`. */
  function Greedy(z: int): (s: seq<int>)
    ensures |s| == |Ordering|
  {
    seq(|Ordering|, i requires 0 <= i < |Ordering| => Slot(z, i))
  }

  function OrbitalsFor(z: int): Orbitals
  {
    FromCounts(Greedy(z))
  }

  // ---------------------------------------------------------------------------
  // The fill as the source performs it: an array updated in place

  /** Fills the subshells in order; each is first given its full capacity and then
      cut back by however much the running total overshoots `z`. */
  method BuildOrbitals(z: int) returns (o: Orbitals)
    ensures o.Counts() == Greedy(z)
  {
    var stable := new int[|Ordering|](_ => 0);
    PrefixSumZeroTail(stable[..], 0, |Ordering|);
    for i := 0 to |Ordering|
      invariant forall k :: 0 <= k < i ==> stable[k] == Slot(z, k)
      invariant forall k :: i <= k < |Ordering| ==> stable[k] == 0
      invariant Sum(stable[..]) == Filled(z, i)
    {
      stable[i] := Capacity(i);
      FilledStep(stable[..], z, i);
      var filled := Sum(stable[..]);
      if filled > z {
        stable[i] := stable[i] + (z - filled);
      }
      FilledStep(stable[..], z, i);
    }
    assert stable[..] == Greedy(z);
    o := FromCounts(stable[..]);
  }

  /** The running total during step `i`: the greedy prefix up to `i`, whatever
      has been written at `i`, and zeros after it. */
  lemma FilledStep(s: seq<int>, z: int, i: nat)
    requires |s| == |Ordering| && i < |Ordering|
    requires forall k :: 0 <= k < i ==> s[k] == Slot(z, k)
    requires forall k :: i < k < |Ordering| ==> s[k] == 0
    ensures Sum(s) == Filled(z, i) + s[i]
  {
    PrefixSumZeroTail(s, i + 1, |s|);
    PrefixSumAgree(s, Greedy(z), i);
    GreedyPrefixSum(z, i);
  }

  // ---------------------------------------------------------------------------
  // Sums

  lemma {:induction false} PrefixSumZeroTail(s: seq<int>, n: nat, m: nat)
    requires n <= m <= |s|
    requires forall k :: n <= k < m ==> s[k] == 0
    ensures PrefixSum(s, m) == PrefixSum(s, n)
  {
    if m > n {
      PrefixSumZeroTail(s, n, m - 1);
    }
  }

  lemma {:induction false} PrefixSumNonnegTail(s: seq<int>, n: nat, m: nat)
    requires n <= m <= |s|
    requires forall k :: n <= k < m ==> s[k] >= 0
    ensures PrefixSum(s, m) >= PrefixSum(s, n)
  {
    if m > n {
      PrefixSumNonnegTail(s, n, m - 1);
    }
  }

  lemma {:induction false} PrefixSumAgree(a: seq<int>, b: seq<int>, n: nat)
    requires n <= |a| && n <= |b|
    requires forall k :: 0 <= k < n ==> a[k] == b[k]
    ensures PrefixSum(a, n) == PrefixSum(b, n)
  {
    if n > 0 {
      PrefixSumAgree(a, b, n - 1);
    }
  }

  /** Occupations within capacity sum to at most the cumulative capacity, and to
      exactly that when every subshell is full. */
  lemma {:induction false} PrefixSumCapped(s: seq<int>, n: nat)
    requires |s| == |Ordering| && n <= |Ordering|
    requires forall k :: 0 <= k < n ==> 0 <= s[k] <= Capacity(k)
    ensures PrefixSum(s, n) <= Cum(n)
    ensures (forall k :: 0 <= k < n ==> s[k] == Capacity(k)) ==> PrefixSum(s, n) == Cum(n)
  {
    if n > 0 {
      PrefixSumCapped(s, n - 1);
    }
  }

  /** The cumulative capacities 0, 2, 4, 10, 12, 18, 20, 30. */
  lemma CumTable()
    ensures Cum(0) == 0 && Cum(1) == 2 && Cum(2) == 4 && Cum(3) == 10
    ensures Cum(4) == 12 && Cum(5) == 18 && Cum(6) == 20 && Cum(7) == 30
  {
  }

  lemma {:induction false} CumMonotone(n: nat, m: nat)
    requires n <= m <= |Ordering|
    ensures Cum(n) <= Cum(m)
  {
    if n < m {
      CumMonotone(n, m - 1);
    }
  }

  // ---------------------------------------------------------------------------
  // Properties of the fill

  /** After the first `n` subshells the running total is `Filled(z, n)`. */
  lemma {:induction false} GreedyPrefixSum(z: int, n: nat)
    requires n <= |Ordering|
    ensures PrefixSum(Greedy(z), n) == Filled(z, n)
  {
    if n > 0 {
      GreedyPrefixSum(z, n - 1);
    }
  }

  /** The occupations add up to `z` as long as `z` fits in the 30 places;
      a larger `z` gives 30, a negative `z` gives `z`. */
  lemma GreedySum(z: int)
    ensures Sum(Greedy(z)) == if z < 30 then z else 30
    ensures 0 <= z <= 30 ==> Sum(Greedy(z)) == z
  {
    GreedyPrefixSum(z, |Ordering|);
    CumTable();
  }

  /** Each step takes as much as fits: the subshell's capacity, or what is still
      missing from `z`, whichever is smaller. */
  lemma GreedyTakesWhatFits(z: int, i: nat)
    requires i < |Ordering|
    ensures Slot(z, i) == if Capacity(i) < z - Filled(z, i) then Capacity(i) else z - Filled(z, i)
  {
    assert Cum(i + 1) == Cum(i) + Capacity(i);
    assert Capacity(i) > 0;
  }

  /** For a non-negative `z` every occupation lies between 0 and its capacity. */
  lemma GreedyWithinCapacity(z: int)
    requires z >= 0
    ensures forall i :: 0 <= i < |Ordering| ==> 0 <= Greedy(z)[i] <= Capacity(i)
  {
    forall i | 0 <= i < |Ordering|
      ensures 0 <= Greedy(z)[i] <= Capacity(i)
    {
      GreedyTakesWhatFits(z, i);
      GreedyPrefixSum(z, i);
    }
  }

  /** Once the subshells before `i` can hold `z` electrons, subshell `i` and all
      later ones stay empty. */
  lemma SlotsAfterFillingPointEmpty(z: int, i: nat, j: nat)
    requires 1 <= i <= j < |Ordering|
    requires Cum(i) >= z
    ensures Slot(z, j) == 0
  {
    CumMonotone(i, j);
    CumMonotone(j, j + 1);
  }

  /** At or above 30 every subshell is full; no error is signalled. */
  lemma GreedyFull(z: int)
    requires z >= 30
    ensures Greedy(z) == [2, 2, 6, 2, 6, 2, 10]
  {
    forall i | 0 <= i < |Ordering|
      ensures Greedy(z)[i] == Capacity(i)
    {
      CumMonotone(i + 1, |Ordering|);
      CumMonotone(i, |Ordering|);
      CumTable();
    }
  }

  /** A negative `z` ends up entirely in 1s. */
  lemma GreedyNegative(z: int)
    requires z < 0
    ensures Greedy(z) == [z, 0, 0, 0, 0, 0, 0]
  {
    forall i | 0 <= i < |Ordering|
      ensures Greedy(z)[i] == if i == 0 then z else 0
    {
      if i > 0 {
        CumMonotone(1, i);
      }
    }
  }

  /** Concrete fills for hydrogen, oxygen and iron. */
  lemma GreedyExamples()
    ensures Greedy(1) == [1, 0, 0, 0, 0, 0, 0]
    ensures Greedy(8) == [2, 2, 4, 0, 0, 0, 0]
    ensures Greedy(26) == [2, 2, 6, 2, 6, 2, 6]
  {
    CumTable();
  }

  // ---------------------------------------------------------------------------
  // An independent description of the result

  /** An Aufbau-shaped configuration: seven occupations within capacity such that
      no subshell holds an electron while an earlier subshell is not full. */
  ghost predicate IsAufbau(v: seq<int>)
  {
    |v| == |Ordering| &&
    (forall k :: 0 <= k < |Ordering| ==> 0 <= v[k] <= Capacity(k)) &&
    (forall j, k :: 0 <= j < k < |Ordering| && v[k] > 0 ==> v[j] == Capacity(j))
  }

  /** For `0 <= z <= 30` the greedy fill is an Aufbau-shaped configuration of `z`
      electrons. */
  lemma GreedyIsAufbau(z: int)
    requires 0 <= z <= 30
    ensures IsAufbau(Greedy(z)) && Sum(Greedy(z)) == z
  {
    GreedySum(z);
    GreedyWithinCapacity(z);
    forall j, k | 0 <= j < k < |Ordering| && Greedy(z)[k] > 0
      ensures Greedy(z)[j] == Capacity(j)
    {
      if k > 0 && Cum(k) >= z {
        SlotsAfterFillingPointEmpty(z, k, k);
      }
      CumMonotone(j + 1, k);
      CumMonotone(j, j + 1);
    }
  }

  /** There is only one Aufbau-shaped configuration per electron count, so the
      greedy fill is it. */
  lemma AufbauUnique(v: seq<int>)
    requires IsAufbau(v)
    ensures v == Greedy(Sum(v))
  {
    var z := Sum(v);
    forall n | 0 <= n <= |Ordering|
      ensures PrefixSum(v, n) == Filled(z, n)
    {
      AufbauPrefix(v, n);
    }
    forall i | 0 <= i < |Ordering|
      ensures v[i] == Greedy(z)[i]
    {
      assert PrefixSum(v, i + 1) == PrefixSum(v, i) + v[i];
    }
  }

  lemma AufbauPrefix(v: seq<int>, n: nat)
    requires IsAufbau(v) && n <= |Ordering|
    ensures PrefixSum(v, n) == Filled(Sum(v), n)
  {
    if n > 0 {
      PrefixSumCapped(v, n);
      PrefixSumNonnegTail(v, n, |v|);
      if exists j :: 0 <= j < n && v[j] != Capacity(j) {
        var j :| 0 <= j < n && v[j] != Capacity(j);
        PrefixSumZeroTail(v, n, |v|);
      }
    }
  }
}
