/** Per-subshell momentum densities, kept as the choice of formula and its scale
    rather than as real-valued functions. */
module Wavefunctions {
  import opened Wrappers
  import opened Constants
  import opened OrbitalFiller

  /** The density attached to one subshell: the identically-zero function, or the
      hydrogen-like formula of `shell` with scale `mu`. */
  datatype Wavefunction = Zero | Hydrogenic(shell: Subshell, mu: real)

  /** One density per subshell, in filling order. */
  datatype Wavefunctions = Wavefunctions(f1s: Wavefunction, f2s: Wavefunction,
                                         f2p: Wavefunction, f3s: Wavefunction,
                                         f3p: Wavefunction, f4s: Wavefunction,
                                         f3d: Wavefunction)
  {
    function Densities(): (s: seq<Wavefunction>)
      ensures |s| == |Ordering|
    {
      [f1s, f2s, f2p, f3s, f3p, f4s, f3d]
    }
  }

  function FromDensities(s: seq<Wavefunction>): (w: Wavefunctions)
    requires |s| == |Ordering|
    ensures w.Densities() == s
  {
    Wavefunctions(s[0], s[1], s[2], s[3], s[4], s[5], s[6])
  }

  /** Building the record fails when fewer than seven parameters are given. */
  datatype BuildError = MissingArguments

  /** The density for the subshell `shell` with effective-charge parameter `xi`:
      a parameter that is not positive selects the zero function; a positive one
      selects the subshell's own formula with a positive scale `mu` such that
      `mu * A0 == xi`. */
  function Dispatch(shell: Subshell, xi: real): (w: Wavefunction)
    ensures w == Zero <==> !(xi > 0.0)
    ensures xi > 0.0 ==> w.shell == shell && w.mu > 0.0 && w.mu * A0 == xi
  {
    if xi > 0.0 then
      var mu := xi / A0;
      assert mu * A0 == xi;
      Hydrogenic(shell, mu)
    else Zero
  }

  /** Pairs the seven subshell formulas with the parameters in order; parameters
      beyond the seventh are ignored. */
  function BuildWfs(args: seq<real>): (r: Result<Wavefunctions, BuildError>)
    ensures r.Ok? <==> |args| >= |Ordering|
    ensures r.Ok? ==> forall i :: 0 <= i < |Ordering| ==>
      (r.value.Densities()[i] == Zero <==> !(args[i] > 0.0))
    ensures r.Ok? ==> forall i :: 0 <= i < |Ordering| && args[i] > 0.0 ==>
      r.value.Densities()[i] == Hydrogenic(Ordering[i], args[i] / A0)
  {
    if |args| < |Ordering| then Err(MissingArguments)
    else
      var ws := seq(|Ordering|, i requires 0 <= i < |Ordering| => Dispatch(Ordering[i], args[i]));
      DispatchEach(args, ws);
      Ok(FromDensities(ws))
  }

  lemma DispatchEach(xis: seq<real>, ws: seq<Wavefunction>)
    requires |xis| >= |Ordering| && |ws| == |Ordering|
    requires forall i :: 0 <= i < |Ordering| ==> ws[i] == Dispatch(Ordering[i], xis[i])
    ensures forall i :: 0 <= i < |Ordering| ==> (ws[i] == Zero <==> !(xis[i] > 0.0))
    ensures forall i :: 0 <= i < |Ordering| && xis[i] > 0.0 ==>
      ws[i] == Hydrogenic(Ordering[i], xis[i] / A0)
  {
  }

  /** The effective-charge parameter a density stands for (0 for the zero
      function). */
  function Xi(w: Wavefunction): real
  {
    match w
    case Zero => 0.0
    case Hydrogenic(_, mu) => mu * A0
  }

  /** Dispatch keeps the parameter: reading it back gives `xi`, or 0 when `xi`
      was not positive. */
  lemma XiOfDispatch(shell: Subshell, xi: real)
    ensures Xi(Dispatch(shell, xi)) == if xi > 0.0 then xi else 0.0
  {
  }
}
