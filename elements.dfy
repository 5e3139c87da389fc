/** The fixed table of six elements and the lookup that the Doppler-broadened
    cross section performs before integrating. */
module Elements {
  import opened Wrappers
  import opened OrbitalFiller
  import opened Wavefunctions

  /** An element: its subshell occupations and their densities. */
  datatype Element = Element(orbitals: Orbitals, wavefunctions: Wavefunctions)

  /** The elements of the table, in table order. */
  datatype Symbol = H | O | Mg | Si | Ca | Fe

  datatype LookupError = UnknownElement(name: string)

  function Name(s: Symbol): string
  {
    match s
    case H => "H"
    case O => "O"
    case Mg => "Mg"
    case Si => "Si"
    case Ca => "Ca"
    case Fe => "Fe"
  }

  /** The atomic number each table entry is built from; every one fits in the 30
      places of the seven subshells. */
  function AtomicNumber(s: Symbol): (z: nat)
    ensures 0 < z <= 30
  {
    match s
    case H => 1
    case O => 8
    case Mg => 12
    case Si => 14
    case Ca => 20
    case Fe => 26
  }

  /** The effective-charge parameters of 1s, 2s, 2p, 3s, 3p, 4s, 3d: seven of
      them, none negative, with 1s always screened by a positive parameter. */
  function Parameters(s: Symbol): (xis: seq<real>)
    ensures |xis| == |Ordering| && xis[0] > 0.0
    ensures forall i :: 0 <= i < |xis| ==> xis[i] >= 0.0
  {
    match s
    case H => [1.0, 0.0, 0.0, 0.0, 0.0, 0.0, 0.0]
    case O => [7.66, 2.25, 2.23, 0.0, 0.0, 0.0, 0.0]
    case Mg => [11.6, 3.7, 3.0, 1.1, 0.0, 0.0, 0.0]
    case Si => [13.6, 4.5, 5.0, 1.6, 1.4, 0.0, 0.0]
    case Ca => [19.5, 6.9, 8.0, 3.2, 2.9, 1.1, 0.0]
    case Fe => [25.4, 9.3, 11.0, 4.6, 4.3, 1.4, 3.7]
  }

  /** The table entry: occupations from the greedy fill of the atomic number,
      densities from the parameters. */
  function ElementOf(s: Symbol): (e: Element)
    ensures Sum(e.orbitals.Counts()) == AtomicNumber(s)
    ensures IsAufbau(e.orbitals.Counts())
  {
    GreedyIsAufbau(AtomicNumber(s));
    Element(OrbitalsFor(AtomicNumber(s)), BuildWfs(Parameters(s)).value)
  }

  /** The symbol a name denotes, if any. */
  function SymbolOf(name: string): (r: Option<Symbol>)
    ensures r.Some? ==> Name(r.value) == name
    ensures r.None? ==> forall s: Symbol :: Name(s) != name
  {
    if name == "H" then Some(H)
    else if name == "O" then Some(O)
    else if name == "Mg" then Some(Mg)
    else if name == "Si" then Some(Si)
    else if name == "Ca" then Some(Ca)
    else if name == "Fe" then Some(Fe)
    else None
  }

  /** Different symbols have different names. */
  lemma NameInjective(a: Symbol, b: Symbol)
    ensures Name(a) == Name(b) ==> a == b
  {
    if Name(a) == Name(b) {
      assert Name(a)[0] == Name(b)[0] && |Name(a)| == |Name(b)|;
    }
  }

  /** Looks an element up by its symbol; any other name is an error. */
  function Lookup(name: string): (r: Result<Element, LookupError>)
    ensures r.Err? <==> forall s: Symbol :: Name(s) != name
    ensures r.Ok? ==> exists s: Symbol :: Name(s) == name && r.value == ElementOf(s)
  {
    match SymbolOf(name)
    case Some(s) => Ok(ElementOf(s))
    case None => Err(UnknownElement(name))
  }

  /** The electron count the Doppler cross section normalises by: the sum of the
      looked-up element's occupations. It fails exactly for names outside the
      table, and otherwise is the atomic number of the named element. */
  function ElectronCount(name: string): (r: Result<int, LookupError>)
    ensures r.Err? <==> forall s: Symbol :: Name(s) != name
    ensures r.Ok? ==> exists s: Symbol :: Name(s) == name && r.value == AtomicNumber(s)
  {
    match Lookup(name)
    case Ok(e) => Ok(Sum(e.orbitals.Counts()))
    case Err(err) => Err(err)
  }

  /** Looking up a symbol's name gives that symbol's entry. */
  lemma LookupName(s: Symbol)
    ensures Lookup(Name(s)) == Ok(ElementOf(s))
  {
    var t :| Name(t) == Name(s) && Lookup(Name(s)).value == ElementOf(t);
    NameInjective(s, t);
  }

  /** The electron count of a table element is its atomic number, a positive
      number. */
  lemma ElectronCountIsAtomicNumber(s: Symbol)
    ensures ElectronCount(Name(s)) == Ok(AtomicNumber(s)) && AtomicNumber(s) > 0
  {
    LookupName(s);
  }

  /** The occupations of the six table entries. */
  lemma TableOccupations(s: Symbol)
    ensures Greedy(AtomicNumber(s)) == match s
      case H => [1, 0, 0, 0, 0, 0, 0]
      case O => [2, 2, 4, 0, 0, 0, 0]
      case Mg => [2, 2, 6, 2, 0, 0, 0]
      case Si => [2, 2, 6, 2, 2, 0, 0]
      case Ca => [2, 2, 6, 2, 6, 2, 0]
      case Fe => [2, 2, 6, 2, 6, 2, 6]
  {
    CumTable();
  }

  /** In every table entry a subshell is occupied exactly when its parameter is
      positive. */
  lemma OccupiedIffPositive(s: Symbol)
    ensures forall i :: 0 <= i < |Ordering| ==>
      (Greedy(AtomicNumber(s))[i] > 0 <==> Parameters(s)[i] > 0.0)
  {
    TableOccupations(s);
    var occ, xis := Greedy(AtomicNumber(s)), Parameters(s);
    forall i | 0 <= i < |Ordering|
      ensures occ[i] > 0 <==> xis[i] > 0.0
    {
      match s
      case H => assert i == 0 || (occ[i] == 0 && xis[i] == 0.0);
      case O => assert i <= 2 || (occ[i] == 0 && xis[i] == 0.0);
      case Mg => assert i <= 3 || (occ[i] == 0 && xis[i] == 0.0);
      case Si => assert i <= 4 || (occ[i] == 0 && xis[i] == 0.0);
      case Ca => assert i <= 5 || (occ[i] == 0 && xis[i] == 0.0);
      case Fe =>
    }
  }

  /** In every table entry a subshell is occupied exactly when its density is not
      the zero function. */
  lemma OccupiedIffDensity(s: Symbol)
    ensures forall i :: 0 <= i < |Ordering| ==>
      (ElementOf(s).orbitals.Counts()[i] > 0 <==> ElementOf(s).wavefunctions.Densities()[i] != Zero)
  {
    OccupiedIffPositive(s);
    var r := BuildWfs(Parameters(s));
    assert r.Ok?;
    assert ElementOf(s).wavefunctions == r.value;
    assert ElementOf(s).orbitals.Counts() == Greedy(AtomicNumber(s));
  }
}
