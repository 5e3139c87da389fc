# gr_xs — Glashow-resonance cross section: a Dafny model of its discrete core

gr_xs computes the neutrino–electron cross section near the W-boson (Glashow)
resonance. It takes into account that the target electrons are bound in atoms:
their momentum distribution Doppler-broadens the resonance. This project models
the discrete and exactly stateable parts of `gr_xs/gr_xs.py`:

- **OrbitalFiller** (`orbitals.dfy`): `build_orbitals`. It greedily fills the seven
  subshells 1s, 2s, 2p, 3s, 3p, 4s, 3d in that fixed order, with capacities
  2, 2, 6, 2, 6, 2, 10. The source's in-place loop is the method `BuildOrbitals`
  over an `array<int>`. It is proved equal to the specification function
  `Greedy(z)`, where slot `i` is `Filled(z, i+1) - Filled(z, i)` and
  `Filled(z, n) = min(z, Cum(n))` for `n >= 1` (`Cum(n)` is the cumulative
  capacity). `Filled(z, 0) = 0` makes the rule hold for every integer `z`.
  Properties proved about `Greedy`:
  - the sum is `min(z, 30)`;
  - each slot stays within its capacity;
  - every slot after the filling point is empty;
  - `z >= 30` gives full shells;
  - a negative `z` ends up in 1s;
  - for `0 <= z <= 30`, the fill is the unique Aufbau-shaped configuration of `z`
    electrons. "Aufbau-shaped" means no subshell is occupied while an earlier one
    is not full.
- **Wavefunctions** (`wavefunctions.dfy`): the dispatch in `build_wfs`. A density is
  a value: either `Zero`, or `Hydrogenic(shell, mu)` for the subshell's own
  formula with `mu = xi / A0`. The closed-form densities themselves are not
  evaluated.
- **Elements** (`elements.dfy`): the table of H, O, Mg, Si, Ca and Fe, and the
  lookup by symbol. It also models the electron count `Z = sum(orbitals)` that
  `sigma_edopp` normalises by.
- **RestFrame** (`rest_frame.dfy`): `sigma_erest`, the Lorentzian
  `(GAMMA0²/4) / ((enu − ER)² + GAMMA0²/4)`. It is modelled over exact reals. The
  model proves its bounds, its peak, its symmetry and its strict ordering by
  distance from `ER`.
- **Constants** (`constants.dfy`): the primary constants `MW`, `MELEC`, `GAMMAW`
  and `ALPHA` are abstract positive reals. `ER`, `GAMMA0` and `A0` are derived
  from them by the source's formulas.

Behaviour on unusual inputs, modelled as the code has it:
- `build_orbitals` accepts any integer. A negative `Z` gives `(Z, 0, 0, 0, 0, 0, 0)`:
  the first subshell is cut back to `Z` and every later one to 0.
  `OrbitalFiller.Filled` therefore counts nothing before the first subshell.
- `build_wfs` selects the zero function whenever a parameter is not `> 0`, so a
  negative parameter also gives the zero function.
- `build_wfs(*args)` pairs parameters with formulas by `zip`. Parameters beyond
  the seventh are ignored. Fewer than seven make the record constructor fail,
  which is modelled as `Err(MissingArguments)`.

## Model

| member | source | states |
|---|---|---|
| `OrbitalFiller.BuildOrbitals` | gr_xs/gr_xs.py:24-36 | the in-place fill over a 7-element array returns exactly the greedy occupations `Greedy(z)`; its loop keeps the running total at `Filled(z, i)`, the done slots greedy and later slots 0 |
| `OrbitalFiller.FilledStep` | gr_xs/gr_xs.py:30-32 | during step `i` the `sum` over the whole list is the greedy total before `i` plus what was just written at `i` |
| `OrbitalFiller.FromCounts` | gr_xs/gr_xs.py:36 | building the occupation record from seven counts keeps them in subshell order |
| `OrbitalFiller.CumTable` | gr_xs/gr_xs.py:25-26 | the capacities in order 1s…3d give cumulative capacities 0, 2, 4, 10, 12, 18, 20, 30 |
| `OrbitalFiller.GreedyPrefixSum` | gr_xs/gr_xs.py:28-34 | after the first `n` subshells the occupations sum to `min(z, Cum(n))` (0 before any subshell) |
| `OrbitalFiller.GreedySum` | gr_xs/gr_xs.py:28-36 | the occupations sum to `z` for `z <= 30` (including negative `z`) and to 30 above |
| `OrbitalFiller.GreedyTakesWhatFits` | gr_xs/gr_xs.py:30-34 | each subshell receives the smaller of its capacity and the electrons still missing |
| `OrbitalFiller.GreedyWithinCapacity` | gr_xs/gr_xs.py:26-34 | for `z >= 0` every occupation lies between 0 and its subshell's capacity |
| `OrbitalFiller.SlotsAfterFillingPointEmpty` | gr_xs/gr_xs.py:29-34 | once the subshells before `i` can hold `z`, subshell `i` and all later ones are 0 |
| `OrbitalFiller.GreedyFull` | gr_xs/gr_xs.py:29-36 | for `z >= 30` the result is the full capacities `(2, 2, 6, 2, 6, 2, 10)`, with no error |
| `OrbitalFiller.GreedyNegative` | gr_xs/gr_xs.py:29-34 | for `z < 0` the whole of `z` lands in 1s and every other subshell is 0 |
| `OrbitalFiller.GreedyExamples` | gr_xs/gr_xs.py:61-66 | the fills for 1, 8 and 26 are `(1,0,0,0,0,0,0)`, `(2,2,4,0,0,0,0)` and `(2,2,6,2,6,2,6)` (3d after 4s) |
| `OrbitalFiller.GreedyIsAufbau` | gr_xs/gr_xs.py:24-36 | for `0 <= z <= 30` the fill is within capacity, sums to `z`, and never occupies a subshell while an earlier one is not full |
| `OrbitalFiller.AufbauUnique` | gr_xs/gr_xs.py:24-36 | any configuration of that shape is the greedy fill of its own electron count, so the greedy fill is the only one |
| `Wavefunctions.Dispatch` | gr_xs/gr_xs.py:57 | a parameter that is not `> 0` selects the zero function; a positive one selects the subshell's own formula with positive `mu` and `mu * A0 == xi` |
| `Wavefunctions.FromDensities` | gr_xs/gr_xs.py:57 | the density record keeps the seven densities in subshell order |
| `Wavefunctions.BuildWfs` | gr_xs/gr_xs.py:39-57 | succeeds exactly when at least seven parameters are given; subshell `i` gets the zero function iff parameter `i` is not `> 0`, otherwise formula `i` of `f1s,f2s,f2p,f3s,f3p,f4s,f3d` with `mu = xi / A0` |
| `Wavefunctions.XiOfDispatch` | gr_xs/gr_xs.py:57 | the parameter can be read back from the selected density: `xi` when positive, 0 otherwise |
| `Elements.SymbolOf` | gr_xs/gr_xs.py:20 | a name denotes a table symbol exactly when it is that symbol's field name |
| `Elements.Lookup` | gr_xs/gr_xs.py:81 | the lookup fails exactly for names that are not one of H, O, Mg, Si, Ca, Fe, and otherwise returns that symbol's table entry |
| `Elements.AtomicNumber` | gr_xs/gr_xs.py:61-66 | the atomic numbers 1, 8, 12, 14, 20, 26 the table is built from all lie in 1..30, the range the seven subshells can hold |
| `Elements.Parameters` | gr_xs/gr_xs.py:61-66 | each entry has seven effective-charge parameters, none negative, with a positive 1s parameter |
| `Elements.ElementOf` | gr_xs/gr_xs.py:60-66 | each table entry's occupations add up to the atomic number it was built from and are Aufbau-shaped |
| `Elements.ElectronCount` | gr_xs/gr_xs.py:81-82 | `Z = sum(elem.orbitals)` fails exactly for names outside the table and otherwise is the atomic number of the named element |
| `Elements.LookupName` | gr_xs/gr_xs.py:81 | looking up a symbol's own name returns that symbol's table entry |
| `Elements.ElectronCountIsAtomicNumber` | gr_xs/gr_xs.py:81-82 | for every table element `sum(elem.orbitals)` is its atomic number (1, 8, 12, 14, 20, 26 for H, O, Mg, Si, Ca, Fe), which is positive |
| `Elements.TableOccupations` | gr_xs/gr_xs.py:60-66 | the six entries hold `(1,0,…)`, `(2,2,4,0,…)`, `(2,2,6,2,0,…)`, `(2,2,6,2,2,0,0)`, `(2,2,6,2,6,2,0)`, `(2,2,6,2,6,2,6)` |
| `Elements.OccupiedIffPositive` | gr_xs/gr_xs.py:60-66 | in every entry a subshell is occupied exactly when its effective-charge parameter is positive |
| `Elements.OccupiedIffDensity` | gr_xs/gr_xs.py:57-66 | in every entry a subshell is occupied exactly when its density is not the zero function |
| `Constants.DerivedConstants` | gr_xs/gr_xs.py:9-13 | `2·MELEC·ER == MW²`, `MW·GAMMA0 == 2·ER·GAMMAW` and `MELEC·ALPHA·A0 == 1`: the derived constants are the source's formulas of the primary ones |
| `RestFrame.SigmaRest` | gr_xs/gr_xs.py:69-74 | the rest-frame cross section lies in (0, 1] and equals 1 exactly at `enu == ER` |
| `RestFrame.SigmaRestPeak` | gr_xs/gr_xs.py:73-74 | the value at the resonance energy is exactly 1 |
| `RestFrame.SigmaRestSymmetric` | gr_xs/gr_xs.py:73-74 | symmetric about `ER`: the same value at `ER + d` and `ER - d` (equivalently at `enu` and `2·ER − enu`) |
| `RestFrame.SigmaRestOrder` | gr_xs/gr_xs.py:73-74 | one energy gives a strictly larger value than another exactly when it is strictly closer to `ER` |
| `RestFrame.SigmaRestEqual` | gr_xs/gr_xs.py:73-74 | two energies give equal values exactly when they are equally far from `ER` |
| `RestFrame.LorentzianBounds` | gr_xs/gr_xs.py:73-74 | `w / (u + w)` lies in (0, 1] and is 1 exactly at `u = 0` |
| `RestFrame.LorentzianOrder` | gr_xs/gr_xs.py:73-74 | `w / (u + w)` strictly decreases in the squared distance `u` |

## Left out

- The seven momentum densities `f1s` … `f3d` (gr_xs/gr_xs.py:40-54) are not evaluated. They are floating-point `np.log`/`np.exp` expressions. A density is kept as the formula's tag and its scale `mu`.
- The Doppler-broadened integral in `sigma_edopp` (gr_xs/gr_xs.py:83-86) is not modelled. It calls `scipy.integrate.quad`, which is not part of this model, and uses `arctan` and floating-point sums. Only the element lookup and `Z` (lines 81-82) are modelled.
- The default `element='O'` of `sigma_edopp` (gr_xs/gr_xs.py:78) is not modelled. `Elements.ElectronCount` always takes the element name explicitly.
- `@np.vectorize` (gr_xs/gr_xs.py:77) is not modelled. It is a library wrapper for element-wise application.
- The numeric values of the physical constants (gr_xs/gr_xs.py:7-13) are not reproduced. The primary constants are abstract positive reals. Floating-point rounding of every real-valued expression is not modelled; `sigma_erest` is exact real arithmetic.
- The demonstration block under `__main__` (gr_xs/gr_xs.py:89-93) and `setup.py` are not modelled. They are console output and packaging metadata.
- `Elements.Lookup`: the source looks elements up with `__getattribute__`. Other attribute names of the namedtuple (`count`, `_fields`, …) are returned too, and then fail a line later when `.orbitals` is read. The model reports every name other than the six symbols as one `UnknownElement` error.
- `OrbitalFiller.BuildOrbitals`: takes an integer `z`. A non-integer `Z` passed by a Python caller is not modelled.
- `Wavefunctions.BuildWfs`: parameters are exact reals. NaN and infinite parameters are not modelled.
