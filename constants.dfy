/** Physical constants of the model. The four primary constants are left
    abstract: only their positivity is known. The derived ones follow from them
    by the definitions of the resonance energy, the effective width and the
    momentum scale. */
module Constants {

  type Positive = r: real | r > 0.0 witness 1.0

  /** W-boson mass (GeV). */
  const MW: Positive
  /** Electron mass (GeV). */
  const MELEC: Positive
  /** Intrinsic W width (GeV). */
  const GAMMAW: Positive
  /** Fine-structure constant. */
  const ALPHA: Positive

  /** Resonance energy MW² / (2·MELEC). */
  const ER: Positive := MW * (MW / (2.0 * MELEC))
  /** Effective width 2·ER·GAMMAW / MW. */
  const GAMMA0: Positive := 2.0 * ER * GAMMAW / MW
  /** Momentum scale 1 / (MELEC·ALPHA). */
  const A0: Positive := 1.0 / (MELEC * ALPHA)

  /** The defining relations of the derived constants, free of division: the
      resonance energy is where 2·MELEC·ER equals MW², the effective width is the
      intrinsic one scaled by 2·ER / MW, and A0 is the inverse of MELEC·ALPHA. */
  lemma DerivedConstants()
    ensures 2.0 * MELEC * ER == MW * MW
    ensures MW * GAMMA0 == 2.0 * ER * GAMMAW
    ensures MELEC * ALPHA * A0 == 1.0
  {
  }
}
