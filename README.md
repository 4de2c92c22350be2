# KinKal fit algebra in Dafny

This project models the algebraic core of KinKal, a kinematic Kalman fit for
charged-particle tracks. All quantities are reals. sqrt, cbrt, sin, cos and
atan2 are the fields of a `RealMath.MathFns` record. The ghost predicate
`Sound` holds of that record when sqrt is a non-negative square root, cbrt is
a cube root and sin² + cos² = 1. Every lemma that needs one of these facts
takes `Sound(m)` as a precondition.

The modules follow the repository's files:

- `WeightData` (KinKal/WData.hh). Weight-space information: a vector and a
  matrix that the fit adds with `+=` and removes with `-=`.
- `FitChain`. The collaborators the effects call, reduced to what they read
  and change:
  - the chain accumulator `KKData`, with `append`;
  - the piecewise trajectory `PKTraj`, with `nearestPiece` and `append`;
  - the processing status per direction.
- `HitEffect` (KinKal/KKHit.hh). A hit's residual becomes rank-one
  information. The hit keeps a cache of the information that excludes it,
  and computes chi from it.
- `MaterialEffect` (KinKal/KKMat.hh). A material crossing adds a mean
  parameter shift and process noise. Processing backwards reverses the shift
  and keeps the noise.
- `SensorLine` (KinKal/TLine.cc). The sensor's straight line, and its tables
  of parameter names and titles.
- `StraightTrajectory` (KinKal/KTLine.cc). The straight particle trajectory,
  with its position and momentum Jacobians.
- `HelixCommon`. What the helices share:
  - the `deltaPhi` angle wrapping;
  - the constructors' self-check;
  - the scalar bounds behind β < 1 and γ ≥ 1.
- `CentralHelixTraj` (KinKal/CentralHelix.cc). The field-change and
  parameter-override constructors, and the zero structure of the Jacobians.
- `IPHelixTraj` (KinKal/IPHelix.hh, KinKal/IPHelix.cc). The helix is a class
  because `invertCT` updates it in place. The module holds the kinematic
  accessors, `momentum`, `direction` and the constructors.
- `LoopHelixTraj` (KinKal/LHelix.hh). The looping helix's kinematic
  accessors, and `invertCT`.
- `FieldTolerance` (KinKal/BFieldUtils.hh). The fixed 10-step momentum
  integral, and the step choice and do-while march of `rangeInTolerance`.
- `ClosestApproachStatus` (KinKal/ClosestApproachData.cc). The table of
  status names.

State that the source updates in place is a `class` with `modifies` clauses:
`WData`, `KKData`, `PKTraj`, `KKHit`, `KKMat`, `IPHelix` and `LHelix`.
Trajectories that only their constructors build (`TLine`, `KTLine`,
`CentralHelix`) are datatypes. Loops are `while` loops with invariants:
`deltaPhi`, `KKMat::updateCache`, `integrate` and the `rangeInTolerance`
march.

## Model

| member | source | states |
|---|---|---|
| WeightData.PlusCommutes | KinKal/WData.hh:26-29 | fusing two pieces of information gives the same vector and matrix in either order |
| WeightData.PlusAssociates | KinKal/WData.hh:26-29 | fusing three pieces of information does not depend on the grouping |
| WeightData.MinusUndoesPlus | KinKal/WData.hh:26-33 | `-=` after `+=` of the same data restores the original vector and matrix exactly |
| WeightData.ZeroIsNeutral | KinKal/WData.hh:17 | the default-constructed (zero) data is the neutral element on both sides |
| WeightData.WData.constructor | KinKal/WData.hh:14 | building from (v, m) stores v as the weight vector and m as the weight matrix |
| WeightData.WData.FromVec | KinKal/WData.hh:15 | building from a vector alone stores it with a zero matrix |
| WeightData.WData.Empty | KinKal/WData.hh:17 | default construction holds no information |
| WeightData.WData.AddAssign | KinKal/WData.hh:26-29 | `+=` replaces the payload by the component-wise sum with the other's payload, even when the other is the same object |
| WeightData.WData.SubAssign | KinKal/WData.hh:30-33 | `-=` replaces the payload by the component-wise difference |
| WeightData.WData.Clear | KinKal/KKHit.hh:88 | assigning a default WData resets the payload to zero |
| WeightData.WData.SetWeightVec | KinKal/WData.hh:21 | writing through the mutable vector reference changes the vector only |
| WeightData.WData.SetWeightMat | KinKal/WData.hh:22 | writing through the mutable matrix reference changes the matrix only |
| WeightData.AddThenSubtract | KinKal/WData.hh:26-33 | `w += x; w -= x` leaves `w` as it was |
| FitChain.EffStatus.SetProcessed | KinKal/KKHit.hh:65 | marking a direction processed sets that direction's flag and leaves the other direction's flag alone |
| FitChain.KKData.AppendWeight | KinKal/KKHit.hh:63 | appending weight data adds it to the chain's running weight and records it as the latest effect |
| FitChain.KKData.AppendParams | KinKal/KKMat.hh:61-69 | appending parameter data changes the running weight through the parameter/weight conversion and records it as the latest effect |
| FitChain.PKTraj.NearestPiece | KinKal/KKHit.hh:91 | the piece chosen for a time is one of the trajectory's pieces and starts at or before the time, or is the first piece |
| FitChain.LastStartingBy | KinKal/KKHit.hh:91 | the chosen position holds a piece that starts at or before the time (or is the first), and every later piece starts after the time |
| FitChain.PKTraj.Append | KinKal/KKMat.hh:125 | appending makes the new piece the back of the trajectory and keeps the earlier pieces |
| HitEffect.HitWeightSymmetric | KinKal/KKHit.hh:93-100 | the hit's weight matrix d·dᵀ/(variance·vscale) is symmetric |
| HitEffect.HitWeightNonNegative | KinKal/KKHit.hh:96-100 | with a positive scaled variance, the weight matrix is positive semi-definite |
| HitEffect.HitWeightIsChiSquared | KinKal/KKHit.hh:86-103 | the weight data is the information form of the hit's χ²: for every p, pᵀWp − 2w·p + const equals (linearised residual at p)²/tvar |
| HitEffect.KKHit.constructor | KinKal/KKHit.hh:53-55 | a new hit has unit variance scale, an empty cache, no processed direction, reference parameters from the piece nearest the residual's time, and the hit information built from them |
| HitEffect.KKHit.NDOF | KinKal/KKHit.hh:22 | an inactive hit contributes no degrees of freedom; an active one contributes at most the hit's own |
| HitEffect.KKHit.Process | KinKal/KKHit.hh:57-66 | when active, the cache first absorbs the incoming chain weight, then the hit's information is appended. When inactive, neither the cache nor the chain changes. The direction only selects which status flag is set |
| HitEffect.KKHit.Update | KinKal/KKHit.hh:68-72 | takes the new residual and rebuilds the cache through `updateCache` |
| HitEffect.KKHit.UpdateWithConfig | KinKal/KKHit.hh:74-84 | sets the variance scale from the configuration first. The residual (and hit state) comes from the hit's own update when the configuration asks for it, else from the plain residual. Then the cache is rebuilt |
| HitEffect.KKHit.UpdateCache | KinKal/KKHit.hh:86-105 | resets the processing cache, takes the reference parameters from the piece nearest the residual's time, sets the hit information to W = d·dᵀ/tvar and w = W·ref + d·value/tvar, and marks both directions unprocessed |
| HitEffect.KKHit.ChiSq | KinKal/KKHit.hh:24 | chisq is never negative |
| HitEffect.KKHit.FitChi | KinKal/KKHit.hh:107-115 | fitChi is zero unless the hit is active and was processed both ways; then it is chi at the unbiased parameters from the cache |
| HitEffect.InactiveChiIsZero | KinKal/KKHit.hh:117-132 | an inactive hit has chi = chisq = 0 for any parameters |
| HitEffect.ChiAtReference | KinKal/KKHit.hh:117-132 | at the reference parameters the correction vanishes: chi = value / sqrt(dRdPᵀ·C·dRdP + variance·vscale) |
| HitEffect.ChiSqIsNormalisedResidual | KinKal/KKHit.hh:117-132 | for an active hit the residual variance is positive and chisq = (linearised residual)² / residual variance |
| MaterialEffect.Reverse | KinKal/KKMat.hh:66-69 | the reversed effect has every parameter entry negated and the covariance unchanged |
| MaterialEffect.ReverseInvolution | KinKal/KKMat.hh:66-69 | reversing twice gives back the effect |
| MaterialEffect.ReverseCancels | KinKal/KKMat.hh:66-69 | an effect's parameter shift and its reverse sum to zero |
| MaterialEffect.EffectUpToSymmetric | KinKal/KKMat.hh:108-111 | the accumulated covariance Σ pder·pderᵀ·momvar·vscale is symmetric after any number of directions |
| MaterialEffect.EffectUpToNonNegative | KinKal/KKMat.hh:108-111 | with non-negative momentum variances and scale, the accumulated covariance is positive semi-definite |
| MaterialEffect.EffectUpToCovarianceIgnoresShift | KinKal/KKMat.hh:106-111 | the covariance does not depend on the mean momentum change |
| MaterialEffect.EffectUpToNoShift | KinKal/KKMat.hh:107 | with no mean momentum change there is no parameter shift |
| MaterialEffect.EmptyCrossingHasNoEffect | KinKal/KKMat.hh:93-94 | a crossing with no material gives zero shift and zero covariance |
| MaterialEffect.MatEffectCovariance | KinKal/KKMat.hh:98-112 | the effect's covariance is symmetric, and positive semi-definite for non-negative variances and scale |
| MaterialEffect.KKMat.Time | KinKal/KKMat.hh:27 | the effect's time is strictly after the crossing time |
| MaterialEffect.KKMat.IsActive | KinKal/KKMat.hh:28 | active exactly when the flag is set and there is at least one material crossing |
| MaterialEffect.KKMat.constructor | KinKal/KKMat.hh:52-55 | unit variance scale, an empty cache, no processed direction, the reference piece nearest the crossing, and the effect built from it |
| MaterialEffect.KKMat.Process | KinKal/KKMat.hh:57-73 | forwards: append the effect, then absorb the chain weight. Backwards: absorb the chain weight first, then append the reversed effect. Inactive: only the status flag changes |
| MaterialEffect.KKMat.Update | KinKal/KKMat.hh:75-80 | clears the cache, takes the piece nearest the crossing, rebuilds the effect and marks both directions unprocessed |
| MaterialEffect.KKMat.UpdateWithConfig | KinKal/KKMat.hh:82-90 | always sets the variance scale. The crossing and the effect are rebuilt only when the configuration asks for material updates; otherwise everything else is unchanged |
| MaterialEffect.KKMat.UpdateCache | KinKal/KKMat.hh:92-114 | the effect is zero without material, else the sum over the 3 basis directions of the shift pder·dmom and the noise pder·pderᵀ·momvar·vscale |
| MaterialEffect.KKMat.Append | KinKal/KKMat.hh:116-130 | when active and the effect's time is after the start of the last piece, a piece from the cache spanning [time, end of fit] is appended. When active otherwise, it reports invalid_argument and leaves the fit alone. When inactive, nothing happens |
| SensorLine.TLine.Position4 | KinKal/TLine.cc:35-38 | overwrites x, y, z with the position at the point's time and keeps the time |
| SensorLine.ConstructorParameters | KinKal/TLine.cc:24-33 | z0 = pos0.z, t0 = tmeas, d0 ≥ 0, speed ≥ 0, cost = dir.z; for a non-zero velocity the direction is a unit vector and cost ∈ [−1, 1] |
| SensorLine.PositionAtReference | KinKal/TLine.cc:40-43 | without range forcing, position(t0) = pos0 |
| SensorLine.PositionIsAffine | KinKal/TLine.cc:40-47 | without range forcing, position(t2) − position(t1) = (t2 − t1)·velocity |
| SensorLine.VelocityMagnitude | KinKal/TLine.cc:45-51 | for a unit direction, \|velocity\|² = speed² |
| SensorLine.TOCAAsWritten | KinKal/TLine.cc:53-56 | as written, TOCA(position(t)) = t − 2·t0 |
| SensorLine.TOCAAsWrittenCounterexample | KinKal/TLine.cc:53-56 | a line with t0 = 1 on which TOCA(position(1)) = −1 |
| SensorLine.TOCACorrectedRoundTrip | KinKal/TLine.cc:53-56 | with t0 added back, TOCA(position(t)) = t |
| SensorLine.ParamTitleAsWritten | KinKal/TLine.cc:21 | the title lookup on the table as written has a title exactly for the indices inside the table |
| SensorLine.ParamTitlesAsWrittenShort | KinKal/TLine.cc:10-17 | the title table as written has 4 entries for 5 names: index 4 has no title, and index 1 holds two titles joined |
| SensorLine.ParamTitlesMatchNames | KinKal/TLine.cc:10-21 | with the comma restored there is one title per name, and the table is the written one with the merged entry split |
| StraightTrajectory.Position4 | KinKal/KTLine.cc:95-98 | overwrites x, y, z with the position at the point's time and keeps the time |
| StraightTrajectory.Direction | KinKal/KTLine.cc:142-157 | fails (invalid_argument) exactly for a direction outside perpdir, phidir, momdir |
| StraightTrajectory.ConstructorParameters | KinKal/KTLine.cc:47-69 | mom = \|mom0\| > 0, cost = z of the unit momentum direction and lies in [−1, 1], z0 = z of the closest approach, \|d0\| = its distance to the axis; mass, charge and field are copied |
| StraightTrajectory.WithParams | KinKal/KTLine.cc:77-79 | the new line has the given parameters and everything else from the other line |
| StraightTrajectory.ChangeField | KinKal/KTLine.cc:92-93 | the field-change copy ignores the new field and rotation time: the line is unchanged |
| StraightTrajectory.BasisOrthonormal | KinKal/KTLine.cc:142-157 | perpdir, phidir and the momentum direction are mutually orthogonal unit vectors |
| StraightTrajectory.MomentumMagnitude | KinKal/KTLine.cc:109-122 | momentum(t) has squared magnitude mom² and the line's mass at every time |
| StraightTrajectory.DMDParZeroColumns | KinKal/KTLine.cc:204-221 | dMdPar has zero d0, z0 and t0 columns |
| StraightTrajectory.DMDParTurnsOrScales | KinKal/KTLine.cc:204-221 | for \|cos θ\| < 1 the φ0 and cos θ columns of dMdPar are perpendicular to momentum(t), so those parameters turn the momentum without changing its length, and mom times the momentum column is momentum(t) itself |
| StraightTrajectory.DParDXZeroRows | KinKal/KTLine.cc:223-239 | dPardX has zero φ0, cos θ and momentum rows |
| StraightTrajectory.DParDMOnMomentum | KinKal/KTLine.cc:241-273 | for \|cos θ\| < 1 and mom ≠ 0, dPardM applied to momentum(t) gives 0 in the φ0 and cos θ rows and mom in the momentum row: scaling the momentum along itself changes only mom, at unit rate |
| StraightTrajectory.MomentumJacobiansInverse | KinKal/KTLine.cc:204-273 | for \|cos θ\| < 1 and mom ≠ 0: dMdPar·dPardM = I₃ |
| StraightTrajectory.PositionColumnsKinematics | KinKal/KTLine.cc:179-202 | energy times the t0 column of dXdPar is −c times momentum(t), so a later t0 moves the position back at the velocity c·p/E; the d0 column is a transverse unit vector perpendicular to the momentum |
| StraightTrajectory.PositionJacobiansInverse | KinKal/KTLine.cc:179-239 | for \|cos θ\| < 1, mom ≠ 0 and mass ≠ 0: dXdPar·dPardX = I₃ |
| StraightTrajectory.SpeedTimesEnergy | KinKal/KTLine.cc:51 | speed·energy = c·mom, the relation that makes the t0 column and row inverse |
| HelixCommon.DeltaPhi | KinKal/CentralHelix.cc:85-100 | the returned difference lies in (−π, π] and equals the new phi − refphi. The new phi differs from the old by whole turns, and is the old one when the difference was already in range |
| HelixCommon.PrincipalRangeUnique | KinKal/CentralHelix.cc:85-100 | the wrapped difference is unique: two angles in (−π, π] that differ by whole turns are equal |
| HelixCommon.ConstructionCheck | KinKal/IPHelix.cc:39-83 | the constructor succeeds exactly when the rotated field is within 1e-6 of z and the position and momentum round trips are within 1e-5; otherwise it fails with "Rotation Error". The CentralHelix constructor (CentralHelix.cc:39-82) ends with the same two tests, and this one member models both |
| HelixCommon.KinematicFactors | KinKal/IPHelix.hh:99-109 | for m̄ ≠ 0: ē = sqrt(p̄² + m̄²) > 0, \|p̄/ē\| < 1 and \|ē/m̄\| ≥ 1 |
| CentralHelixTraj.ChangeField | KinKal/CentralHelix.cc:102-108 | m̄·\|B_new\| = m̄_old·\|B_old\|; the field is replaced; the parameters move by dPardB(trot, B_new); covariance, mass, charge, range and vz are kept |
| CentralHelixTraj.ChangeFieldRoundTrip | KinKal/CentralHelix.cc:102-108 | changing to a new field and back, with parameter changes that cancel, restores the helix |
| CentralHelixTraj.WithParams | KinKal/CentralHelix.cc:110-112 | the new helix has the given parameters and everything else from the other helix |
| CentralHelixTraj.DMDParStructure | KinKal/CentralHelix.cc:268-300 | at every time, including t = t0, the corrected dMdPar has zero d0 and z0 columns, and its t0 column is the φ0 column scaled by −ω·c·β·cos λ |
| CentralHelixTraj.DMDParAgreesAwayFromT0 | KinKal/CentralHelix.cc:268-300 | for t ≠ t0 the written dMdPar has a value and equals the corrected one, because l/(t − t0) is c·β·cos λ |
| CentralHelixTraj.DMDParAsWrittenAtT0 | KinKal/CentralHelix.cc:271-287 | at t = t0 the written dMdPar has no value (its t0 column is 0/0), while the corrected t0 column is c·β·cos λ·Q·(sin φ0, −cos φ0, 0) |
| CentralHelixTraj.DParDXLocStructure | KinKal/CentralHelix.cc:302-335 | dPardXLoc has zero ω and tan λ rows; z0 and t0 rows have z entries 1 and −1/vz; the t0 row's x, y are the z0 row's over vz |
| CentralHelixTraj.D0RowDX | KinKal/CentralHelix.cc:316-322 | for every azimuth the d0 row of dPardXLoc has at most one non-zero transverse entry, and both entries are below 2 in magnitude: choosing between sin φ0 and cos φ0 keeps the divisor above 1/2 |
| CentralHelixTraj.DD0DMAsWrittenCounterexample | KinKal/CentralHelix.cc:228-234 | at φ0 = 0, on any helix, the d0 row as written divides by sin φ0 = 0 and has no value, because the branch for \|sin φ0\| ≤ 1/2 only declares a shadowing local; the corrected row there is (1/Q − dρ/dPx, −dρ/dPy, 0) |
| CentralHelixTraj.CentreOnHelix | KinKal/CentralHelix.cc:197-213 | when the momentum points along the azimuth reached, the centre offset (cx, cy) is (ρ + d0)·(−sin φ0, cos φ0) at every time |
| CentralHelixTraj.Phi0RowOnCircle | KinKal/CentralHelix.cc:219-221 | for a centre offset R·(−sin φ0, cos φ0), R times dphi0_dM is (−sin φ0, cos φ0, 0)/Q |
| CentralHelixTraj.D0FormsAgreeOnHelix | KinKal/CentralHelix.cc:192-234 | on every helix state the sine form, the cosine form and the corrected d0 row are the same row (cos φ0/Q − dρ/dPx, sin φ0/Q − dρ/dPy, 0), wherever each is defined; the row as written has a value exactly when sin φ0 ≠ 0 |
| CentralHelixTraj.DD0DMWellConditioned | KinKal/CentralHelix.cc:228-234 | the corrected d0 row divides by cos φ0 (whose magnitude is then > 1/2) when \|sin φ0\| ≤ 1/2, and equals the written row otherwise |
| IPHelixTraj.InvertedParamsInvolution | KinKal/IPHelix.hh:131-136 | the inversion negates t0 only, and inverting twice restores the parameters |
| IPHelixTraj.DPardB | KinKal/IPHelix.hh:127-128 | the field derivative stub returns all zeros |
| IPHelixTraj.AddZeroChange | KinKal/IPHelix.cc:103-104 | adding the stub's parameter change leaves the parameters unchanged |
| IPHelixTraj.IPHelix.CosDip | KinKal/IPHelix.hh:101 | cos λ = 1/sqrt(1 + tan²λ) lies in (0, 1] |
| IPHelixTraj.DipAngles | KinKal/IPHelix.hh:101-102 | cos²λ + sin²λ = 1, and sin λ has the sign of tan λ |
| IPHelixTraj.KinematicRanges | KinKal/IPHelix.hh:99-109 | for ω ≠ 0 and m̄ ≠ 0: ē > 0, 0 ≤ β < 1 and γ ≥ 1 |
| IPHelixTraj.IPHelix.Dphi | KinKal/IPHelix.hh:110 | the azimuth turned is zero at t0 |
| IPHelixTraj.IPHelix.Phi | KinKal/IPHelix.hh:111 | phi(t) − φ0 = dphi(t), so phi(t0) = φ0 |
| IPHelixTraj.IPHelix.ZTime | KinKal/IPHelix.hh:116 | (ztime(z) − t0)·vz = z, so ztime(0) = t0 |
| IPHelixTraj.IPHelix.LocalDirection | KinKal/IPHelix.cc:173-191 | fails with "Invalid direction" exactly outside the three basis directions; phidir is a transverse unit vector; for a massive particle momdir is a unit vector |
| IPHelixTraj.IPHelix.Momentum | KinKal/IPHelix.cc:154-160 | carries the particle's mass, and for a massive particle has magnitude βγ·mass |
| IPHelixTraj.IPHelix.DeltaPhi | KinKal/IPHelix.cc:86-101 | the same wrapping as in CentralHelix: result in (−π, π], phi moved by whole turns and left alone when already in range |
| IPHelixTraj.IPHelix.InvertCT | KinKal/IPHelix.hh:131-136 | negates m̄, the charge and t0 and keeps everything else; for m̄ ≠ 0 the bending sign and the reduced charge flip |
| IPHelixTraj.IPHelix.WithParams | KinKal/IPHelix.cc:109-111 | the new helix has the given parameters and everything else from the other helix |
| IPHelixTraj.IPHelix.ChangeFieldAsWritten | KinKal/IPHelix.cc:103-107 | as written, the field-change constructor copies the other helix unchanged: same parameters, field and m̄ |
| IPHelixTraj.ChangeFieldIgnoresField | KinKal/IPHelix.cc:103-107 | as written, asking for a different field yields a helix whose field is not the requested one and whose m̄ is not rescaled |
| IPHelixTraj.IPHelix.ChangeField | KinKal/IPHelix.cc:103-107 | corrected as CentralHelix does it: the field is replaced, m̄·\|B_new\| = m̄_old·\|B_old\|, and the parameters are kept (dPardB is zero) |
| LoopHelixTraj.LHelix.Pbar2 | KinKal/LHelix.hh:92 | p̄² = rad² + λ² is never negative |
| LoopHelixTraj.LHelix.Ebar2 | KinKal/LHelix.hh:94 | ē² is at least p̄² |
| LoopHelixTraj.LHelix.Omega | KinKal/LHelix.hh:98 | ω = c·sign/ē is positive exactly when the bending sign is, and negative exactly when it is |
| LoopHelixTraj.OmegaFollowsSign | KinKal/LHelix.hh:91-98 | for m̄ ≠ 0, ω has the sign of m̄ |
| LoopHelixTraj.KinematicRanges | KinKal/LHelix.hh:99-100 | for m̄ ≠ 0: ē > 0, 0 ≤ β < 1 and γ ≥ 1 |
| LoopHelixTraj.LHelix.Dphi | KinKal/LHelix.hh:102 | the azimuth turned is zero at t0 |
| LoopHelixTraj.LHelix.Phi | KinKal/LHelix.hh:103 | phi(t) − φ0 = dphi(t), so phi(t0) = φ0 |
| LoopHelixTraj.LHelix.ZTime | KinKal/LHelix.hh:104 | ztime(0) = t0 |
| LoopHelixTraj.LHelix.ZPhi | KinKal/LHelix.hh:105 | (zphi(z) − φ0)·λ = z, so zphi(0) = φ0 |
| LoopHelixTraj.LHelix.MomentumMag | KinKal/LHelix.hh:70 | never negative, and zero exactly when the mass or βγ is zero |
| LoopHelixTraj.LHelix.Energy | KinKal/LHelix.hh:72 | never negative |
| LoopHelixTraj.LHelix.InvertCT | KinKal/LHelix.hh:109-113 | negates m̄, the charge and t0; keeps rad, λ, the centre, φ0, the covariance, p̄² and ē²; for m̄ ≠ 0 the bending sign flips |
| FieldTolerance.Integrate | KinKal/BFieldUtils.hh:28-41 | the loop's result is the 10-term sum of c̄·q·dt·v × (B − B_nom) at low + i·dt |
| FieldTolerance.SamplesBeforeEnd | KinKal/BFieldUtils.hh:30-35 | for a non-empty range every sample time lies in [low, high), the last one a step before high |
| FieldTolerance.IntegrateNominalField | KinKal/BFieldUtils.hh:33-38 | where the field equals the nominal field along the trajectory, the integral is zero |
| FieldTolerance.KickSumCharge | KinKal/BFieldUtils.hh:38 | reversing the charge negates the integral |
| FieldTolerance.ScaleFactor | KinKal/BFieldUtils.hh:45-46 | the scale factor \|c̄·q·v²/p\| is never negative |
| FieldTolerance.StepSize | KinKal/BFieldUtils.hh:53-59 | the step is positive and at most the nominal 0.1 |
| FieldTolerance.StepFor | KinKal/BFieldUtils.hh:48-59 | the step chosen from the field at the start time is positive and at most 0.1 |
| FieldTolerance.March | KinKal/BFieldUtils.hh:63-77 | the march stops after the first step n ≥ 1 at which the distortion accumulated from the field difference has reached tol or the end time has reached the range end. The loop condition held after every earlier step. It returns tstart + n·tstep and that accumulated distortion; it overshoots the range end by less than one step, and a start at or past the end takes exactly one step |
| FieldTolerance.AccumulatedMonotone | KinKal/BFieldUtils.hh:72-74 | the accumulated distortion sfac·Σ (k·tstep)·tstep·\|B − B_nom\|(tstart + k·tstep) never decreases from one step to a later one |
| FieldTolerance.ExitUnique | KinKal/BFieldUtils.hh:66-75 | the step at which the march stops is unique, so the end time is determined by the field, the trajectory and the step |
| FieldTolerance.RangeInTolerance | KinKal/BFieldUtils.hh:43-78 | the returned end is tstart + n·step, with the step chosen from the field at the start time and n the first step at which the distortion accumulated from \|B − B_nom\| along the trajectory reaches tol or the end reaches the range end; the overshoot bound holds |
| ClosestApproachStatus.Index | KinKal/ClosestApproachData.cc:4 | every status indexes inside the six-entry table |
| ClosestApproachStatus.TableCoversStatuses | KinKal/ClosestApproachData.cc:3-4 | the table has one entry per status, so every lookup is in bounds |
| ClosestApproachStatus.NamesDistinct | KinKal/ClosestApproachData.cc:3 | no name appears twice in the table |
| ClosestApproachStatus.StatusNameInjective | KinKal/ClosestApproachData.cc:3-4 | equal names mean equal statuses |
| ClosestApproachStatus.StatusNamesInOrder | KinKal/ClosestApproachData.cc:3-4 | each status maps to its own name, in the order of the enumeration |

## Left out

- Floating point: the model works on reals, so rounding, NaN and infinities are not modelled. The one place where the source relies on an infinity is in `rangeInTolerance`: a zero denominator makes the cube-root or square-root step infinite, so `std::min` keeps the current step. `FieldTolerance.StepSize` states that outcome directly.
- The rotations between the global frame and the field-aligned local frame (`g2l_`, `l2g_`) are not modelled. The CentralHelix and IPHelix Jacobians, positions and directions are the local-frame ones.
- KinKal/CentralHelix.hh, KinKal/KTLine.hh and KinKal/LHelix.cc are not part of this model. The KTLine accessors are taken in the form the Jacobians in KTLine.cc imply. The CentralHelix accessors (β, cos λ, Q) enter as arguments.
- KKData, PKTraj, KKEffBase, THit, DXing and POCAUtil are not part of this model. `FitChain` keeps only the state the effects read and change.
- Conversions between weight and parameter space (matrix inversion: `PData(wcache_)`, `KKData::append(PData)`) are function-valued parameters (`toParams`, `transport`).
- Other external computations also become parameters:
  - the hit's residual computation (`THit::resid`, `THit::update`);
  - the crossing's momentum effects and `DXing::update`;
  - `momDeriv`;
  - the field map (`fieldVect`, `fieldDeriv`);
  - the trajectory's evaluation in `BFieldUtils` (`FieldTolerance.TrajView`).
- The CentralHelix and IPHelix constructors from position and momentum are not modelled beyond their final self-check (`HelixCommon.ConstructionCheck`). Their parameter extraction goes through the rotations and POCA geometry. The same holds for the KTLine constructors from particle states and the covariance propagation through `dPardState`.
- The rest of the CentralHelix code is not modelled:
  - `position`, `momentum`, `direction` and `dXdPar`;
  - the dz0, dt0, dω and dtan λ rows of `dPardMLoc`, which only the zero structure of the other Jacobians stands in for.
- The IPHelix code at KinKal/IPHelix.cc:193-232 defines `dPardMLoc` and `momDeriv` as members of `LHelix` with incomplete statements. It cannot be compiled, so it is not modelled.
- The IPHelix Jacobian stubs (KinKal/IPHelix.hh:119-124), `state` and `measurementState` return default objects. Only the `dPardB` stub, which the field-change constructor uses, is modelled.
- Printing, the parameter unit tables, `paramName` lookups and `trajName` are not modelled.
- `IPHelixTraj.IPHelix.MomentumVar` returns −1, as the unimplemented source does. It carries no contract.
- LoopHelixTraj.LHelix.Ebar2: states ē² ≥ p̄², not the strict ē² > p̄² that holds for m̄ ≠ 0. `LoopHelixTraj.KinematicRanges` gives the strict consequence β < 1.
- HitEffect.KKHit.Chi: requires the projected covariance dRdPᵀ·C·dRdP to be non-negative. For a non-positive-definite covariance the source would take the square root of a negative number.
- HitEffect.KKHit.FitChi: has the same requirement on the covariance that `toParams` produces from the cache.
- FieldTolerance.RangeInTolerance: requires a non-zero momentum at the start time and a positive tolerance. The source divides by the momentum when computing the scale factor. The number of steps is returned as a ghost value; the source does not count them.
- FieldTolerance.Integrate: the source's FIXME that a fixed 10 steps may be too few for long ranges is a numerical-accuracy concern, and is not modelled.
- HitEffect.KKHit.UpdateWithConfig: requires a positive residual variance and a positive configured variance scale, and `KKHit.Valid` keeps a positive variance and a positive `vscale`. The source checks none of these; with a zero variance or scale it would divide by zero when building the weight.
- CentralHelixTraj.DMDParAsWritten: `None` stands for the NaN that the source's 0/0 in the t0 column produces at t = t0. The same quotient in the t0 column of `dXdPar` (CentralHelix.cc:359-361) is not part of this model.
- CentralHelixTraj.DD0DMAsWritten: `None` stands for the infinities and NaN that the source's division by sin φ0 = 0 produces. The loss of precision for small non-zero sin φ0 is a floating-point effect and is not modelled.
- CentralHelixTraj.D0FormsAgreeOnHelix: takes the helix state as its hypotheses. The momentum azimuth is the azimuth reached, which holds because Q/ω > 0 on a constructed helix (CentralHelix.hh, not part of this model), and ρ + d0 ≠ 0, without which the source's dphi0_dM divides by zero.
- HitEffect.KKHit.UpdateCache: the weight matrix is built as the rank-one matrix d·(1/tvar)·dᵀ. The 6×1 and 1×1 ROOT matrices of the source are not modelled.

## Findings

| source | as written | input that shows it | evidently intended | confidence | as-written member | corrected member |
|---|---|---|---|---|---|---|
| KinKal/TLine.cc:53-56 | `TOCA` returns the projected time minus t0, so TOCA(position(t)) = t − 2·t0 | pos0 = 0, dir = ẑ, speed = 1, t0 = 1: TOCA(position(1)) = −1 | add t0, so that TOCA inverts position | not executed | SensorLine.TOCAAsWritten | SensorLine.TOCACorrectedRoundTrip |
| KinKal/TLine.cc:10-15 | a missing comma after "Azimuth of POCA" joins two titles, leaving 4 titles for 5 parameters | `paramTitle` for t0 (index 4) reads past the end of the table | one title per parameter | not executed | SensorLine.ParamTitlesAsWrittenShort | SensorLine.ParamTitlesMatchNames |
| KinKal/CentralHelix.cc:228-234 | the \|sin φ0\| ≤ 1/2 branch declares a new `dd0_dM` that goes out of scope at once, so the d0 row always divides by sin φ0, which vanishes at φ0 = 0 and π | φ0 = 0 (sin φ0 = 0, cos φ0 = 1) on any helix: the row divides by zero, while the cosine form gives (1/Q − dρ/dPx, −dρ/dPy, 0) | use the cosine form when \|sin φ0\| ≤ 1/2, as `dPardXLoc` does | not executed | CentralHelixTraj.DD0DMAsWrittenCounterexample | CentralHelixTraj.D0FormsAgreeOnHelix |
| KinKal/CentralHelix.cc:268-300 | the t0 column of `dMdPar` is l/(time − t0)·Q·(sin, −cos, 0) with l = c·β·(time − t0)·cos λ, which is 0/0 at time = t0 | time = t0 on any helix: the t0 column is NaN | use the value c·β·cos λ of l/(time − t0), which is defined at every time | not executed | CentralHelixTraj.DMDParAsWrittenAtT0 | CentralHelixTraj.DMDParStructure |
| KinKal/IPHelix.cc:103-107 | the field-change constructor neither stores the new field nor rescales m̄; with the zero `dPardB` stub it copies the helix unchanged | any new field different from the old one | store the new field and scale m̄ by \|B_old\|/\|B_new\|, as CentralHelix.cc:102-108 does | not executed | IPHelixTraj.ChangeFieldIgnoresField | IPHelixTraj.IPHelix.ChangeField |
