# Twist-Dynamics core, modelled in Dafny

Twist-Dynamics analyses the torsional vibration of multi-story buildings
modelled as shear buildings with three degrees of freedom per story (DX, DY
and the rotation RZ about the mass centre). This project models its core:

- **Building model I/O.** The building-model record (stories, floors,
  columns, walls, wall types, dxPanels, brace and mass dampers), its
  validation and normalisation (stable sort by layer and four validators),
  the JSON document reader and writer, the tolerant XML reader, the legacy
  `<ATV>`/`Ebi_Docs` XML format and the NICE-JSON converter.
- **Result files.** The base-shape header, the Modal DAT reader and writer,
  the complex-modal DAT reader and writer, and the time-history CSV reader.
- **Structural analysis.** Assembly of the mass, stiffness and damping
  matrices, the real eigen analysis (mode selection, mass normalisation,
  participation factors, effective mass ratios, readable mode shapes,
  eigen-vector table, Rayleigh damping), the complex eigen analysis of the
  damped building (state matrix, mode filtering, ordering and numbering),
  and the Newmark-β time-history response with its records and column maxima.
- **Application logic.** The model editor's text form (reading and
  writing), the classification of an input file and of its failures, the
  number-by-number comparison of two result files, and the pass/fail rules
  of the accuracy check.

Numbers are mathematical reals. Conversions between text and numbers, the
square root, `Math.hypot`, `Math.atan2` and the library linear algebra are
parameters, and the lemmas that need them to behave state so in their
`requires`. Failures that the TypeScript code throws are `Result` values that
keep the exception's kind (`FormatParseError` or a plain `Error`) and its
message. Code that works by pushing, looping and filling arrays is modelled
by methods over `seq`s and `array2`s, each proved equal to a specification
function; the properties are proved about those functions.

## Model

| member | source | states |
|---|---|---|
| MatrixAssembly.SafeLayerToIndex | src/core/analysis/matrixAssembly.ts:144-149 | succeeds exactly for an integer layer in 1..storyCount and then gives layer − 1 (< storyCount); otherwise the "must be between 1 and n" error |
| MatrixAssembly.FindWallChara | src/core/analysis/matrixAssembly.ts:109-115 | succeeds exactly when some entry carries the name, and then returns the first such entry; otherwise the "was not found" error |
| MatrixAssembly.ClassifyWallDirection | src/core/analysis/matrixAssembly.ts:117-121 | X exactly when start.x = end.x; Y exactly when the x differ and start.y = end.y; the axis error exactly when both differ |
| MatrixAssembly.ComputeWallValue | src/core/analysis/matrixAssembly.ts:127-130 | the chara's k (or c), multiplied by the wall length exactly when the chara is per unit length |
| MatrixAssembly.AddToStory | src/core/analysis/matrixAssembly.ts:179-189 | updates only story s, by the stiffness then the damping directional contribution about that story's mass center |
| MatrixAssembly.AddColumns | src/core/analysis/matrixAssembly.ts:191-195 | reports the first column whose layer is out of range; otherwise every column's kx (X) and ky (Y) springs are added in list order |
| MatrixAssembly.AddWall | src/core/analysis/matrixAssembly.ts:197-212 | checks layer, then chara, then axis, leaving the sums untouched on error; otherwise adds the wall's stiffness at its midpoint with zero damping |
| MatrixAssembly.AddWalls | src/core/analysis/matrixAssembly.ts:197-212 | reports the first failing wall; otherwise applies every wall in order |
| MatrixAssembly.AddPanels | src/core/analysis/matrixAssembly.ts:214-226 | reports the first out-of-range panel; otherwise adds each non-empty panel's k at its centroid, skipping empty ones |
| MatrixAssembly.AddBraces | src/core/analysis/matrixAssembly.ts:228-232 | reports the first out-of-range brace; otherwise adds k only when isEigenEffectK, and always c |
| MatrixAssembly.AddMassDamper | src/core/analysis/matrixAssembly.ts:234-251 | on a valid layer puts weight/g on the story's DX and DY mass entries, and adds the tuned X and Y springs and dashpots |
| MatrixAssembly.AddDamperMass | src/core/analysis/matrixAssembly.ts:236-239 | adds the damper mass to diagonal entries 3s and 3s+1 only |
| MatrixAssembly.AddMassDampers | src/core/analysis/matrixAssembly.ts:234-251 | reports the first out-of-range damper; otherwise the mass diagonal grows by every damper's mass and the sums by their springs, in order |
| MatrixAssembly.AddStoryMasses | src/core/analysis/matrixAssembly.ts:253-260 | adds weight/g on entries 3i and 3i+1 and wMoment/g on 3i+2, and nothing off the diagonal |
| MatrixAssembly.DofLabels | src/core/analysis/matrixAssembly.ts:24-26 | 3n labels, DX_s, DY_s, RZ_s at 3(s−1), 3(s−1)+1, 3(s−1)+2 |
| MatrixAssembly.BaseShapeOf | src/core/analysis/matrixAssembly.ts:132-142 | the story count, a copy of zLevel, and one mass center per wCenter entry numbered from 1 |
| MatrixAssembly.AssemblyCheck | src/core/analysis/matrixAssembly.ts:155-272 | on success the shape checks, every element check and the non-negative damping ratio all hold |
| MatrixAssembly.ShapeCheck | src/core/analysis/matrixAssembly.ts:155-170 | succeeds exactly when structInfo is present, massN ≥ 1, and weight, wMoment and wCenter all have length massN |
| MatrixAssembly.AfterElements | src/core/analysis/matrixAssembly.ts:191-251 | the element loops keep one sum record per story |
| MatrixAssembly.AddElements | src/core/analysis/matrixAssembly.ts:191-251 | reports the first element error in loop order; otherwise the story sums are the five folds and the mass grows by the damper masses on the diagonal only |
| MatrixAssembly.AddStoryBlocks | src/core/analysis/matrixAssembly.ts:262-266 | turns zero stiffness and damping matrices into the shear-building matrices of the story blocks |
| MatrixAssembly.AddMasses | src/core/analysis/matrixAssembly.ts:191-260 | on success the story sums are those of all elements and the mass matrix is the lumped diagonal mass |
| MatrixAssembly.BuildMatrices | src/core/analysis/matrixAssembly.ts:172-268 | fails exactly with the element error; otherwise fresh matrices that satisfy `Assembled` |
| MatrixAssembly.AssembleAnalysisMatrices | src/core/analysis/matrixAssembly.ts:151-284 | fails exactly when `AssemblyCheck` fails, with its error; otherwise the story count, 3n×3n mass, stiffness and damping, labels and base shape as specified |
| StoryBlocks.DirectionalEnergy | src/core/analysis/matrixAssembly.ts:28-62 | an X contribution at offset dy (or a Y one at dx) adds v·(movement along the direction)² to its kind's quadratic form and leaves the other kind untouched |
| StoryBlocks.XSpringEnergy | src/core/analysis/matrixAssembly.ts:41-50 | the X update kxx+=v, kxr+=−v·dy, krr+=v·dy² adds v·(ux − dy·rz)² |
| StoryBlocks.YSpringEnergy | src/core/analysis/matrixAssembly.ts:51-60 | the Y update kyy+=v, kyr+=v·dx, krr+=v·dx² adds v·(uy + dx·rz)² |
| StoryBlocks.NonNegativeSpring | src/core/analysis/matrixAssembly.ts:28-62 | a non-negative value never lowers its block's quadratic form |
| StoryBlocks.AddAt | src/core/analysis/matrixAssembly.ts:79-87 | adds sign·local block on block (a, b) and changes nothing else |
| StoryBlocks.AddStoryBlock | src/core/analysis/matrixAssembly.ts:64-107 | story 0 adds the block at (0,0) only; story s>0 adds it at (s,s) and (s−1,s−1) and subtracts it at (s,s−1) and (s−1,s) |
| StoryBlocks.StoryDeltaAt | src/core/analysis/matrixAssembly.ts:89-98 | the four blocks (one for story 0) a story touches, entry by entry |
| StoryBlocks.AccumulatedShear | src/core/analysis/matrixAssembly.ts:262-266 | scattering every story's block onto zero gives the shear-building matrix |
| StoryBlocks.ShearSymmetric | src/core/analysis/matrixAssembly.ts:71-75 | the shear-building matrix is symmetric |
| StoryBlocks.ShearBanded | src/core/analysis/matrixAssembly.ts:89-98 | floors two or more stories apart are not coupled |
| AssemblyProperties.CheckAllOk | src/core/analysis/matrixAssembly.ts:191-251 | an element loop passes exactly when each of its elements passes |
| AssemblyProperties.CheckAllFirstError | src/core/analysis/matrixAssembly.ts:191-251 | a failing loop reports the error of its first failing element |
| AssemblyProperties.ValidModelAssembles | src/io/buildingModel/normalize.ts:131-141 | a model meeting the normaliser's rules assembles with story count massN for any non-negative damping ratio |
| AssemblyProperties.NormalizedModelAssembles | src/io/buildingModel/normalize.ts:131-141 | the normaliser's output always passes the assembler's checks |
| AssemblyProperties.ValidModelRatioRule | src/core/analysis/matrixAssembly.ts:270-272 | on a valid model assembly fails exactly when the damping ratio is negative, with that message |
| AssemblyProperties.AssembledSymmetric | src/core/analysis/matrixAssembly.ts:262-266 | the assembled stiffness and damping matrices are symmetric |
| AssemblyProperties.AssembledBanded | src/core/analysis/matrixAssembly.ts:262-266 | stiffness and damping do not couple stories two or more apart |
| AssemblyProperties.DampersNoRotation | src/core/analysis/matrixAssembly.ts:236-239 | mass dampers never add to a rotational (3i+2) entry |
| AssemblyProperties.DampersMassNonNegative | src/core/analysis/matrixAssembly.ts:234-239 | dampers of non-negative weight add non-negative mass |
| AssemblyProperties.MassDiagonalPositive | src/core/analysis/matrixAssembly.ts:234-260 | with positive weights and moments the mass diagonal is positive |
| AssemblyProperties.RotationalMass | src/core/analysis/matrixAssembly.ts:253-260 | entry 3i+2 is wMoment_i/g |
| AssemblyProperties.TranslationalMass | src/core/analysis/matrixAssembly.ts:234-260 | entries 3i and 3i+1 are equal, and are weight_i/g plus the masses of the dampers on story i |
| AssemblyProperties.DampersTranslationalMass | src/core/analysis/matrixAssembly.ts:234-239 | the damper mass on entries 3i and 3i+1 is the sum over exactly the dampers of story i |
| AssemblyProperties.WallAddsNoDamping | src/core/analysis/matrixAssembly.ts:207-211 | a wall never changes any story's damping sums |
| RealEigen.PositiveEntriesSpec | src/core/analysis/modal.ts:47-49 | the filter keeps exactly the eigenvalues above 1e-10, each with its own index, indices increasing |
| RealEigen.SortedPositiveSpec | src/core/analysis/modal.ts:47-51 | after sorting: the same positive eigenvalues, each once, in non-decreasing order, at most one per raw value |
| RealEigen.EigenOrderFails | src/core/analysis/modal.ts:53-55 | the selection fails, with the "no positive eigenvalue" message, exactly when no eigenvalue exceeds 1e-10 |
| RealEigen.EigenOrderIndices | src/core/analysis/modal.ts:47-51 | every selected index is a position of the raw eigenvalues |
| RealEigen.EigenOrderSpec | src/core/analysis/modal.ts:47-55 | a successful selection lists indices of positive eigenvalues, no more than there are raw eigenvalues, in non-decreasing order and lists every positive one |
| RealEigen.Column | src/core/analysis/modal.ts:64 | entry i of the column is row i's entry at the mode index |
| RealEigen.MassNorm | src/core/analysis/modal.ts:30-32 | a positive number whose square is max(φᵀMφ, 1e-18) |
| RealEigen.MassNormalizedUnit | src/core/analysis/modal.ts:63-69 | a normalised mode has φᵀMφ = 1 whenever its raw mass norm is above the floor |
| RealEigen.EigenModes | src/core/analysis/modal.ts:47-74 | one kept eigenvector per kept eigenvalue |
| RealEigen.EigenModesSpec | src/core/analysis/modal.ts:34-75 | fails exactly when no eigenvalue exceeds 1e-10; otherwise 1..d positive non-decreasing eigenvalues, d-entry modes, unit mass norm above the floor |
| RealEigen.NormalizeMode | src/core/analysis/modal.ts:64-66 | a column divided by its mass norm |
| RealEigen.SolveGeneralizedEigen | src/core/analysis/modal.ts:60-74 | the push loop over the kept indices yields exactly `EigenModes` |
| RealEigen.CreateParticipationVector | src/core/analysis/modal.ts:77-83 | length 3n; 1 at index 3i (X) or 3i+1 (Y) for every story; 0 at every other index |
| RealEigen.EffectiveMassRatio | src/core/analysis/modal.ts:178-179 | non-negative; γ²/mR (ratio·mR = γ²) when mR > 0, else 0 |
| RealEigen.ParticipationOf | src/core/analysis/modal.ts:167-180 | one factor and one non-negative ratio per mode and direction |
| RealEigen.DotProduct | src/core/analysis/modal.ts:20-24 | the accumulator loop computes the dot product |
| RealEigen.MatrixVector | src/core/analysis/modal.ts:26-28 | one dot product per row |
| RealEigen.FactorAndRatio | src/core/analysis/modal.ts:173-179 | γ = φ·(M ι) and its effective mass ratio |
| RealEigen.ParticipationFactors | src/core/analysis/modal.ts:172-180 | the participation loop pushes exactly the factors and ratios of `ParticipationOf` |
| RealEigen.AnchorIndex | src/core/analysis/modal.ts:90 | the first index whose magnitude exceeds 1e-10, every earlier entry being at most 1e-10 |
| RealEigen.ReadableModes | src/core/analysis/modal.ts:85-94 | one readable mode per mode, each as long as its mode |
| RealEigen.ReadableModeSameShape | src/core/analysis/modal.ts:85-94 | a readable mode is its mode times a non-zero factor |
| RealEigen.ReadableModeSpec | src/core/analysis/modal.ts:85-94 | a mode with largest magnitude below 1e-12 is copied unchanged; any other has largest magnitude exactly 1 and a positive anchor entry |
| RealEigen.QuotientsMax | src/core/analysis/modal.ts:92 | dividing by the largest magnitude, with or without a sign flip, leaves a largest magnitude of 1 |
| RealAnalysis.DofValues | src/core/analysis/modal.ts:100-106 | one value per mode: the mode's entry at the degree of freedom, 0 when the mode is too short |
| RealAnalysis.StoryRows | src/core/analysis/modal.ts:109-112 | a story's three rows, δx, δy, θz |
| RealAnalysis.EigenRows | src/core/analysis/modal.ts:96-116 | 3·storyCount rows |
| RealAnalysis.ValuesAt | src/core/analysis/modal.ts:100-106 | the fill loop gives `DofValues` |
| RealAnalysis.BuildEigenRows | src/core/analysis/modal.ts:96-116 | the top-down push loop gives `EigenRows` |
| RealAnalysis.EigenRowsFromAt | src/core/analysis/modal.ts:108-113 | row 3q+a of the rows from story L down belongs to story L−q and axis a |
| RealAnalysis.EigenRowOfDof | src/core/analysis/modal.ts:108-113 | story s+1, axis a sits at row 3(n−1−s)+a, labelled M{s+1}-δx/δy/θz, holding every mode's value for that DOF |
| RealAnalysis.EigenRowLabelsDistinct | src/core/analysis/modal.ts:110-112 | different rows carry different labels |
| RealAnalysis.EigenRowLabelInjective | src/core/analysis/modal.ts:110-112 | a label determines its story and axis |
| RealAnalysis.FrequenciesOf | src/core/analysis/modal.ts:159 | one frequency per kept eigenvalue |
| RealAnalysis.FrequenciesSpec | src/core/analysis/modal.ts:159-160 | positive non-decreasing eigenvalues give positive non-decreasing frequencies, with 2πf = √λ |
| RealAnalysis.PositiveOmegas | src/core/analysis/modal.ts:127 | the filter keeps only entries above 1e-12, never more than it was given |
| RealAnalysis.PositiveOmegasKeeps | src/core/analysis/modal.ts:127 | a list whose entries all pass the filter is kept whole |
| RealAnalysis.TwoModeRatio | src/core/analysis/modal.ts:135-140 | the two-frequency α, β give damping ratio ζ at both ω₁ and ω₂ |
| RealAnalysis.OneModeRatio | src/core/analysis/modal.ts:133-134 | α = 2ζω₁, β = 0 gives damping ratio ζ at ω₁ |
| RealAnalysis.RayleighMatchesTargets | src/core/analysis/modal.ts:118-149 | the chosen coefficients reach the target ratio at the first kept frequency and, when present, the second |
| RealAnalysis.CopyMatrix | src/core/analysis/modal.ts:124 | a fresh matrix equal entry by entry to the damping matrix |
| RealAnalysis.AddProportionalRow | src/core/analysis/modal.ts:143-145 | row i gains αM + βK; every other row is unchanged |
| RealAnalysis.AddProportional | src/core/analysis/modal.ts:142-146 | every entry gains αM + βK |
| RealAnalysis.AddRayleighDamping | src/core/analysis/modal.ts:118-149 | a fresh dof×dof matrix: each entry is c + αM + βK, or c when ratio ≤ 0 or no ω passes 1e-12; the input matrices are not modified |
| RealAnalysis.AssembledRows | src/core/analysis/modal.ts:155-156 | the solver is given the model's mass and stiffness matrices |
| RealAnalysis.ModelEigenModes | src/core/analysis/modal.ts:156 | one eigenvector per kept eigenvalue |
| RealAnalysis.BuildModal | src/core/analysis/modal.ts:157-195 | the frequency, participation and table steps build the `modal` object of `ModalOfModes` |
| RealAnalysis.ApplyRayleighDamping | src/core/analysis/modal.ts:197 | replaces the damping matrix with the Rayleigh copy, leaving mass and stiffness unchanged |
| RealAnalysis.AnalyzeRealEigen | src/core/analysis/modal.ts:151-203 | fails exactly as `RealModal` does; otherwise the `modal` result of `RealModal` and fresh matrices of the model whose damping has Rayleigh terms for the reported frequencies |
| RealAnalysis.RayleighDampedRows | src/core/analysis/modal.ts:185-197 | after the analysis, mass and stiffness are the model's and damping is the Rayleigh-damped matrix |
| RealAnalysis.OmegaAboveFloor | src/core/analysis/modal.ts:127 | an eigenvalue above 1e-10 gives a circular frequency above 1e-12 |
| RealAnalysis.EigenRowsShape | src/core/analysis/modal.ts:96-116 | every table row is plainly labelled and has one value per mode |
| RealAnalysis.ModalFromMatricesErrors | src/core/analysis/modal.ts:53-55 | from given matrices, fails exactly when no eigenvalue exceeds 1e-10, with the solver's message |
| RealAnalysis.ModalFromMatricesSpec | src/core/analysis/modal.ts:157-195 | 1..3n modes, positive non-decreasing frequencies, one factor and one non-negative ratio per mode, 3n table rows |
| RealAnalysis.ModalFromMatricesTable | src/core/analysis/modal.ts:182-183 | the table row of story s+1 and axis a holds the readable modes' entries |
| RealAnalysis.ModalFromMatricesRayleigh | src/core/analysis/modal.ts:160-197 | the reported frequencies give back ω = 2πf, all above 1e-12 |
| RealAnalysis.RealModalErrors | src/core/analysis/modal.ts:155-156 | an assembly error is reported first; otherwise the analysis fails exactly when no eigenvalue exceeds 1e-10 |
| RealAnalysis.RealModalSpec | src/core/analysis/modal.ts:151-195 | a successful n-story analysis: 1..3n modes with positive non-decreasing frequencies, per-mode factors and non-negative ratios, the model's base shape, 3n labelled rows |
| RealAnalysis.RealModalWritable | src/core/analysis/modal.ts:185-195 | the modal result is one the modal.dat writer accepts and its reader gives back |
| RealAnalysis.RealModalEigenTable | src/core/analysis/modal.ts:182-183 | row (s+1, a) holds every readable mode's entry for that degree of freedom |
| RealAnalysis.RealModalRayleigh | src/core/analysis/modal.ts:197 | with a positive ratio, Rayleigh damping reaches the target at the first and, if present, second mode |
| RealAnalysis.RayleighDampedSymmetric | src/core/analysis/modal.ts:142-146 | the Rayleigh-damped damping matrix is symmetric |
| RealAnalysis.ValidModelRealModal | src/core/analysis/modal.ts:151-156 | a valid model with a non-negative ratio fails only for want of a positive eigenvalue |
| LinAlg.Rows | src/core/analysis/modal.ts:16-18 | the rows of an array matrix, entry for entry |
| LinAlg.MatVec | src/core/analysis/modal.ts:26-28 | one entry per row of the matrix |
| LinAlg.AbsMaxIsMax | src/core/analysis/modal.ts:87 | the reduce is the largest magnitude: ≥ 0, an upper bound of every entry, attained when non-empty |
| LinAlg.QuadraticScale | src/core/analysis/modal.ts:30-32 | (cv)ᵀM(cv) = c²·vᵀMv |
| LinAlg.MatVecScale | src/core/analysis/modal.ts:26-28 | matVec is linear in its vector |
| ComplexEigen.ToComplexValue | src/core/analysis/complex.ts:10-33 | a number or a record with numeric `re` and `im` is accepted, anything else fails with the "unsupported complex number representation" message |
| ComplexEigen.ToComplexValueReadsBack | src/core/analysis/complex.ts:10-30 | `{re, im}` reads back as that complex value; a number x as x + 0i |
| ComplexEigen.ToComplexValues | src/core/analysis/complex.ts:127 | every entry converted in order, or failure exactly when some entry cannot be converted |
| ComplexEigen.MaxAmplitudeIsMax | src/core/analysis/complex.ts:66 | the reduce is the largest amplitude: ≥ 0, above every entry's, attained when non-empty |
| ComplexEigen.PhaseAnchor | src/core/analysis/complex.ts:72 | the first entry of amplitude above 1e-12, every earlier one at most 1e-12 |
| ComplexEigen.RescaledFacts | src/core/analysis/complex.ts:75-78 | rescaling multiplies every entry by sign/max and divides every amplitude by max |
| ComplexEigen.NormalizeModeVectorScaled | src/core/analysis/complex.ts:65-79 | a vector of largest amplitude below 1e-15 is copied unchanged; any other is multiplied by one non-zero factor |
| ComplexEigen.NormalizeModeVectorUnit | src/core/analysis/complex.ts:65-79 | a vector that is not negligible ends with every amplitude ≤ 1 and one amplitude exactly 1 |
| ComplexEigen.NormalizeModeVectorAnchor | src/core/analysis/complex.ts:71-73 | after normalisation the anchor entry's real part is non-negative |
| ComplexEigen.ComponentLabelIsDofLabel | src/core/analysis/complex.ts:81-87 | component label i is the i-th degree-of-freedom label of the assembled matrices (DX_s, DY_s, RZ_s) |
| ComplexEigen.FormatComplexVectors | src/core/analysis/complex.ts:89-98 | one labelled component per displacement, component k labelled as DOF k |
| ComplexEigen.FormatComplexVectorsAmplitudes | src/core/analysis/complex.ts:89-98 | the written amplitudes are at most one and one of them is one, unless the mode is negligible |
| ComplexEigen.DampingRatioPercentSpec | src/core/analysis/complex.ts:100-104 | a percentage in [-100, 100]; for a modulus of λ of at least 1e-9 positive exactly when Re λ < 0; a pole −ζ·abs(λ) + i… gives 100ζ |
| ComplexEigen.CandidateOf | src/core/analysis/complex.ts:122-141 | a pushed mode has number 0, Im λ > 1e-9, frequency Im λ / 2π > 0, its damping ratio and dof labelled components |
| ComplexEigen.CandidateKept | src/core/analysis/complex.ts:124-131 | a readable eigenpair is pushed exactly when Im λ > 1e-9 and its vector holds at least dof entries |
| ComplexEigen.Candidates | src/core/analysis/complex.ts:120-141 | at most one pushed mode per eigenpair, each valid and unnumbered |
| ComplexEigen.CandidatesOk | src/core/analysis/complex.ts:122-127 | the loop succeeds exactly when every eigenpair's values can be read |
| ComplexEigen.CandidatesPrefixErr | src/core/analysis/complex.ts:122-127 | the first eigenpair that cannot be read decides the loop's error |
| ComplexEigen.Lowest | src/core/analysis/complex.ts:143-144 | min(modeLimit, #modes) modes |
| ComplexEigen.Numbered | src/core/analysis/complex.ts:145-147 | as many modes, numbered 1, 2, … |
| ComplexEigen.NumberedLowestValid | src/core/analysis/complex.ts:143-147 | the sorted, cut and numbered modes are valid, numbered from one, in non-decreasing frequency |
| ComplexEigen.UnnumberNumbered | src/core/analysis/complex.ts:145-147 | numbering changes nothing but the mode numbers |
| ComplexEigen.NumberedLowestSplits | src/core/analysis/complex.ts:143-147 | the kept modes and the dropped ones make up the pushed modes, and no dropped mode is lower than a kept one |
| ComplexEigen.ParseComplexEigsSpec | src/core/analysis/complex.ts:106-154 | a successful parse returns 1..modeLimit modes numbered from one in non-decreasing frequency, each an oscillating pole with dof labelled components |
| ComplexEigen.ParseKeepsLowest | src/core/analysis/complex.ts:143-147 | the returned modes are the modeLimit lowest-frequency pushed modes, as a split of the pushed multiset |
| ComplexEigen.ParseComplexEigsErrors | src/core/analysis/complex.ts:116-151 | a result without `values`/`eigenvectors` arrays fails as invalid; otherwise the parse fails exactly when no mode was pushed or the limit is 0, with the "no valid complex mode" message |
| ComplexEigen.NumberModes | src/core/analysis/complex.ts:145-147 | the numbering loop gives `Numbered` |
| ComplexEigen.CollectCandidates | src/core/analysis/complex.ts:120-141 | the push loop gives `Candidates` |
| ComplexEigen.ParseComplexEigsResult | src/core/analysis/complex.ts:106-154 | the imperative parse equals `ParseComplexEigs` |
| ComplexEigen.StateRows | src/core/analysis/complex.ts:43-58 | a 2dof × 2dof matrix |
| ComplexEigen.FillStateRow | src/core/analysis/complex.ts:51-56 | row dof+i holds −M⁻¹K then −M⁻¹C; every other row is unchanged |
| ComplexEigen.BuildStateMatrix | src/core/analysis/complex.ts:35-59 | a fresh 2dof × 2dof array equal to `StateRows`: identity above right, −M⁻¹K and −M⁻¹C below |
| ComplexEigen.StateEquation | src/core/analysis/complex.ts:35-59 | the state matrix maps (u, u̇) to (u̇, −(M⁻¹K u + M⁻¹C u̇)), the first-order form of M ü + C u̇ + K u = 0 |
| ComplexEigen.MatMul | src/core/analysis/complex.ts:40-41 | the product of two d × d matrices is d × d |
| ComplexEigen.SolveComplex | src/core/analysis/complex.ts:161-180 | the imperative steps equal `ComplexFromMatrices` |
| ComplexEigen.AnalyzeComplexEigen | src/core/analysis/complex.ts:156-181 | the imperative analysis equals `ComplexModal` |
| ComplexEigen.ValidModesDamping | src/core/analysis/complex.ts:136 | every reported damping ratio is between −100 and 100 percent |
| ComplexEigen.ValidModesLabels | src/core/analysis/complex.ts:89-97 | the component labels of an n-story model's modes are its DOF labels |
| ComplexEigen.ComplexFromMatricesSpec | src/core/analysis/complex.ts:161-180 | keeps the real result and base shape, returns valid modes; a singular mass matrix fails with the inverse's error |
| ComplexEigen.ComplexModalSpec | src/core/analysis/complex.ts:156-181 | fails with the real analysis' error when that fails; on success carries the real modal result, the model's base shape and 1..3n valid modes labelled as the degrees of freedom |
| TimeHistory.ValidateWave | src/core/analysis/resp.ts:45-56 | accepts exactly the valid waves; dt ≤ 0, fewer than two samples and unequal array lengths each fail with their own message, in that order |
| TimeHistory.NewmarkParameters | src/core/analysis/resp.ts:168-172 | β and γ default to 0.25 and 0.5; accepted exactly when both are positive, otherwise the "beta and gamma" error |
| TimeHistory.CreateInfluenceVectors | src/core/analysis/resp.ts:32-43 | two 3n vectors: rx is 1 exactly at X entries (k % 3 = 0), ry exactly at Y entries, 0 elsewhere; the same vectors the modal participation uses |
| TimeHistory.GroundVector | src/core/analysis/resp.ts:65 | entry k is rx[k]·agx + ry[k]·agy |
| TimeHistory.GroundVectorOfInfluence | src/core/analysis/resp.ts:65 | through the influence vectors the ground acceleration is agx on X entries, agy on Y entries and 0 on rotations |
| TimeHistory.AbsoluteAcceleration | src/core/analysis/resp.ts:243-249 | the story loop fills `AbsoluteAcc` |
| TimeHistory.AbsoluteAccIsRelativePlusGround | src/core/analysis/resp.ts:243-249 | the absolute acceleration is the relative one plus the influence-spread ground acceleration; X gets agx, Y agy, rotation nothing |
| TimeHistory.AddVectors | src/core/analysis/resp.ts:72-74 | entry-by-entry sum over the first vector's indices |
| TimeHistory.StoryLabels | src/core/analysis/resp.ts:107-112 | six names per story block |
| TimeHistory.MiddleLabels | src/core/analysis/resp.ts:106-113 | six names for each of stories 2..n |
| TimeHistory.BuildHeader | src/core/analysis/resp.ts:96-121 | the push loop gives `Header` |
| TimeHistory.MiddleValues | src/core/analysis/resp.ts:140-148 | six values for each of stories 2..n |
| TimeHistory.BuildRecordRow | src/core/analysis/resp.ts:123-159 | the push loop gives `RecordRow` |
| TimeHistory.MiddleLabelsAt | src/core/analysis/resp.ts:106-113 | block j−1 of the middle names is story j's |
| TimeHistory.MiddleValuesAt | src/core/analysis/resp.ts:140-148 | block j−1 of the middle values is story j's, from DOF 3(j−1) |
| TimeHistory.HeaderLayout | src/core/analysis/resp.ts:96-121 | 6n+6 names: Time(s), story 1's five, story j's block at 6j−6..6j, the `_R` block last; with no stories Time(s) and the roof block |
| TimeHistory.RecordRowLayout | src/core/analysis/resp.ts:123-159 | 6n+6 values: the time, story 1's displacements and X/Y accelerations, story j's block at 6j−6..6j, the top story's block again last |
| TimeHistory.RecordMatchesHeader | src/core/analysis/resp.ts:96-159 | every record has as many values as the header has names |
| TimeHistory.RoofMirrorsTopStory | src/core/analysis/resp.ts:114-156 | the roof block repeats the top story's quantities and, for two stories or more, its values |
| TimeHistory.ColumnOf | src/core/analysis/resp.ts:257-264 | column i of the records, record by record |
| TimeHistory.ColumnMax | src/core/analysis/resp.ts:255-264 | fails with the row-length message exactly when some record's length differs from the column count |
| TimeHistory.ColumnMaxIsMax | src/core/analysis/resp.ts:256-264 | each column maximum is ≥ 0, bounds every magnitude in its column and is attained when there are records |
| TimeHistory.UpdateColumnMax | src/core/analysis/resp.ts:261-263 | every column maximum becomes max(old, abs(row[i])) |
| TimeHistory.ColumnMaxAbs | src/core/analysis/resp.ts:255-264 | the loop that stops at the first record of another length gives `ColumnMax` |
| TimeHistory.NewmarkConstantsConsistent | src/core/analysis/resp.ts:187-192 | a1 = γ·a2, a4 = γ/β − 1 and a5 = dt(γ/2β − 1) agree, for every β > 0 and dt > 0, with the velocity update |
| TimeHistory.EffectiveStiffness | src/core/analysis/resp.ts:194-199 | a d × d matrix |
| TimeHistory.FillEffectiveRow | src/core/analysis/resp.ts:196-198 | row i becomes k + a1·c + a0·m; every other row is unchanged |
| TimeHistory.BuildEffectiveStiffness | src/core/analysis/resp.ts:194-199 | a fresh d × d array equal to `K + a1·C + a0·M` |
| TimeHistory.ComputeLoadVector | src/core/analysis/resp.ts:58-70 | the load loop gives −M(rx·agx + ry·agy) |
| TimeHistory.InitialAcc | src/core/analysis/resp.ts:211-218 | fails with the "mass matrix diagonal" message exactly when some abs(m_ii) < 1e-12; otherwise every a_i solves m_ii·a_i + (Cv)_i + (Ku)_i = p_i |
| TimeHistory.QuotientsBalance | src/core/analysis/resp.ts:217 | each quotient balances its diagonal equation |
| TimeHistory.InitialAcceleration | src/core/analysis/resp.ts:211-218 | the loop, stopping at the first negligible mass, gives `InitialAcc` |
| TimeHistory.Initial | src/core/analysis/resp.ts:204-218 | the state at time 0 has 3n entries per vector |
| TimeHistory.Advance | src/core/analysis/resp.ts:226-241 | the Newmark update keeps 3n entries per vector |
| TimeHistory.RecordsUpToNext | src/core/analysis/resp.ts:251 | one more sample appends its record |
| TimeHistory.RecordsAt | src/core/analysis/resp.ts:222-252 | one record per sample time; record k is sample k's |
| TimeHistory.NewmarkStep | src/core/analysis/resp.ts:226-241 | the `step > 0` branch gives `Advance` |
| TimeHistory.PushStep | src/core/analysis/resp.ts:222-252 | one loop pass gives the state of the step and appends its record |
| TimeHistory.IntegrationStep | src/core/analysis/resp.ts:223-251 | one loop pass gives the state and record of the step |
| RespAnalysis.Respond | src/core/analysis/resp.ts:187-280 | the imperative body from the constants to the result equals `Response` |
| RespAnalysis.RecordsFitHeader | src/core/analysis/resp.ts:222-258 | one record per sample, each 6n+6 wide |
| RespAnalysis.FileOfSpec | src/core/analysis/resp.ts:254-280 | the file exists exactly when every record has 6n+6 values (else the row-length error); it has the header, the records unchanged, the meta data and per-column maxima |
| RespAnalysis.ResponseSpec | src/core/analysis/resp.ts:200-280 | fails exactly on the factorisation's error, a negligible mass diagonal, or a non positive-definite K_eff, with those errors in that order; otherwise the file of the records of every sample |
| RespAnalysis.Integrate | src/core/analysis/resp.ts:220-252 | the integration loop gives one record per sample, `Records` |
| RespAnalysis.ResponseFile | src/core/analysis/resp.ts:254-280 | a result has the given base shape and meta data, the 6n+6 header, one 6n+6 record per sample and the column maxima |
| RespAnalysis.ResponseRecordsMotion | src/core/analysis/resp.ts:222-252 | record k is state k's record, and with a diagonal mass and an exact solve that state satisfies M(a + r·ag) + Cv + Ku = 0 row by row |
| RespAnalysis.TimeHistoryProblem | src/core/analysis/resp.ts:166-185 | a problem built after the checks has the wave, the model's story count and the model's mass matrix |
| RespAnalysis.ResponseOf | src/core/analysis/resp.ts:161-280 | an earlier error is passed on; otherwise the response of the problem with the model's base shape and damper count |
| RespAnalysis.Problem | src/core/analysis/resp.ts:174-185 | a well-formed problem for the model's story count |
| TimeHistoryAnalysis.AnalyzeTimeHistory | src/core/analysis/resp.ts:161-281 | the method equals `TimeHistoryResponse` |
| TimeHistoryAnalysis.PrepareProblem | src/core/analysis/resp.ts:166-185 | the checks and the real analysis give `TimeHistoryProblem` and the model's base shape |
| TimeHistoryAnalysis.ProblemOfMatrices | src/core/analysis/resp.ts:178-185 | the matrices the eigen analysis returns make the problem, with the model's base shape |
| TimeHistoryAnalysis.TimeHistoryProblemSpec | src/core/analysis/resp.ts:166-176 | the wave check, then the Newmark parameters, then the eigen analysis, each failure with its own error |
| TimeHistoryAnalysis.TimeHistoryErrors | src/core/analysis/resp.ts:161-281 | the analysis fails exactly when a check before the integration or the response fails, with that error |
| TimeHistoryAnalysis.TimeHistoryFile | src/core/analysis/resp.ts:270-280 | a result carries the base shape, the meta data (story count, dt, damper count), the header, one record per sample and the column maxima |
| TimeHistoryAnalysis.TimeHistoryMotion | src/core/analysis/resp.ts:222-252 | with an exact solve, record k is the Newmark state at sample k and that state satisfies the equation of motion with absolute accelerations |
| Motion.DotEffectiveRow | src/core/analysis/resp.ts:197 | an effective row against x is k·x + c·(a1 x) + m·(a0 x) |
| Motion.StepForms | src/core/analysis/resp.ts:232-236 | the new acceleration is a0·u' − termM and the new velocity a1·u' − termC |
| Motion.RowBalance | src/core/analysis/resp.ts:227-236 | one equation-of-motion row balances after a step whose effective row is solved |
| Motion.AdvanceBalanced | src/core/analysis/resp.ts:226-241 | whatever the prior state, the updated state satisfies M a + C v + K u = p once the solver solves K_eff exactly |
| Motion.SolvedSystem | src/core/analysis/resp.ts:229-231 | an exact solve of K_eff gives K u' + C(a1 u') + M(a0 u') = p + M·termM + C·termC row by row |
| Motion.InitialBalanced | src/core/analysis/resp.ts:204-218 | the initial state satisfies the equation of motion when the mass matrix is diagonal |
| Motion.EquationOfMotion | src/core/analysis/resp.ts:204-241 | every state of the integration satisfies M a + C v + K u = p under its own step's load |
| Motion.AbsoluteEquationOfMotion | src/core/analysis/resp.ts:243-251 | with absolute accelerations the equation of motion has no load |
| Motion.LoadIsGroundInertia | src/core/analysis/resp.ts:58-70 | the load of step k is −M·r·ag |
| Motion.MassRowsDiagonal | src/core/analysis/matrixAssembly.ts:253-260 | the assembled mass matrix is diagonal |
| Normalize.CheckFrom | src/io/buildingModel/normalize.ts:55-61 | the indexed loop passes exactly when every check from `start` on passes; otherwise it fails with the error of one of them |
| Normalize.CheckEachAll | src/io/buildingModel/normalize.ts:111-128 | checking every entry with an element test passes exactly when every element passes |
| Normalize.CheckLayerRange | src/io/buildingModel/normalize.ts:4-18 | passes exactly when the layer is an integer ≥ 1 and, when there is a maximum, ≤ it; otherwise a format error |
| Normalize.MonotonicFrom | src/io/buildingModel/normalize.ts:45-51 | passes exactly when zLevel never decreases from index i on |
| Normalize.ValidateStructInfo | src/io/buildingModel/normalize.ts:20-52 | passes exactly when massN is an integer ≥ 1, zLevel has massN+1 entries, weight, wMoment and wCenter massN, and zLevel is non-decreasing |
| Normalize.FloorLayerCheck | src/io/buildingModel/normalize.ts:111-113 | a floor passes exactly when its layer is in 1..massN+1 |
| Normalize.ColumnLayerCheck | src/io/buildingModel/normalize.ts:114-116 | a column passes exactly when its layer is in 1..massN |
| Normalize.WallLayerCheck | src/io/buildingModel/normalize.ts:117-119 | a wall passes exactly when its layer is in 1..massN |
| Normalize.MassDamperLayerCheck | src/io/buildingModel/normalize.ts:120-122 | a mass damper passes exactly when its layer is in 1..massN |
| Normalize.BraceDamperLayerCheck | src/io/buildingModel/normalize.ts:123-125 | a brace damper passes exactly when its layer is in 1..massN |
| Normalize.PanelLayerCheck | src/io/buildingModel/normalize.ts:126-128 | a panel passes exactly when its layer is in 1..massN |
| Normalize.ValidateLayerRules | src/io/buildingModel/normalize.ts:106-129 | passes exactly when every element's layer is in range |
| Normalize.FloorShapeCheck | src/io/buildingModel/normalize.ts:55-61 | a floor passes exactly when it has at least 3 points |
| Normalize.PanelShapeCheck | src/io/buildingModel/normalize.ts:63-69 | a panel passes exactly when it has at least 2 points |
| Normalize.WallShapeCheck | src/io/buildingModel/normalize.ts:71-83 | a wall passes exactly when it is axis-aligned and of non-zero length |
| Normalize.ValidateGeometryRules | src/io/buildingModel/normalize.ts:54-84 | passes exactly when every floor, panel and wall has a valid shape |
| Normalize.WallReferencesCheck | src/io/buildingModel/normalize.ts:86-104 | passes exactly when wallCharaDB names are unique and every wall's name is one of them |
| Normalize.ValidateWallReferences | src/io/buildingModel/normalize.ts:86-104 | the set-growing scan and the lookup scan give `WallReferencesCheck` |
| Normalize.DuplicateStep | src/io/buildingModel/normalize.ts:88-95 | entry i fails on a name already seen, with the duplicate message, else the scan moves on with its name added |
| Normalize.ResolveStep | src/io/buildingModel/normalize.ts:97-103 | wall j fails on an unknown name, with the not-found message, else the scan moves on |
| Normalize.NormalizeBuildingModel | src/io/buildingModel/normalize.ts:131-149 | a success returns the sorted copy |
| Normalize.SortedCopySameElements | src/io/buildingModel/normalize.ts:132-141 | the sorted copy holds the same elements in every list |
| Normalize.NormalizeAcceptsValid | src/io/buildingModel/normalize.ts:131-149 | normalisation succeeds exactly on the valid models |
| Normalize.NormalizeChecksSortedCopy | src/io/buildingModel/normalize.ts:143-146 | normalisation succeeds exactly when the sorted copy is valid |
| Normalize.SortedCopyLayers | src/io/buildingModel/normalize.ts:144 | sorting does not change whether the layer rules hold |
| Normalize.SortedCopyGeometry | src/io/buildingModel/normalize.ts:145 | sorting does not change whether the geometry rules hold |
| Normalize.SortedCopyWalls | src/io/buildingModel/normalize.ts:146 | sorting does not change whether the wall names resolve |
| Normalize.NormalizeSortsStably | src/io/buildingModel/normalize.ts:132-141 | a success keeps structInfo and wallCharaDB, and each element list becomes a stable sort by layer of the input list (sorted, a permutation, equal layers in input order) |
| Normalize.NormalizeIdempotent | src/io/buildingModel/normalize.ts:131-149 | normalising a normalised model gives it back unchanged |
| Normalize.SortedCopyFixed | src/io/buildingModel/normalize.ts:132-141 | sorting a sorted copy changes nothing |
| Sorting.SortByPermutes | src/io/buildingModel/normalize.ts:134-140 | the sort by layer is a permutation of its input |
| Sorting.SortByIsSorted | src/io/buildingModel/normalize.ts:134-140 | the sort orders its result by layer |
| Sorting.SortByStable | src/io/buildingModel/normalize.ts:134-140 | among elements sharing a layer, the sort keeps the input order (Array.prototype.sort is stable) |
| Sorting.SortBySorted | src/io/buildingModel/normalize.ts:134-140 | sorting an already sorted list changes nothing |
| Sorting.SortByIdempotent | src/io/buildingModel/normalize.ts:134-140 | sorting twice is sorting once |
| Sorting.InsertWithKey | src/io/buildingModel/normalize.ts:134-140 | inserting an element appends it to the elements of its own key and leaves other keys alone |
| Values.LookupFound | src/io/buildingModel/validator.ts:103-104 | a field read finds a value exactly when some field has the name, and it finds that field's value |
| Values.LookupFirst | src/io/buildingModel/validator.ts:103 | the field at position i is the one read when no earlier field has its name |
| Values.ArrayNumbers | src/io/buildingModel/validator.ts:23-29 | `Number` of arrays: [] is 0, [x] is x, ["t"] is the parse of t, [null] is 0, [true] and two or more items are NaN |
| JsonValidator.ToFiniteNumber | src/io/buildingModel/validator.ts:23-29 | succeeds exactly when `Number(value)` is a finite number, and returns it |
| JsonValidator.ToInteger | src/io/buildingModel/validator.ts:31-37 | succeeds exactly on finite numbers with no fractional part, returning the number |
| JsonValidator.ToBoolean | src/io/buildingModel/validator.ts:39-47 | accepts a boolean or a string that trims and lower-cases to true/false, returning that value; fails on anything else |
| JsonValidator.ToNonEmptyString | src/io/buildingModel/validator.ts:49-54 | accepts exactly a string that is not whitespace only, returned untrimmed |
| JsonValidator.ToOptionalString | src/io/buildingModel/validator.ts:56-62 | absent is "", a string is itself, anything else fails |
| JsonValidator.ToStructType | src/io/buildingModel/validator.ts:64-67 | accepts exactly "R" and "DX", returning the matching type |
| JsonValidator.ToDirection | src/io/buildingModel/validator.ts:69-72 | accepts exactly "X" and "Y", returning the matching direction |
| JsonValidator.ParsePoint | src/io/buildingModel/validator.ts:74-82 | only a record is read as a point |
| JsonValidator.MapFrom | src/io/buildingModel/validator.ts:88-108 | the map succeeds exactly when every item parses, giving one result per item in order |
| JsonValidator.ParseNumberArray | src/io/buildingModel/validator.ts:84-89 | only an array is read, one number per item |
| JsonValidator.ParsePointArray | src/io/buildingModel/validator.ts:91-96 | only an array is read, one point per item |
| JsonValidator.ParseArrayField | src/io/buildingModel/validator.ts:98-109 | an absent field is [], a non-array field an error, an array is parsed item for item |
| JsonValidator.ParseStructInfo | src/io/buildingModel/validator.ts:111-125 | absent stays absent; anything present must be a record, read with an integer massN |
| JsonValidator.ParseFloor | src/io/buildingModel/validator.ts:127-135 | a floor is read from a record and has an integer layer |
| JsonValidator.ParseColumn | src/io/buildingModel/validator.ts:137-152 | a column is read from a record and has an integer layer |
| JsonValidator.ParseWallChara | src/io/buildingModel/validator.ts:154-167 | a wall characteristic is read from a record and has a name that is not blank |
| JsonValidator.ParseWall | src/io/buildingModel/validator.ts:169-183 | a wall is read from a record whose pos holds exactly two points; a readable pos of another length is the exactly-two-points error |
| JsonValidator.ParseMassDamper | src/io/buildingModel/validator.ts:185-197 | a mass damper is read from a record, has a non-blank name and an integer layer |
| JsonValidator.ParseBraceDamper | src/io/buildingModel/validator.ts:199-214 | a brace damper is read from a record and has an integer layer |
| JsonValidator.ParseDXPanel | src/io/buildingModel/validator.ts:216-226 | a panel is read from a record and has an integer layer |
| JsonValidator.ParseModelValue | src/io/buildingModel/validator.ts:228-243 | the model must be a record; structInfo is absent exactly when the field is; an absent list field is empty |
| JsonValidator.ParseJsonDocument | src/io/buildingModel/validator.ts:245-278 | accepts exactly a record owning format, version and model, with the exact format string and version 1, and returns the model field |
| JsonValidator.PointRoundTrip | src/io/buildingModel/validator.ts:74-82 | a written point reads back as itself |
| JsonValidator.PointsRoundTrip | src/io/buildingModel/validator.ts:91-96 | a written point list reads back as itself |
| JsonValidator.NumbersRoundTrip | src/io/buildingModel/validator.ts:84-89 | a written number list reads back as itself |
| JsonValidator.StructInfoRoundTrip | src/io/buildingModel/validator.ts:111-125 | a written structInfo with integer massN reads back as itself |
| JsonValidator.FloorRoundTrip | src/io/buildingModel/validator.ts:127-135 | a written floor reads back as itself |
| JsonValidator.ColumnRoundTrip | src/io/buildingModel/validator.ts:137-152 | a written column reads back as itself |
| JsonValidator.WallCharaRoundTrip | src/io/buildingModel/validator.ts:154-167 | a written wall characteristic reads back as itself |
| JsonValidator.WallRoundTrip | src/io/buildingModel/validator.ts:169-183 | a written wall reads back as itself |
| JsonValidator.MassDamperRoundTrip | src/io/buildingModel/validator.ts:185-197 | a written mass damper reads back as itself |
| JsonValidator.BraceDamperRoundTrip | src/io/buildingModel/validator.ts:199-214 | a written brace damper reads back as itself |
| JsonValidator.DXPanelRoundTrip | src/io/buildingModel/validator.ts:216-226 | a written panel reads back as itself |
| JsonValidator.ModelRoundTrip | src/io/buildingModel/validator.ts:228-243 | the written tree of a readable model reads back as the model |
| JsonValidator.DocumentRoundTrip | src/io/buildingModel/validator.ts:280-283 | the written document of a readable model reads back as the model |
| JsonValidator.JsonRoundTrip | src/io/buildingModel/serializer.ts:8-19 | serialising a model with non-blank names and parsing the text back gives the normalised model |
| JsonValidator.NormalizedReadable | src/io/buildingModel/parser.ts:14-15 | a normalised model with non-blank names meets everything the reader demands |
| XmlReader.FindIndex | src/io/buildingModel/xml.ts:42-48 | the position of a field whose name, without `@_` and lower-cased, is among the names, or the field count |
| XmlReader.FindIndexFirst | src/io/buildingModel/xml.ts:43-46 | no earlier field matches |
| XmlReader.FindValue | src/io/buildingModel/xml.ts:42-48 | a found value lies inside the record |
| XmlReader.FindValueFirst | src/io/buildingModel/xml.ts:42-48 | a value is found exactly when some field's normalised name matches, and it is the first such field's value |
| XmlReader.ElementFieldsFrom | src/io/buildingModel/xml.ts:35 | the element fields are exactly the fields whose names do not start with `@_`, in order (also lines 135, 157-158) |
| XmlReader.OnlyChild | src/io/buildingModel/xml.ts:37 | the only element field's value lies inside the record |
| XmlReader.Unbox | src/io/buildingModel/xml.ts:31-40 | a value that is not a single-element record, or no fuel left, is returned as is; otherwise the result lies strictly inside it |
| XmlReader.UnboxCompose | src/io/buildingModel/xml.ts:33-38 | unboxing a steps then b more is unboxing a + b steps |
| XmlReader.UnboxSingleRecord | src/io/buildingModel/xml.ts:31-40 | the six-pass loop gives `Unbox(value, 6)` |
| XmlReader.ToNumber | src/io/buildingModel/xml.ts:56-63 | accepts exactly a number or text whose trimmed form converts, returning the number; else a format error |
| XmlReader.ToInteger | src/io/buildingModel/xml.ts:65-71 | accepts exactly what `ToNumber` accepts with no fractional part |
| XmlReader.ToStringValue | src/io/buildingModel/xml.ts:73-80 | accepts exactly non-blank text, returned trimmed, or a number rendered as text |
| XmlReader.ToBooleanValue | src/io/buildingModel/xml.ts:82-94 | accepts a boolean, the numbers 0 and 1, or text trimming and lower-casing to true/1/false/0, with the matching value |
| XmlReader.ToStructType | src/io/buildingModel/xml.ts:96-100 | accepts exactly text reading "R" or "DX" |
| XmlReader.ToDirection | src/io/buildingModel/xml.ts:102-106 | accepts exactly text reading "X" or "Y" |
| XmlReader.NonEmptyTrimmed | src/io/buildingModel/xml.ts:120-123 | the comma tokens, trimmed, empty ones dropped, in order |
| XmlReader.NumberEntries | src/io/buildingModel/xml.ts:135-138 | one number per element field, succeeding exactly when every field converts |
| XmlReader.ToNumberArray | src/io/buildingModel/xml.ts:116-142 | absent is []; text gives one number per non-blank comma token; an array one per item |
| XmlReader.ToNonEmptyNumberArray | src/io/buildingModel/xml.ts:108-114 | a success is the number list, and it is not empty |
| XmlReader.ParsePoint | src/io/buildingModel/xml.ts:144-168 | only a record is a point; with x and y fields, the point is read from them |
| XmlReader.PointsNotInRecord | src/io/buildingModel/xml.ts:171-187 | absent is []; an array gives one point per item; any other non-record is an error |
| XmlReader.SinglePoint | src/io/buildingModel/xml.ts:182 | one point, read from the record itself |
| XmlReader.ParsePointArray | src/io/buildingModel/xml.ts:170-188 | corrected rule (see Findings): absent is [], an array one point per item, a scalar an error; a record without a point list is read as a single point |
| XmlReader.PointArrayCallsItself | src/io/buildingModel/xml.ts:175-185 | as written, a record with no point key and no x/y calls the function again with itself |
| XmlReader.PointArrayReadsRecordAsPoint | src/io/buildingModel/xml.ts:175-185 | the corrected reader reads that record as one point |
| XmlReader.PointFromElements | src/io/buildingModel/xml.ts:157-165 | a record without both x and y is read from its first two element fields |
| XmlReader.PointStepSound | src/io/buildingModel/xml.ts:170-188 | every step of the code as written that returns agrees with the corrected reader; one that recurses elsewhere keeps its result; it recurses on itself exactly for a record with no point list and no x/y |
| XmlReader.ValueArray | src/io/buildingModel/xml.ts:50-54 | absent is [], an array its items, anything else a one-item list |
| XmlReader.ReadCollection | src/io/buildingModel/xml.ts:190-207 | nothing for an absent, null or blank container; an array's items; a record's item(s) under the item keys, else the record alone; a scalar alone |
| XmlReader.ParseStructInfo | src/io/buildingModel/xml.ts:209-230 | a read structInfo has an integer massN and non-empty zLevel, weight and wMoment |
| XmlReader.ParseFloor | src/io/buildingModel/xml.ts:232-244 | a floor is read from a record, with an integer layer |
| XmlReader.ParseColumn | src/io/buildingModel/xml.ts:246-260 | a column is read from a record, with an integer layer |
| XmlReader.ParseWallChara | src/io/buildingModel/xml.ts:262-288 | a wall characteristic is read from a record; a missing memo is "" |
| XmlReader.ParseWall | src/io/buildingModel/xml.ts:290-306 | a wall is read from a record; its ends are the two points read; a readable point list of another length is an error |
| XmlReader.WallWithEnds | src/io/buildingModel/xml.ts:299-304 | the wall keeps the two points as its ends and has an integer layer |
| XmlReader.ParseMassDamper | src/io/buildingModel/xml.ts:308-324 | a mass damper is read from a record, with an integer layer |
| XmlReader.ParseBraceDamper | src/io/buildingModel/xml.ts:326-350 | a brace damper is read from a record, with an integer layer |
| XmlReader.ParseDXPanel | src/io/buildingModel/xml.ts:352-366 | a panel is read from a record, with an integer layer |
| XmlReader.ParseModel | src/io/buildingModel/xml.ts:435-451 | a model is read only from a record after unboxing, and always has a structInfo |
| XmlReader.Walk | src/io/buildingModel/xml.ts:368-406 | a found node is model-like; a model-like record is found at once; a non-record finds nothing |
| XmlReader.WalkFields | src/io/buildingModel/xml.ts:390-400 | whatever the walk over field values finds is model-like |
| XmlReader.WalkItems | src/io/buildingModel/xml.ts:391-395 | whatever the walk over array items finds is model-like |
| XmlReader.ParseEnvelope | src/io/buildingModel/xml.ts:408-433 | the model node is not falsy, and comes from the unboxed root when that is a record |
| XmlReader.CheckEnvelope | src/io/buildingModel/xml.ts:471-480 | passes exactly when a present format and version equal the JSON format's constants |
| XmlReader.ParseBuildingModelXml | src/io/buildingModel/xml.ts:453-483 | a result passed the envelope checks and is a valid normalised model |
| XmlReader.BooleanExtendsJson | src/io/buildingModel/xml.ts:82-94 | every value the JSON reader takes as a boolean, the XML reader takes as the same boolean |
| XmlReader.NumbersReadJsonTree | src/io/buildingModel/xml.ts:116-142 | a number list written as the JSON writer writes it reads back as itself |
| XmlReader.PointReadsJsonTree | src/io/buildingModel/xml.ts:144-155 | a point written as the JSON writer writes it reads back as itself |
| XmlReader.PointsReadJsonTree | src/io/buildingModel/xml.ts:170-174 | a point list written as the JSON writer writes it reads back as itself |
| XmlReader.NumberAgreesWithJson | src/io/buildingModel/xml.ts:56-57 | on numbers the XML and JSON readers agree |
| LegacyXml.LastSegmentOfFullName | src/io/buildingModel.ts:82-83 | the last dot-separated segment of every writer class name is its short name |
| LegacyXml.IsClassNameIff | src/io/buildingModel.ts:80-85 | a class name matches a writer class name exactly when it ends with that name's short name |
| LegacyXml.ClassOfFirst | src/io/buildingModel.ts:228-272 | the dispatch picks a kind exactly when the class name ends with its short name and with no short name of an earlier test |
| LegacyXml.ClassOfIff | src/io/buildingModel.ts:228-272 | the same, stated over the list of earlier kinds |
| LegacyXml.ClassOfNone | src/io/buildingModel.ts:228-273 | an object is ignored exactly when its class name ends with no short name at all |
| LegacyXml.ClassOfFullName | src/io/buildingModel.ts:26-35 | every writer class name is dispatched to its own kind (also lines 228-272) |
| LegacyXml.EarlierDoNotMatch | src/io/buildingModel.ts:26-35 | a name ending in a kind's short name ends in no earlier kind's short name |
| LegacyXml.PairsFromShape | src/io/buildingModel.ts:117-132 | pairing from i gives ⌊(count − i)/2⌋ points, point k made of the numbers at i+2k and i+2k+1 |
| LegacyXml.PairsOfCoordinates | src/io/buildingModel.ts:114-121 | pairing numbers written point after point gives the points back |
| LegacyXml.PairUp | src/io/buildingModel.ts:117-132 | the step-2 loop gives `PairsFrom` |
| LegacyXml.ParsePointArray | src/io/buildingModel.ts:114-121 | the loop gives `PointsOf`, ⌊count/2⌋ points |
| LegacyXml.ParseFloorValue | src/io/buildingModel.ts:123-134 | the method gives `FloorValueOf` |
| LegacyXml.FloorValueShape | src/io/buildingModel.ts:123-134 | fewer than three numbers give layer 1 and no points; otherwise the first number is the layer, followed by ⌊(count−1)/2⌋ points |
| LegacyXml.ParseBuildingModelXml | src/io/buildingModel.ts:214-283 | the dispatch loop and the sorts give `BuildingModelOf` |
| LegacyXml.ReadNodes | src/io/buildingModel.ts:228-273 | the dispatch loop gives `CollectNodes` |
| LegacyXml.Classify | src/io/buildingModel.ts:229-272 | the chain of class tests gives `ClassOf` |
| LegacyXml.ReadElement | src/io/buildingModel.ts:229-272 | the class test and reader give `ElementOf` |
| LegacyXml.AddElement | src/io/buildingModel.ts:231-270 | one pass's update is `Absorb` |
| LegacyXml.UnknownClassIgnored | src/io/buildingModel.ts:228-273 | an object of no known class is ignored |
| LegacyXml.LastStructInfoWins | src/io/buildingModel.ts:230-233 | the structure information is that of the last structure object, absent when there is none |
| LegacyXml.CollectsFloors | src/io/buildingModel.ts:234-241 | the floors collected are exactly the floor objects, in document order |
| LegacyXml.CollectsColumns | src/io/buildingModel.ts:242-252 | the columns collected are exactly the column objects, in document order |
| LegacyXml.CollectsWallCharas | src/io/buildingModel.ts:253-256 | the wall characteristics collected are exactly those objects, in document order |
| LegacyXml.CollectsWalls | src/io/buildingModel.ts:257-260 | the walls collected are exactly the wall objects, in document order |
| LegacyXml.CollectsMassDampers | src/io/buildingModel.ts:261-264 | the mass dampers collected are exactly those objects, in document order |
| LegacyXml.CollectsBraceDampers | src/io/buildingModel.ts:265-268 | the brace dampers collected are exactly those objects, in document order |
| LegacyXml.CollectsPanels | src/io/buildingModel.ts:269-272 | the panels collected are exactly the panel objects, in document order |
| LegacyXml.SortListsStable | src/io/buildingModel.ts:275-280 | the sorts keep structInfo and wallCharaDB and stably sort every other list by layer |
| LegacyXml.ParsedModel | src/io/buildingModel.ts:214-283 | the result: the last structure object's information, the wall characteristics in document order, every other list a stable layer sort of its objects in document order |
| LegacyXml.BoolTextReadsBack | src/io/buildingModel.ts:92-99 | `parseBool` reads back what `boolText` writes, whatever the fallback (also lines 289-291) |
| LegacyXml.ParseBoolNonText | src/io/buildingModel.ts:92-94 | a boolean is kept; anything neither boolean nor text gives the fallback |
| LegacyXml.PointListTextIsCoordinates | src/io/buildingModel.ts:285-287 | a point list is written as the space-separated text of its coordinates |
| LegacyXml.SpaceTextReadsBack | src/io/buildingModel.ts:106-112 | space-separated written numbers read back as the numbers |
| LegacyXml.PointListReadsBack | src/io/buildingModel.ts:114-121 | a written point list reads back as the points, the empty list included (also lines 285-287) |
| LegacyXml.PairReadsBack | src/io/buildingModel.ts:114-121 | a written pair reads back as that one point |
| LegacyXml.FloorTextReadsBack | src/io/buildingModel.ts:123-134 | a floor with points reads back from its text (also lines 311) |
| LegacyXml.FloorWithoutPointsLosesLayer | src/io/buildingModel.ts:125-127 | a floor without points is written as its layer and a space and reads back as layer 1: its layer is lost (also lines 311) |
| LegacyXml.StructInfoReadsBack | src/io/buildingModel.ts:136-145 | the structure information reads back when its number lists are non-empty (also lines 296-306) |
| LegacyXml.FloorReadsBack | src/io/buildingModel.ts:234-241 | a floor with at least one point reads back (also lines 308-313) |
| LegacyXml.ColumnReadsBack | src/io/buildingModel.ts:242-252 | a column reads back (also lines 315-322) |
| LegacyXml.WallCharaReadsBack | src/io/buildingModel.ts:159-172 | a wall characteristic reads back, except that an empty memo comes back as a space (also lines 324-335) |
| LegacyXml.WallReadsBack | src/io/buildingModel.ts:147-157 | a wall reads back, both end points included (also lines 337-345) |
| LegacyXml.MassDamperReadsBack | src/io/buildingModel.ts:174-186 | a mass damper reads back (also lines 347-357) |
| LegacyXml.BraceDamperReadsBack | src/io/buildingModel.ts:188-202 | a brace damper reads back (also lines 359-372) |
| LegacyXml.PanelReadsBack | src/io/buildingModel.ts:204-212 | a panel reads back (also lines 374-382) |
| LegacyXml.ElementReadsBack | src/io/buildingModel.ts:228-272 | the reader gives back every writable element from the object the writer makes of it (also lines 293-382) |
| LegacyXml.PushObjects | src/io/buildingModel.ts:308-382 | each writer loop appends one object per element, in order |
| LegacyXml.SerializeBuildingModel | src/io/buildingModel.ts:293-384 | the objects are the structure information, then each list in turn |
| LegacyXml.AbsorbModel | src/io/buildingModel.ts:228-273 | reading the elements of a model in written order rebuilds the model (also lines 293-382) |
| LegacyXml.SerializedModelReadsBack | src/io/buildingModel.ts:214-386 | the reader applied to the tree the writer builds of a writable model gives the model with its lists stably sorted by layer (tree to tree; the XML text in between is not modelled) |
| LegacyXml.OrderedModelReadsBack | src/io/buildingModel.ts:214-386 | the reader applied to the tree the writer builds of a writable model already in layer order gives the model exactly (tree to tree) |
| NiceJson.RemoveLabel | src/io/jsonToBuildingModel.ts:36 | removing a label never lengthens the text |
| NiceJson.RemoveLabelUnchanged | src/io/jsonToBuildingModel.ts:36 | removing a label leaves the text unchanged exactly when the label does not occur in it |
| NiceJson.RemoveLabels | src/io/jsonToBuildingModel.ts:35-37 | removing the labels in turn never lengthens the text |
| NiceJson.RemoveLabelsUnchanged | src/io/jsonToBuildingModel.ts:33-39 | the text is unchanged exactly when it holds none of the labels at the time each is removed |
| NiceJson.ShorterUnlessSame | src/io/jsonToBuildingModel.ts:36 | a removal that keeps the length keeps the text |
| NiceJson.CleanJsonUnits | src/io/jsonToBuildingModel.ts:31-39 | the loop removes the five unit labels in their listed order |
| NiceJson.CleanJsonUnitsUnchanged | src/io/jsonToBuildingModel.ts:31-39 | text holding none of the unit labels passes through unchanged |
| NiceJson.EigenIndexLastWins | src/io/jsonToBuildingModel.ts:49-52 | a story is indexed exactly when an entry names it, and the last such entry is kept |
| NiceJson.IndexEigen | src/io/jsonToBuildingModel.ts:49-52 | the loop builds `EigenIndex` |
| NiceJson.StoryVisited | src/io/jsonToBuildingModel.ts:59 | story i ≥ 1 is visited exactly when i is at most the story count |
| NiceJson.Heights | src/io/jsonToBuildingModel.ts:54-63 | one more height than stories found |
| NiceJson.StoryLoop | src/io/jsonToBuildingModel.ts:54-67 | the story loop builds `StructInfoFrom`, skipping stories with no entry |
| NiceJson.FoundCount | src/io/jsonToBuildingModel.ts:59-61 | at most one entry per story is found, and one for each story exactly when none is missing |
| NiceJson.HeightsRise | src/io/jsonToBuildingModel.ts:58-63 | heights start at 0 and rise by 288 per story found |
| NiceJson.StructInfoFromValid | src/io/jsonToBuildingModel.ts:54-105 | the converted structure information passes validation exactly when the story count is a whole number ≥ 1 and every visited story has an entry |
| NiceJson.IntegerValueOfText | src/io/jsonToBuildingModel.ts:75 | `Number` of an integer's text gives the integer back |
| NiceJson.WallTypeStiffness | src/io/jsonToBuildingModel.ts:41-75 | a wall type's stiffness is the unit stiffness truncated to thousandths, less than 0.001 below it |
| NiceJson.MilliBound | src/io/jsonToBuildingModel.ts:42-72 | truncating a positive stiffness to thousandths loses less than 0.001 |
| NiceJson.FixtureWallName | src/io/jsonToBuildingModel.ts:41-43 | wall WAL1 of unit stiffness 10.2 gets the model name WAL1_10200 |
| NiceJson.FixtureDigits | src/io/jsonToBuildingModel.ts:42 | 10200 is written as "10200" |
| NiceJson.HasType | src/io/jsonToBuildingModel.ts:74 | the lookup answers exactly whether a type of that name exists |
| NiceJson.AddWall | src/io/jsonToBuildingModel.ts:72-94 | one pass adds a type at most and a wall exactly when the entry is kept |
| NiceJson.WallLoop | src/io/jsonToBuildingModel.ts:69-95 | the wall loop builds `TypesUpTo` and `WallsUpTo` |
| NiceJson.StepAddsOwnType | src/io/jsonToBuildingModel.ts:74-85 | every type a step adds is the one made for its own name |
| NiceJson.TypesNamed | src/io/jsonToBuildingModel.ts:69-95 | every type is the one made for its name |
| NiceJson.TypeStepGrows | src/io/jsonToBuildingModel.ts:72-85 | a step only adds types, and a kept entry's model name is then among them |
| NiceJson.StepKeepsUnique | src/io/jsonToBuildingModel.ts:74 | a step keeps type names distinct |
| NiceJson.TypeNamesUnique | src/io/jsonToBuildingModel.ts:69-125 | no two wall types share a name |
| NiceJson.WallsHaveTypes | src/io/jsonToBuildingModel.ts:69-95 | every converted wall names a wall type |
| NiceJson.TypesHaveWalls | src/io/jsonToBuildingModel.ts:69-95 | every wall type is named by a converted wall |
| NiceJson.TypeOfWall | src/io/jsonToBuildingModel.ts:75-84 | a wall's type has the truncated stiffness, h = c = 0, both flags set and an empty memo |
| NiceJson.WallsKept | src/io/jsonToBuildingModel.ts:71-95 | one hidden wall per entry above 0.001 stiffness, each converted from such an entry |
| NiceJson.ConvertFloor | src/io/jsonToBuildingModel.ts:109-115 | the pairing loop gives ⌊count/2⌋ points, as `FloorFrom` |
| NiceJson.Map | src/io/jsonToBuildingModel.ts:109-119 | `map` keeps the length and converts each entry in place |
| NiceJson.MapInsert | src/io/jsonToBuildingModel.ts:106-124 | converting commutes with sorted insertion when it keeps the key |
| NiceJson.MapSort | src/io/jsonToBuildingModel.ts:106-124 | sorting then converting is converting then sorting |
| NiceJson.FloorsSorted | src/io/jsonToBuildingModel.ts:106-115 | floors are the converted inputs, stably sorted by layer, a permutation of them |
| NiceJson.ColumnsSorted | src/io/jsonToBuildingModel.ts:116-124 | columns are the converted inputs, stably sorted by layer, a permutation of them |
| NiceJson.ConvertNiceJsonToBuildingModel | src/io/jsonToBuildingModel.ts:45-131 | the conversion gives `ModelFrom` of the parsed record |
| NiceJson.ConvertedModelShape | src/io/jsonToBuildingModel.ts:97-130 | type R, massN the story count (0 if absent), one more height than weights, no dampers or panels, floors and columns in layer order, distinct wall types every wall resolves to |
| Summary.SummarizeBuildingModel | src/io/buildingModel/summary.ts:4-16 | story and structure type present exactly when the structure information is, and each count is its list's length |
| Summary.EmptySummary | src/io/buildingModel/summary.ts:4-16 | the empty model summarises to no story, no type and zero counts |
| Summary.NormalizeKeepsSummary | src/io/buildingModel/summary.ts:4-16 | normalising a model changes nothing in its summary |
| EditorForm.ToLines | src/app/modelEditorState.ts:25-30 | every line is trimmed and non-empty |
| EditorForm.NoLines | src/app/modelEditorState.ts:25-30 | an empty field has no lines |
| EditorForm.LinesOfJoin | src/app/modelEditorState.ts:25-30 | trimmed non-empty lines joined by line breaks split back into themselves |
| EditorForm.JoinTrimmed | src/app/modelEditorState.ts:32-34 | two or more trimmed cells joined by commas make a trimmed, non-empty line |
| EditorForm.CellsLine | src/app/modelEditorState.ts:32-34 | such a line is one the form keeps as a line |
| EditorForm.ParseBooleanToken | src/app/modelEditorState.ts:36-41 | true exactly for "true"/"1" and false exactly for "false"/"0" in any letter case; any other token fails with the labelled message |
| EditorForm.BoolReadsBack | src/app/modelEditorState.ts:36-41 | a written flag reads back as itself (also lines 326, 338, 356-357) |
| EditorForm.BooleanIgnoresCase | src/app/modelEditorState.ts:37 | a token reads as its lower-case form does |
| EditorForm.PointPair | src/app/modelEditorState.ts:43-48 | succeeds exactly when both tokens are numbers, and gives them as x and y |
| EditorForm.ParseDirection | src/app/modelEditorState.ts:204-240 | a direction exactly for "X" and "Y" |
| EditorForm.DirectionReadsBack | src/app/modelEditorState.ts:204-207 | a written direction reads back (also lines 351, 364) |
| EditorForm.ParseEach | src/app/modelEditorState.ts:59 | `map` of a throwing reader: on success one value per line, each the line's value (also lines 72, 98, 119, 140, 166, 191, 224) |
| EditorForm.ParseEachAll | src/app/modelEditorState.ts:59-98 | when every line reads, the result is their values |
| EditorForm.ParseEachFirstError | src/app/modelEditorState.ts:59-98 | a failure is that of the first line that fails |
| EditorForm.NumberTokens | src/app/modelEditorState.ts:51-55 | an empty list fails with "value list is empty."; on success each token's number, in order |
| EditorForm.NumbersTokens | src/app/modelEditorState.ts:51 | the tokens of a written number list are the written numbers (also lines 311-313) |
| EditorForm.CellsReadBack | src/app/modelEditorState.ts:51-55 | written numbers read as the numbers |
| EditorForm.NumbersReadBack | src/app/modelEditorState.ts:50-56 | a written non-empty number list reads back as itself (also lines 311-313) |
| EditorForm.WCenterLine | src/app/modelEditorState.ts:58-69 | exactly two numbers; any other count fails with "expected 2 values (x,y)." |
| EditorForm.PointsFrom | src/app/modelEditorState.ts:85-88 | one point per remaining pair (also lines 242-245) |
| EditorForm.ParsePoints | src/app/modelEditorState.ts:85-88 | the step-2 loop gives `PointsFrom` (also lines 242-245) |
| EditorForm.PointsStep | src/app/modelEditorState.ts:86-87 | a failing pair ends the loop with its error; one that reads is pushed |
| EditorForm.CoordTexts | src/app/modelEditorState.ts:317-363 | two coordinates per point |
| EditorForm.PointsReadBack | src/app/modelEditorState.ts:85-88 | written coordinates read back as the points (also lines 317) |
| EditorForm.FloorLine | src/app/modelEditorState.ts:71-95 | fewer than 7 tokens or an even count fails with the format message; on success an integer layer and at least three points |
| EditorForm.ColumnLine | src/app/modelEditorState.ts:97-116 | exactly five tokens and an integer layer, else the format message |
| EditorForm.WallCharaLine | src/app/modelEditorState.ts:118-137 | at least six tokens; the name is the first and the memo the later tokens joined by commas |
| EditorForm.WallLine | src/app/modelEditorState.ts:139-163 | exactly seven tokens, the name second and an integer layer, else the format message |
| EditorForm.MassDamperLine | src/app/modelEditorState.ts:165-188 | exactly nine tokens, name first, integer layer second, else the format message |
| EditorForm.BraceDamperLine | src/app/modelEditorState.ts:190-221 | exactly ten tokens, an integer layer and direction X or Y, else the format message |
| EditorForm.PanelLineWith | src/app/modelEditorState.ts:223-254 | below the least count or an even count fails with the format message; on success 3 + 2·points tokens |
| EditorForm.PanelLineAsWritten | src/app/modelEditorState.ts:226 | the bound as written: an accepted panel has at least three points |
| EditorForm.PanelLine | src/app/modelEditorState.ts:223-254 | the corrected bound: an accepted panel has at least two points |
| EditorForm.FormStructInfo | src/app/modelEditorState.ts:279-292 | on success massN is the parsed integer ≥ 1 and the structure type is the form's |
| EditorForm.FormModel | src/app/modelEditorState.ts:284-300 | the raw model holds the form's structure information |
| EditorForm.BuiltModelNormalised | src/app/modelEditorState.ts:278-304 | a built model is valid and already normalised, and its JSON is its document (also lines 370-373) |
| EditorForm.MassNRule | src/app/modelEditorState.ts:279-282 | a built model has an integer massN ≥ 1; a non-number or any other value fails with its own message |
| EditorForm.Texts | src/app/modelEditorState.ts:315-366 | one text per element, in order |
| EditorForm.WrittenLine | src/app/modelEditorState.ts:32-34 | a written line splits back into its cells (also lines 315-366) |
| EditorForm.SectionReadsBack | src/app/modelEditorState.ts:25-30 | written lines, one per element, read back as the elements (also lines 315-366) |
| EditorForm.PointReadsBack | src/app/modelEditorState.ts:58-69 | a written centre reads back (also lines 256-258) |
| EditorForm.FloorReadsBack | src/app/modelEditorState.ts:71-95 | a written floor reads back (also lines 315-320) |
| EditorForm.ColumnReadsBack | src/app/modelEditorState.ts:97-116 | a written column reads back (also lines 321-323) |
| EditorForm.WallCharaTokens | src/app/modelEditorState.ts:32-34 | a written wall type splits into its six cells and the comma pieces of its memo (also lines 324-328) |
| EditorForm.WallCharaReadsBack | src/app/modelEditorState.ts:118-137 | a written wall type reads back, its memo rejoined (also lines 324-328) |
| EditorForm.WallReadsBack | src/app/modelEditorState.ts:139-163 | a written wall reads back (also lines 329-341) |
| EditorForm.MassDamperReadsBack | src/app/modelEditorState.ts:165-188 | a written mass damper reads back (also lines 342-344) |
| EditorForm.BraceDamperReadsBack | src/app/modelEditorState.ts:190-221 | a written brace damper reads back (also lines 345-360) |
| EditorForm.PanelReadsBack | src/app/modelEditorState.ts:223-254 | a written panel with two or more points reads back under the corrected bound (also lines 361-366) |
| EditorForm.TwoPointPanelRejected | src/app/modelEditorState.ts:226 | as written, the seven-token line of a two-point panel is rejected (also lines 361-366) |
| EditorRoundTrip.WCenterSection | src/app/modelEditorState.ts:58-69 | the centres section reads back (also lines 314) |
| EditorRoundTrip.FloorsSection | src/app/modelEditorState.ts:71-95 | the floors section reads back (also lines 315-320) |
| EditorRoundTrip.ColumnsSection | src/app/modelEditorState.ts:97-116 | the columns section reads back (also lines 321-323) |
| EditorRoundTrip.WallCharasSection | src/app/modelEditorState.ts:118-137 | the wall types section reads back (also lines 324-328) |
| EditorRoundTrip.WallsSection | src/app/modelEditorState.ts:139-163 | the walls section reads back (also lines 329-341) |
| EditorRoundTrip.MassDampersSection | src/app/modelEditorState.ts:165-188 | the mass dampers section reads back (also lines 342-344) |
| EditorRoundTrip.BraceDampersSection | src/app/modelEditorState.ts:190-221 | the brace dampers section reads back (also lines 345-360) |
| EditorRoundTrip.PanelsSection | src/app/modelEditorState.ts:223-254 | the panels section reads back (also lines 361-366) |
| EditorRoundTrip.NameNotBlank | src/app/modelEditorState.ts:128-180 | a name the form can hold is not blank |
| EditorRoundTrip.StructInfoReadsBack | src/app/modelEditorState.ts:279-314 | the structure fields written from an information with integer massN ≥ 1 and non-empty lists read back as it |
| EditorRoundTrip.ValidFormFields | src/app/modelEditorState.ts:306-368 | a valid model has what the form needs: a story count, non-empty lists, integer layers, enough points |
| EditorRoundTrip.FormModelReadsBack | src/app/modelEditorState.ts:284-300 | the raw model read from a valid model's form is that model (also lines 306-368) |
| EditorRoundTrip.FormNamesNotBlank | src/app/modelEditorState.ts:306-368 | every name of a model the form holds is non-blank |
| EditorRoundTrip.FormBuildsNormalised | src/app/modelEditorState.ts:278-368 | the form of a model builds its normalised model |
| EditorRoundTrip.FormRoundTrip | src/app/modelEditorState.ts:306-373 | the JSON of that form is the normalised model's document |
| EditorRoundTrip.BuiltFormStable | src/app/modelEditorState.ts:278-368 | a model built from a form is written into a form that builds it again |
| FileProcessing.Head | src/app/fileProcessing.ts:140 | the signature window is the first 4096 characters, or all of a shorter text |
| FileProcessing.DetectionIsRanked | src/app/fileProcessing.ts:149-167 | detection is the ranked decision: markers, then the JSON signature or a ".json" name, then a ".xml" name or text starting with "<", else unknown |
| FileProcessing.MarkersDecideFirst | src/app/fileProcessing.ts:152-154 | a marker decides the type whatever the name, the response marker first |
| FileProcessing.JsonDetection | src/app/fileProcessing.ts:152-161 | without a marker the file is JSON exactly when it has the signature or a ".json" name in any case |
| FileProcessing.XmlDetection | src/app/fileProcessing.ts:152-164 | the file is XML exactly when no marker, signature or ".json" name applies and it has a ".xml" name or starts with "<" |
| FileProcessing.UnknownDetection | src/app/fileProcessing.ts:149-167 | the file is unknown exactly when no test applies |
| FileProcessing.SignatureWithoutJsonName | src/app/fileProcessing.ts:139-156 | the signed document is JSON even under a ".txt" name |
| FileProcessing.SignedText | src/app/fileProcessing.ts:139-147 | text holding the three keys and the format name, without "#", has the signature and no marker |
| FileProcessing.NamesExclusive | src/app/fileProcessing.ts:158-162 | no name ends with both ".json" and ".xml" |
| FileProcessing.CreateReportBase | src/app/fileProcessing.ts:169-177 | the file name and encoding are kept; bomRemoved exactly when a BOM was found; warnings present exactly when there are some, and then they are the decoder's |
| FileProcessing.ParseDecodedFile | src/app/fileProcessing.ts:179-260 | a report has the detected type and the file's base; an unknown file gets the unknown-format message |
| FileProcessing.ParseFailsWithParser | src/app/fileProcessing.ts:188-249 | parsing fails exactly when the detected type's parser fails, and with its error |
| FileProcessing.ProcessInputFile | src/app/fileProcessing.ts:262-323 | every failure names the file; only a format error carries a type other than unknown; only a decode error carries an action |
| FileProcessing.ErrorClassification | src/app/fileProcessing.ts:268-322 | a decode error exactly for undecodable input, read failures unexpected, success exactly when the parser succeeds, a format error exactly for a format failure and then with the detected type |
| FileProcessing.UnknownIsSuccess | src/app/fileProcessing.ts:250-299 | a decoded file of no known type is a success with the unknown-format message |
| Compare.Scale | src/core/compare.ts:35 | the largest of the two magnitudes and 1e-12 |
| Compare.RelDiff | src/core/compare.ts:34-37 | non-negative, zero exactly for equal numbers, and times the scale is the absolute difference |
| Compare.RelDiffSymmetricBounded | src/core/compare.ts:34-37 | symmetric and at most 2 |
| Compare.ValueIssuesSound | src/core/compare.ts:56-71 | every value issue is at a position that exceeds both tolerances |
| Compare.ValueIssuesOrdered | src/core/compare.ts:56-71 | value issues come in increasing position |
| Compare.ValueIssuesComplete | src/core/compare.ts:56-71 | every position exceeding both tolerances has an issue |
| Compare.NothingExceedsNoIssues | src/core/compare.ts:56-72 | no exceeding position, no issue |
| Compare.CompareNumberArrays | src/core/compare.ts:39-73 | the loop gives `NumberIssues` |
| Compare.LengthMismatchAlone | src/core/compare.ts:45-53 | lists of different length give exactly one length issue without a position |
| Compare.ValueIssuesExactly | src/core/compare.ts:55-72 | for equal lengths, position i is reported if and only if it exceeds both tolerances, in order |
| Compare.IdenticalListsAgree | src/core/compare.ts:39-73 | a list against itself gives no issue when a tolerance is non-negative |
| Compare.OneValueMismatch | src/core/compare.ts:39-73 | [1, 2] against [1, 2.5] at the defaults gives one issue, at position 1 |
| Compare.WithinTolerance | src/core/compare.ts:39-73 | [10] against [10.000001] at 0.001 gives none |
| Compare.ResolveTolerance | src/core/compare.ts:29-32 | each missing tolerance falls back to rtol 0.01 and atol 1e-6 (also lines 141-144) |
| Compare.Frequencies | src/core/compare.ts:106-107 | the frequency of every mode, in order |
| Compare.DampingRatios | src/core/compare.ts:108-109 | the damping ratio of every mode, in order |
| Compare.TimeColumn | src/core/compare.ts:128-129 | the first number of every record |
| Compare.CompareByType | src/core/compare.ts:135-156 | the result has the files' kind and the resolved tolerance |
| Compare.SelfComparisonClean | src/core/compare.ts:75-156 | a file compared with itself at the defaults has no issue |
| AccuracyCheck.MaxRelUpTo | scripts/accuracy-check.ts:119-126 | the largest relative difference over the first positions, 0 when there are none, and attained at one of them |
| AccuracyCheck.MaxAbsUpTo | scripts/accuracy-check.ts:119-126 | the largest absolute difference over the first positions, 0 when there are none, and attained at one of them |
| AccuracyCheck.Maxima | scripts/accuracy-check.ts:119-126 | the loop keeps exactly the two maxima |
| AccuracyCheck.NumberMetric | scripts/accuracy-check.ts:82-152 | the method gives `NumberMetricOf` |
| AccuracyCheck.NumberMetricStatus | scripts/accuracy-check.ts:88-152 | SKIP exactly when both lists are empty, FAIL when only one is; otherwise PASS exactly when lengths agree (or need not) and every common relative difference is within the threshold; the compared count is the shorter length |
| AccuracyCheck.MismatchesExactly | scripts/accuracy-check.ts:156-159 | the mismatch list holds each differing common position once, in increasing order |
| AccuracyCheck.IndexList | scripts/accuracy-check.ts:169 | each mismatch position written as its decimal text |
| AccuracyCheck.LabelMetric | scripts/accuracy-check.ts:154-184 | the method gives `LabelMetricOf` |
| AccuracyCheck.LabelMetricPassesIffEqual | scripts/accuracy-check.ts:154-184 | a label metric passes exactly when the label lists are equal, and never skips |
| AccuracyCheck.DecideCaseStatus | scripts/accuracy-check.ts:186-188 | a case fails exactly when one of its metrics fails |
| AccuracyCheck.SkipNeverFails | scripts/accuracy-check.ts:186-188 | a skipped or passing metric leaves the case status as it was |
| AccuracyCheck.CountStatus | scripts/accuracy-check.ts:565-566 | a count is at most the number of cases |
| AccuracyCheck.CountsAddUp | scripts/accuracy-check.ts:564-573 | pass and fail counts add up to the total |
| AccuracyCheck.NoFailNoCount | scripts/accuracy-check.ts:566-571 | the fail count is zero exactly when every case passes |
| AccuracyCheck.SummaryConsistent | scripts/accuracy-check.ts:564-573 | the total is the case count, the counts add up, and the run passes exactly when every case does |
| AccuracyCheck.PickIndices | scripts/accuracy-check.ts:379-387 | the loop gives `PickedUpTo` |
| AccuracyCheck.PickedExactly | scripts/accuracy-check.ts:379-387 | exactly the positions whose header starts with a prefix, in increasing order |
| Text.ReplaceCrLf | src/io/text.ts:25 | replacing CR LF pairs never lengthens the text |
| Text.ReplaceCr | src/io/text.ts:25 | every CR becomes LF and nothing else changes |
| Text.NormalizeIsUnixLineEnds | src/io/text.ts:24-26 | the two replacements are the one-pass rule: CR LF and lone CR each become one LF |
| Text.NormalizeHasNoCr | src/io/text.ts:24-26 | the result holds no CR |
| Text.NormalizeWithoutCr | src/io/text.ts:24-26 | text without CR passes through unchanged |
| Text.NormalizeIdempotent | src/io/text.ts:24-26 | normalising twice is normalising once |
| Text.Lines | src/io/text.ts:24-26 | at least one line, none holding CR or LF |
| Text.TrimmedLines | src/io/baseShape.ts:11-13 | one trimmed line per line |
| Text.NonEmpty | src/io/baseShape.ts:14 | the non-empty lines, in order, a sub-list of the input |
| Text.SplitCsvLikeLine | src/io/text.ts:28-30 | at least one token |
| Text.SplitCsvShape | src/io/text.ts:28-30 | one token more than commas, each the trimmed piece between commas |
| Text.SplitWithoutComma | src/io/text.ts:28-30 | a line without commas is one token, the trimmed line |
| Text.ToNumberList | src/io/text.ts:32-36 | never more numbers than tokens |
| Text.ToNumberListFrom | src/io/text.ts:32-36 | every number kept converts from some token |
| Text.ToNumberListAppend | src/io/text.ts:32-36 | the list of a concatenation is the concatenation of the lists |
| Text.ToNumberListAll | src/io/text.ts:32-36 | when every token converts, all are kept in order |
| Text.ToNumberListNone | src/io/text.ts:32-36 | when none converts, the list is empty |
| Text.ParseNumberToken | src/io/baseShape.ts:30 | succeeds exactly when the token converts, with its number; otherwise a format error |
| Text.ToNumberListStrict | src/io/baseShape.ts:35-40 | on success the converted tokens; otherwise a format error |
| Text.StrictAll | src/io/baseShape.ts:35-40 | succeeds exactly when every token converts, and keeps every token in order |
| Text.FindContaining | src/io/modal.ts:30-56 | the first line containing the text, or none |
| Text.FindStarting | src/io/modal.ts:15 | the first line starting with the prefix, or none |
| Text.FindEqual | src/io/resp.ts:6 | the first token equal to the label, or none |
| Strings.TrimIsTrimmed | src/io/text.ts:29 | `trim` leaves no surrounding whitespace and only drops characters |
| Strings.TrimIdempotent | src/io/text.ts:29 | trimming twice is trimming once |
| Strings.TrimEmptyIffBlank | src/io/text.ts:29 | a trimmed text is empty exactly when it was whitespace only |
| Strings.IndexOf | src/io/jsonToBuildingModel.ts:75 | the first position of a character, or none |
| Strings.Split | src/io/text.ts:29 | at least one piece |
| Strings.SplitShape | src/io/text.ts:29 | one piece more than separators, none holding the separator |
| Strings.JoinSplit | src/io/text.ts:29 | joining the pieces back gives the text |
| Strings.SplitJoin | src/app/modelEditorState.ts:32-34 | splitting a join of separator-free pieces gives the pieces (also lines 315-366) |
| Strings.ToLower | src/app/fileProcessing.ts:150 | same length, each ASCII letter lowered |
| Strings.NatToString | scripts/accuracy-check.ts:169 | a non-empty string of digits |
| Strings.IntToString | src/io/jsonToBuildingModel.ts:42 | a non-empty string of digits and a sign |
| Strings.LastPartAfter | src/io/jsonToBuildingModel.ts:75 | `split(sep).pop()` is what follows the last separator |
| Strings.DigitsOfNat | src/io/jsonToBuildingModel.ts:75 | the decimal text of a natural number is digits that read back as it |
| BaseShape.ShapeLines | src/io/baseShape.ts:11-14 | the lines the reader sees are non-empty |
| BaseShape.ScanLine | src/io/baseShape.ts:24-49 | a line that is not a Story, Zlebe or MC line changes nothing; every failure is a format error |
| BaseShape.ScanLineStory | src/io/baseShape.ts:26-33 | a Story line sets the story to its converted value, failing when the value is missing or does not convert; no other line touches the story |
| BaseShape.ScanLineLevels | src/io/baseShape.ts:34-38 | a Zlebe line replaces the levels by its strictly converted values; no other line touches them |
| BaseShape.ScanLineCenters | src/io/baseShape.ts:39-49 | an MC line appends its layer, x and y; no other line touches the list |
| BaseShape.Finish | src/io/baseShape.ts:52-59 | succeeds exactly when a story and levels were read, with the collected values; otherwise a format error |
| BaseShape.ParseBaseShapeInfo | src/io/baseShape.ts:10-60 | the method gives `BaseShapeOf` |
| BaseShape.ScanShapeLines | src/io/baseShape.ts:23-50 | the loop gives `ScanLines` |
| BaseShape.ReadShapeLine | src/io/baseShape.ts:24-49 | the loop body gives `ScanLine` |
| BaseShape.ScanErrorStays | src/io/baseShape.ts:23-50 | once a line fails, the scan fails with that line's error |
| BaseShape.ScanStory | src/io/baseShape.ts:26-33 | a successful scan holds the story of the last Story line, none without one |
| BaseShape.ScanZLevel | src/io/baseShape.ts:34-38 | a successful scan has levels exactly when there is a Zlebe line, those of the last one |
| BaseShape.ScanCenters | src/io/baseShape.ts:39-49 | one mass centre per MC line, in line order |
| BaseShape.StoryAndLevelsRequired | src/io/baseShape.ts:52-57 | a text without a Story or a Zlebe line is rejected with a format error |
| BaseShape.BaseShapeErrorIsFormat | src/io/baseShape.ts:10-60 | every failure is a format error |
| BaseShape.StoryWithoutValue | src/io/baseShape.ts:27-29 | a Story line without a value fails the scan wherever it stands |
| BaseShape.ShapeLinesOnly | src/io/baseShape.ts:26-49 | only Story, Zlebe and MC lines |
| BaseShape.OnlyShapeLinesMatter | src/io/baseShape.ts:23-50 | dropping every other line does not change the scan |
| ModalDat.EffectiveMassRatio | src/io/modal.ts:11-18 | the numbers of the line after the first line starting with the title; empty when there is none or it is the last line |
| ModalDat.ReadRow | src/io/modal.ts:62-71 | a blank line or one starting with "#" ends the table; a row failure is a format error |
| ModalDat.ReadEigenRows | src/io/modal.ts:60-72 | the loop gives `EigenRowsFrom` |
| ModalDat.FrequenciesAt | src/io/modal.ts:30-37 | fails with the missing-section message when the line two below the title is absent; otherwise the numbers after its first cell |
| ModalDat.FactorsAt | src/io/modal.ts:39-51 | both factor rows must exist before either is read; then the numbers after each first cell, X failing first |
| ModalDat.EigenTableAt | src/io/modal.ts:56-75 | the title must exist; the rows from two lines below it, at least one, else the missing-rows message; a row error is passed on |
| ModalDat.NonEmptyTable | src/io/modal.ts:73-75 | a table read without error must have a row |
| ModalDat.ParseModalDat | src/io/modal.ts:20-88 | the method gives `ModalDatOf` |
| ModalDat.ReadEigenTable | src/io/modal.ts:56-75 | the method gives `EigenTableAt` |
| ModalDat.RowShape | src/io/modal.ts:64-71 | a row's label is its first token, with one number per further token |
| ModalDat.EigenRowsRead | src/io/modal.ts:61-72 | row k is line i+k read as a row, and the line after the last row ends the table or is past the end |
| ModalDat.EigenRowsOf | src/io/modal.ts:61-72 | conversely, such lines make up the table |
| ModalDat.BadRowRejected | src/io/modal.ts:65-67 | a row with fewer than two tokens is a format error naming its line |
| ModalDat.EigenErrorsAreFormat | src/io/modal.ts:61-72 | a table fails only with format errors |
| ModalDat.ModalFromParts | src/io/modal.ts:20-88 | the parts succeed together, and the first failing part, in source order, gives the error |
| ModalDat.ModalDatErrorsAreFormat | src/io/modal.ts:20-88 | every failure is a format error |
| ModalDat.ModalLayout | src/io/modal.ts:20-88 | an accepted file holds what each part read, and at least one eigenvector row |
| ModalWrite.ModeLabels | src/io/modal.ts:109-115 | an empty cell, then "1次" to "n次" |
| ModalWrite.FormatModeHeader | src/io/modal.ts:109-115 | the loop gives the labels joined by commas |
| ModalWrite.HeaderCells | src/io/modal.ts:109-115 | the header splits back into its labels |
| ModalWrite.Cells | src/io/modal.ts:124-141 | one formatted cell per number |
| ModalWrite.CenterLines | src/io/modal.ts:126-130 | one line per mass centre |
| ModalWrite.EigenLines | src/io/modal.ts:145-147 | one line per eigenvector row |
| ModalWrite.BodyHead | src/io/modal.ts:133-144 | twelve lines before the eigenvector rows |
| ModalWrite.ModalBody | src/io/modal.ts:133-148 | thirteen lines plus one per eigenvector row |
| ModalWrite.SectionLayout | src/io/modal.ts:121-151 | the base-shape lines, "#ModalResult", the modal body, "#End_ModalResult" |
| ModalWrite.SerializeModalDat | src/io/modal.ts:117-152 | the lines joined by newlines with a final newline |
| ModalWrite.WriteShapeSection | src/io/modal.ts:122-131 | the loop gives `ShapeSection` |
| ModalWrite.WriteModalBody | src/io/modal.ts:132-148 | the loop gives `ModalBody` |
| ModalRoundTrip.StrictCells | src/io/modal.ts:34-51 | formatted numbers convert back strictly (also lines 135-137) |
| ModalRoundTrip.LabelledNumbers | src/io/modal.ts:44-51 | the numbers after a first cell read back (also lines 136-137) |
| ModalRoundTrip.RowReadBack | src/io/modal.ts:62-71 | a written eigenvector row reads back as the row (also lines 146) |
| ModalRoundTrip.FrequenciesBack | src/io/modal.ts:30-37 | the frequencies read back (also lines 133-135) |
| ModalRoundTrip.FactorsBack | src/io/modal.ts:39-51 | the participation factors read back (also lines 136-137) |
| ModalRoundTrip.MassRatiosBack | src/io/modal.ts:11-18 | both effective mass ratios read back (also lines 138-141) |
| ModalRoundTrip.EigenIndex | src/io/modal.ts:56 | the eigenvector title is first found on line 10 of the body (also lines 143) |
| ModalRoundTrip.EigenRowsBack | src/io/modal.ts:56-75 | the rows written from line 12, closed by a blank line, read back (also lines 143-148) |
| ModalRoundTrip.BlankEndsTable | src/io/modal.ts:63 | a blank line ends the table (also lines 148) |
| ModalRoundTrip.HeadLines | src/io/modal.ts:133-144 | the twelve head lines one by one |
| ModalRoundTrip.BodyLines | src/io/modal.ts:133-148 | the body is the head lines, one line per row and a blank line |
| ModalRoundTrip.HeadBack | src/io/modal.ts:30-54 | every number above the table reads back (also lines 133-141) |
| ModalRoundTrip.TableBack | src/io/modal.ts:56-75 | the eigenvector table reads back (also lines 143-148) |
| ModalRoundTrip.ModalBodyBack | src/io/modal.ts:20-88 | every part of a written modal body reads back (also lines 132-149) |
| ModalRoundTrip.ModalDatRoundTrip | src/io/modal.ts:20-88 | parsing a written modal section gives back the modal result, with whatever base shape the lines before it hold (also lines 117-152) |
| RespCsv.RespLines | src/io/resp.ts:13-15 | one line per line of the normalised text |
| RespCsv.GetNumericValue | src/io/resp.ts:5-10 | the converted token after the first token equal to the label; the fallback when there is none, it is last or it does not convert |
| RespCsv.MissingFieldFallsBack | src/io/resp.ts:6-7 | a missing label, or one that is the last token, gives the fallback |
| RespCsv.MetaOf | src/io/resp.ts:46-50 | mass count, time step and damper count with defaults 0, 0.01 and 0 |
| RespCsv.MetaDefaults | src/io/resp.ts:46-50 | a metadata line without the labels gives the defaults |
| RespCsv.RecordsShape | src/io/resp.ts:28-33 | at most one record per line, each holding a number |
| RespCsv.BlankLineHasNoRow | src/io/resp.ts:29-30 | a whitespace-only line has no row |
| RespCsv.BlankLinesSkipped | src/io/resp.ts:29-30 | a blank line adds no record |
| RespCsv.RecordsAreRows | src/io/resp.ts:28-33 | one record per line whose row holds a number, each the row of a line in range, in order |
| RespCsv.MaxRowLength | src/io/resp.ts:35 | the longest row's length, 0 for no rows |
| RespCsv.ColumnMaxIsMaximum | src/io/resp.ts:36-42 | a column maximum is non-negative, bounds every entry of its column and is 0 or one of them |
| RespCsv.ColumnMaxima | src/io/resp.ts:35-42 | one maximum per column of the longest row |
| RespCsv.ColumnMaximaBound | src/io/resp.ts:35-42 | each maximum bounds its column and is 0 or one of its entries |
| RespCsv.ParseRespCsv | src/io/resp.ts:12-55 | the method gives `RespCsvOf` |
| RespCsv.ReadResultSection | src/io/resp.ts:24-54 | the method gives `ResultSection` |
| RespCsv.ReadRecords | src/io/resp.ts:26-33 | the loop gives `RecordsUpTo` |
| RespCsv.ColumnMaxAbs | src/io/resp.ts:36-42 | the loop over a zero-filled array gives `ColumnMaxima` |
| RespCsv.MarkerRequired | src/io/resp.ts:17-20 | the file is rejected with a plain error exactly when no line holds the marker |
| RespCsv.ResultLayout | src/io/resp.ts:12-55 | an accepted file: base shape from the lines before the first marker line, metadata from the next, header from the one after, records from the rest, and their column maxima |
| RespCsv.SectionOf | src/io/resp.ts:17-24 | an accepted file is the result section after its first marker line |
| ComplexModalDat.NewMode | src/io/complexModal.ts:31-38 | a new mode has its row's number and frequency and no vectors |
| ComplexModalDat.FindModeFrom | src/io/complexModal.ts:49 | a position holding the mode number, or none from there on |
| ComplexModalDat.FindMode | src/io/complexModal.ts:49 | the first mode with the number, or none |
| ComplexModalDat.AddVector | src/io/complexModal.ts:55-61 | the current mode gains the vector at its end, the others are untouched |
| ComplexModalDat.Step | src/io/complexModal.ts:26-66 | the current mode stays valid; every failure is a format error |
| ComplexModalDat.StepGrows | src/io/complexModal.ts:26-66 | a line keeps the modes read, adds vectors to at most one and opens at most one |
| ComplexModalDat.RunFrom | src/io/complexModal.ts:25-67 | the current mode stays valid over the loop |
| ComplexModalDat.FirstWithoutVectors | src/io/complexModal.ts:72-76 | the first mode without vectors, or none |
| ComplexModalDat.ParseComplexModalDat | src/io/complexModal.ts:11-79 | the method gives `ComplexModalOf` |
| ComplexModalDat.ReadModes | src/io/complexModal.ts:22-67 | the loop gives `RunFrom` |
| ComplexModalDat.CheckModes | src/io/complexModal.ts:69-78 | the checks and the sort give `FinishModes` |
| ComplexModalDat.ModeRowOpensMode | src/io/complexModal.ts:29-41 | a mode row appends a new mode without vectors and makes it current |
| ComplexModalDat.MalformedModeRowRejected | src/io/complexModal.ts:42-44 | a line starting like a mode row that is not one is rejected with its text |
| ComplexModalDat.HeaderSwitchesMode | src/io/complexModal.ts:46-51 | a "** N次" header makes the first mode numbered N current, none when there is none |
| ComplexModalDat.VectorJoinsCurrentMode | src/io/complexModal.ts:53-66 | a vector row joins the current mode only; without one, a line that looks like a vector row is rejected and any other line skipped |
| ComplexModalDat.BlankLineSkipped | src/io/complexModal.ts:26-27 | blank lines change nothing |
| ComplexModalDat.RunCountsModes | src/io/complexModal.ts:25-67 | one mode per mode row; modes already read only gain vectors |
| ComplexModalDat.RunErrorsAreFormat | src/io/complexModal.ts:25-67 | every failure is a format error |
| ComplexModalDat.ParsedModes | src/io/complexModal.ts:69-78 | at least one mode, each with vectors, stably sorted by mode number, a permutation of the modes read, one per mode row |
| ComplexModalDat.NoModeRowsRejected | src/io/complexModal.ts:69-71 | a section without mode rows is rejected |
| ComplexModalDat.ModeLines | src/io/complexModal.ts:115-119 | one line per mode |
| ComplexModalDat.VectorLines | src/io/complexModal.ts:126-130 | one line per vector |
| ComplexModalDat.SerializeComplexModalDat | src/io/complexModal.ts:100-136 | the lines joined by newlines with a final newline |
| ComplexModalDat.WriteBlocks | src/io/complexModal.ts:124-132 | the loop gives `Blocks` |
| ComplexModalDat.WriteBlock | src/io/complexModal.ts:125-131 | header, one line per vector, a blank line |
| ComplexModalDat.BlocksLayout | src/io/complexModal.ts:124-132 | mode k's block starts with its header after the earlier blocks, its vector lines following in order, then a blank line |
| Numbers.Trunc | src/io/jsonToBuildingModel.ts:42 | `Math.trunc` rounds toward zero: less than 1 in magnitude lost, sign kept |
| FileProcessing.DetectFileType | src/app/fileProcessing.ts:149-166 | proved equal to the ranked decision (DetectionIsRanked): a marker decides first, response before complex before modal (MarkersDecideFirst); then JSON exactly for the signature or a ".json" name (JsonDetection); then XML exactly for a ".xml" name or a leading "<" (XmlDetection); otherwise unknown (UnknownDetection) |
| FileProcessing.HasJsonSignature | src/app/fileProcessing.ts:139-147 | text holding the format, version and model keys and the format name, without "#", is signed and has no marker (SignedText), and a signed text is detected as JSON under any name (SignatureWithoutJsonName) |
| EditorForm.BuildModelFromEditorForm | src/app/modelEditorState.ts:278-304 | a built model is valid and already normalised, and its JSON is its document (BuiltModelNormalised); massN must read as an integer ≥ 1, with the two messages of the source (MassNRule); the form a valid model writes builds its normalised model (EditorRoundTrip.FormBuildsNormalised) |
| EditorForm.ModelToEditorForm | src/app/modelEditorState.ts:306-368 | each section written from a list reads back as the list (EditorRoundTrip section lemmas); the whole form of a model the form can hold builds the normalised model (FormBuildsNormalised), and a built model's form builds it again (BuiltFormStable) |
| LegacyXml.IsClassName | src/io/buildingModel.ts:80-85 | a class name matches a writer class name exactly when it ends with that name's last dotted segment (IsClassNameIff, LastSegmentOfFullName) |
| LegacyXml.ParseBool | src/io/buildingModel.ts:92-99 | reads back the "True"/"False" the writer emits, whatever the fallback (BoolTextReadsBack); a boolean is kept and a value neither boolean nor text gives the fallback (ParseBoolNonText) |
| LegacyXml.SpaceNumbers | src/io/buildingModel.ts:106-112 | numbers written as space-separated numerals read back as the numbers (SpaceTextReadsBack) |
| LegacyXml.FloorValueOf | src/io/buildingModel.ts:123-134 | fewer than three numbers give layer 1 and no points, otherwise the first number is the layer and ⌊(count−1)/2⌋ points follow (FloorValueShape); a written floor with points reads back (FloorTextReadsBack) |
| LegacyXml.BoolText | src/io/buildingModel.ts:289-291 | `parseBool` reads what it writes back as the same flag (BoolTextReadsBack) |
| LegacyXml.PointListText | src/io/buildingModel.ts:285-287 | the space-separated coordinates of the points in order (PointListTextIsCoordinates), which read back as the points (PointListReadsBack) |
| Text.NormalizeNewLines | src/io/text.ts:24-26 | equals the one-pass rule in which CR LF and a lone CR each become one LF (NormalizeIsUnixLineEnds); the result holds no CR (NormalizeHasNoCr), text without CR is unchanged (NormalizeWithoutCr) and normalising twice is normalising once (NormalizeIdempotent) |
| NiceJson.WallModelName | src/io/jsonToBuildingModel.ts:41-43 | the type named for a wall carries the unit stiffness truncated to thousandths, less than 0.001 below it (WallTypeStiffness); WAL1 of unit stiffness 10.2 is named WAL1_10200 (FixtureWallName) |
| AccuracyCheck.SummarizeCases | scripts/accuracy-check.ts:564-573 | the total is the case count, pass and fail counts add up to it, and the run passes exactly when every case does (SummaryConsistent, CountsAddUp, NoFailNoCount) |
| ComplexEigen.NormalizeModeVector | src/core/analysis/complex.ts:65-79 | a negligible vector is copied, any other multiplied by one non-zero factor (NormalizeModeVectorScaled); then every amplitude is at most 1 and one is exactly 1 (NormalizeModeVectorUnit) and the anchor entry's real part is non-negative (NormalizeModeVectorAnchor) |
| ComplexEigen.ComponentLabel | src/core/analysis/complex.ts:81-87 | label i is the i-th degree-of-freedom label of the assembled matrices, DX, DY or RZ of story ⌊i/3⌋+1 by i mod 3 (ComponentLabelIsDofLabel) |
| ComplexEigen.DampingRatioPercent | src/core/analysis/complex.ts:100-104 | a percentage in [−100, 100]; from modulus 1e-9 on, positive exactly for a decaying pole (Re λ < 0), and 100ζ for a pole −ζ·abs(λ) + i… (DampingRatioPercentSpec) |
| ComplexEigen.ParseComplexEigs | src/core/analysis/complex.ts:106-154 | a success returns 1..modeLimit modes numbered from one in non-decreasing frequency (ParseComplexEigsSpec), the lowest-frequency pushed modes (ParseKeepsLowest); the error cases of ParseComplexEigsErrors; the imperative parse equals it (ParseComplexEigsResult) |
| MatrixAssembly.DofLabelsForFloor | src/core/analysis/matrixAssembly.ts:24-26 | story s's three labels DX_s, DY_s, RZ_s sit at 3(s−1), 3(s−1)+1, 3(s−1)+2 of the label list (DofLabels) |
| TimeHistory.Header | src/core/analysis/resp.ts:96-121 | 6n+6 names: Time(s), story 1's five, each later story's block of six, the roof `_R` block last (HeaderLayout); the push loop builds it (BuildHeader) |
| TimeHistory.RecordRow | src/core/analysis/resp.ts:123-159 | 6n+6 values laid out as the header (RecordRowLayout, RecordMatchesHeader), the roof block repeating the top story (RoofMirrorsTopStory) |
| JsonValidator.ParseBuildingModelJson | src/io/buildingModel/parser.ts:6-16 | reads the document and normalises the model; on the document of a normalised model with non-blank names it gives that model back (JsonRoundTrip) |
| JsonValidator.SerializeBuildingModelJson | src/io/buildingModel/serializer.ts:8-19 | the document of the normalised model (JsonRoundTrip), which the reader reads back as that model |
| XmlReader.PointArrayStep | src/io/buildingModel/xml.ts:170-188 | one call of `parsePointArray` as written: on the record `{px, py}` it calls itself with the same record (PointArrayCallsItself); every returning step agrees with the corrected reader and the only self-call is a record with no point list and no x/y (PointStepSound) |

## Left out

- The library linear algebra (`CholeskyDecomposition`, `EigenvalueDecomposition`, `inverse` of ml-matrix and `eigs` of mathjs) is a parameter; the model states what it needs of the results (shapes, entries it reads) and does not prove the eigen solutions correct.
- `Math.sqrt`, `Math.hypot` and `Math.atan2` are parameters; π is the constant 3.141592653589793. Floating-point rounding is not modelled: every number is an exact real.
- NaN and ±Infinity do not exist among reals. They appear only as a failed conversion of text to a number, so the `Number.isFinite` guards on computed values always hold in the model.
- Conversion of text to numbers (`Number(...)`, `parseFloat`) is an abstract parser, and conversion of numbers to text (`formatNumber`, `toExponential`, `toFixed`, `String(number)`) an abstract formatter; the JavaScript quirks of both (such as `Number("") == 0`) are not modelled.
- Text decoding (`decodeText`, `decodeTextWithMeta`, `TextDecoder`), reading a file's bytes and the encoding checks are not modelled; the file processing takes the decoding's outcome as an input. Texts are sequences of characters, so the 4096-character window of the JSON signature (`FileProcessing.Head`) counts characters where `slice(0, 4096)` counts UTF-16 code units; the two differ for texts with characters outside the Basic Multilingual Plane.
- `JSON.parse`, `JSON.stringify`, `XMLParser` and `XMLBuilder` are not modelled: the readers start from the parsed tree and the writers end at the tree handed to the library.
- The bodies of `parseNumberToken`, `toNumberListStrict`, `extractMarkedSection`, `toTrimmedLines` and `FormatParseError` are not part of this model. The first two are modelled from how they are used (a number, or a `FormatParseError` naming the field); for the other two, the result-file readers take the lines before the marked section and the section body as inputs.
- The five regular expressions of `parseComplexModalDat` are an abstract line classifier; the complex-modal writer is stated as a line layout, and reading its output back is not proved because the classifier is abstract.
- The user interface, the DOM, localStorage, downloads, the command-line scripts and, in scripts/accuracy-check.ts, the file I/O, the case builders, `buildOutOfToleranceAnalysis`, `renderMarkdown` and `main` are not modelled; only the metric, case-status and summary rules are.
- The `visited` set of `findModelLikeNode` is not modelled: a parsed document is a tree, so the walk never meets a node twice.
- `convertNiceJsonToBuildingModelXml` is the composition of the converter and the XML writer and has no member of its own.
- Strings.ToLower: lowers ASCII letters only, where `toLowerCase` also lowers other scripts; the texts it is applied to (file names, flags, format keywords) are compared against ASCII words.
- ComplexEigen.ToComplexValue: the "non-finite" error for a number or a component that is NaN or infinite has no counterpart, because every real is finite.
- EditorForm.BuildModelFromEditorForm: reads dxPanels lines with the corrected bound of seven tokens; the bound of the code as written is modelled by `EditorForm.PanelLineAsWritten` (see Findings).
- XmlReader.ParsePointArray: reads a record with no point-list key as a single point even when it lacks x or y, where the code as written calls itself on the same record without end; the as-written step is `XmlReader.PointArrayStep` (see Findings).
- LegacyXml.SerializedModelReadsBack: proved from the tree the writer builds to the tree the reader takes, as if the XML parser gave back the builder's tree. The parser of src/io/buildingModel.ts:13-16 converts numeral tag values to numbers and trims texts, which is not modelled: a one-entry zLevel, weight or wMoment list is written as a single numeral, comes back as a number and `parseSpaceNumbers` then reads it as an empty list; an empty memo written as a space comes back empty; padded names and memos come back trimmed; a numeral name such as "1.50" comes back as "1.5".
- LegacyXml.OrderedModelReadsBack: holds tree to tree only, with the same gaps as `LegacyXml.SerializedModelReadsBack`.
- Compare.CompareByType: takes the two files already parsed; the parse errors of the texts are those of the readers, not repeated here.
- ModalRoundTrip.ModalDatRoundTrip: assumes the lines before the section read back as the given base shape; the round trip of the base-shape header itself is not proved.
- Tests that expect a `NiceJsonValidationError`, or a `FormatParseError` from `parseRespCsv` for missing metadata, describe behaviour the code does not have; the model follows the code (a plain `Error` in src/io/resp.ts:19).

## Findings

| source | as written | input that shows it | evidently intended | confidence | as-written member | corrected member |
|---|---|---|---|---|---|---|
| src/app/modelEditorState.ts:226 | `tokens.length < 8` refuses every dxPanels line of fewer than eight tokens, so with the parity rule a panel needs three points, while normalisation accepts two-point panels, the error message shows `x1,y1,x2,y2` and `modelToEditorForm` writes a two-point panel as seven tokens | a two-point panel line such as `1,X,10,0,0,100,0` (layer 1, direction X, k 10, points (0,0) and (100,0)) | at least seven tokens, so that two points are accepted and a model written into the form reads back | not executed | EditorForm.PanelLineAsWritten, EditorForm.TwoPointPanelRejected | EditorForm.PanelLine, EditorForm.PanelReadsBack |
| src/io/buildingModel/xml.ts:175-185 | a record that holds no point-list key and lacks `x` or `y` is passed to `parsePointArray` again unchanged, so the call never returns | a `pos` record `{px: 1, py: 2}` (`XmlReader.UnnamedPoint`) | read such a record as a single point through the point coercer, which reports a missing coordinate | not executed | XmlReader.PointArrayStep, XmlReader.PointArrayCallsItself | XmlReader.ParsePointArray, XmlReader.PointArrayReadsRecordAsPoint, XmlReader.PointStepSound |
