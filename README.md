# CPG learning controllers of the NTRT tensegrity experiments

This project is a Dafny model of the controller layer that the NTRT
learning experiments put on top of their tensegrity robots (a mountain goat,
a quadruped "big puppy", a vertical spine). Each trial works in four phases:

- **Setup.** It reads learned parameters in [0, 1] and maps them onto
  physical intervals (node scaling).
- **Coupling tables.** It fills coupling tables from a flat list of
  [weight, phase] entries taken from the end of the list (edge scaling).
- **Wiring.** It wires every cable's central-pattern-generator (CPG) node to
  the nodes of the cables that share a rigid body with it.
- **Steps and scoring.** It integrates the CPG network on a fixed control
  interval, guarded by a height band that aborts the trial. At teardown it
  scores the trial by the planar distance walked (-1 for an aborted trial)
  and by the energy spent reeling cable in.

Also modelled:

- the quadruped model base class: its segment checks, its muscle map and the
  mass-weighted centre of mass of segments;
- the passive logging controller of the vertical spine;
- the ASCII STL vertex extractor.

One module per source file, plus shared modules:

| module | file | what it models |
|---|---|---|
| `Common` | common.dfy | the `Result`/`Error` outcome of operations that throw or assert, and 3-vectors |
| `Scaling` | scaling.dfy | the affine de-normalisation and the node tables |
| `EdgeTables` | edge_tables.dfy | the coupling-table fills (triangular, and a general walk of runs), as methods over `array3` |
| `Feedback` | feedback.dfy | cable state, network input and output rescaling, feedback collection |
| `Scoring` | scoring.dfy | the energy loop, the distance score and the parameter-file records |
| `Oscillator` | oscillator.dfy | the CPG network the controllers drive, reduced to its nodes, couplings and integration log |
| `TrialControl` | trial.dfy | the step outcome, the height band and the configuration |
| `ActuatorControl` | actuator.dfy | the per-cable CPG controller (a class) |
| `MGControl` | mg.dfy | the general mountain-goat controller (a class) |
| `HierarchyControl` | hierarchy.dfy | the hierarchy controller (a class) |
| `AchillesControl` | achilles.dfy | the Achilles-only hierarchy controller (a class) |
| `StatsControl` | stats.dfy | the statistics controller (a class) |
| `QuadControl` | quad.dfy | the quadruped block-diagonal controller (a class) |
| `QuadModel` | quad_model.dfy | the model base class (a class) |
| `PassiveControl` | passive.dfy | the passive logging controller (a class) |
| `StlParser` | stl.dfy | the STL extractor's `main` |

Where the source mutates state, the model does too:

- controllers are classes whose methods change their fields;
- tables are arrays filled by nested loops;
- the read loop and the accumulation loops are `while` loops with invariants.

Each method is proved against a specification function of its inputs, and
the properties the source promises are lemmas about those functions.

Conventions of the model:

- An exception thrown, or an `assert` tripped on data read from a file, is
  an `Err` result or an `Abort` step outcome.
- An `assert` on an internal invariant (a node not yet assigned, two or more
  anchors, the same CPG system) is a `requires`.
- Collaborators outside the shown code are inputs to the operations: the
  physics engine, the CPG integrator (whether an integration `diverges`),
  the neural network (a function), and the JSON files (already-parsed
  values).

## Model

| member | source | states |
|---|---|---|
| Scaling.DenormalizeEndpoints | src/dev/dhustigschultz/MG_CPGHierarchy/JSONHierarchyFeedbackControl.cpp:1089-1090 | a learned 0 maps to the low limit and 1 to the high limit |
| Scaling.DenormalizeInRange | src/dev/dhustigschultz/MG_CPGHierarchy/JSONHierarchyFeedbackControl.cpp:1089-1090 | a learned value in [0, 1] lands inside its column's interval |
| Scaling.DenormalizeRoundTrip | src/dev/dhustigschultz/MG_CPGHierarchy/JSONHierarchyFeedbackControl.cpp:1089-1090 | normalising against the same interval gives the learned value back |
| Scaling.FiveLimits | src/dev/dhustigschultz/MG_CPGHierarchy/JSONHierarchyFeedbackControl.cpp:1065-1079 | the five columns' bounds: the frequency upper bound and the frequency-feedback upper bound are the arguments |
| Scaling.ScaleNodeTable | src/dev/dhustigschultz/MG_CPGHierarchy/JSONHierarchyFeedbackControl.cpp:1058-1096 | Err unless there is a first row of exactly the expected width; otherwise a table of that width whose every cell is its row's entry (0.0 when missing) mapped onto its column's interval |
| Scaling.ScaleFiveColumnNodes | src/dev/dhustigschultz/MG_CPGHierarchy/JSONHierarchyFeedbackControl.cpp:1058-1096 | the five-column node scaling: rejected unless the first row has 5 entries, every cell affine in its column |
| Scaling.NodeCellInLimits | src/dev/dhustigschultz/MG_CPGHierarchy/JSONHierarchyFeedbackControl.cpp:1089-1090 | every scaled cell of a learned value in [0, 1] lies within its column's limits |
| EdgeTables.ScaleTriangularEdges | src/dev/dhustigschultz/MG_CPGHierarchy/JSONHierarchyFeedbackControl.cpp:1098-1175 | accepted exactly when there is an entry, every entry is a pair and none is left over; a cell holds the entry its rank in the walk selects from the end (weight as is, phase mapped), cells the walk skips (slice 1 diagonal, lower triangle) or reaches after the entries ran out stay unset |
| EdgeTables.ShapedNarrowFails | src/dev/dhustigschultz/MG_CPGHierarchy/JSONHierarchyFeedbackControl.cpp:1101-1148 | an entry that is not a pair under a narrow check fails every wider check too |
| EdgeTables.SliceCellInWalk | src/dev/dhustigschultz/MG_CPGHierarchy/JSONHierarchyFeedbackControl.cpp:1124-1168 | after slice i the slice's cells hold the entries of their walk ranks, and cells outside the walk keep their old value |
| EdgeTables.TriangularTotalSquare | src/dev/dhustigschultz/MG_CPGHierarchy/JSONHierarchyFeedbackControl.cpp:1124-1168 | a square table of m muscles over span >= 2 slices has span*m(m+1)/2 - m cells to fill |
| EdgeTables.RowsCountClosedForm | src/dev/dhustigschultz/MG_CPGHierarchy/JSONHierarchyFeedbackControl.cpp:1126-1164 | the rows of one slice visit t(2m-t+1)/2 cells, t fewer when the diagonal is skipped |
| EdgeTables.ScaleRunEdges | src/dev/bgigous/MG_FirstAttempt/JSONQuadFeedbackControl.cpp:594-704 | the same fill along any walk of runs (slice, row block, column end): accepted iff non-empty, all pairs, no entry left over; each cell holds the entry of the last run visiting it |
| EdgeTables.RunsCellSingle | src/dev/bgigous/MG_FirstAttempt/JSONQuadFeedbackControl.cpp:646-688 | a cell visited by a single run, within the entries, holds that entry, weight as is and phase mapped |
| EdgeTables.RunsCellUnvisited | src/dev/bgigous/MG_FirstAttempt/JSONQuadFeedbackControl.cpp:640-644 | a cell no run visits keeps its zero value |
| Feedback.CableState | src/dev/dhustigschultz/MG_CPGHierarchy/JSONHierarchyFeedbackControl.cpp:1241-1255 | the stretch relative to the start length and the tension relative to half the maximum, in units of the maximum |
| Feedback.CableStateBounded | src/dev/dhustigschultz/MG_CPGHierarchy/JSONHierarchyFeedbackControl.cpp:1241-1255 | a cable between 0 and twice its start length, with tension within its limit, reads inside [-1, 1] |
| Feedback.NetworkInputs | src/dev/dhustigschultz/MG_CPGHierarchy/JSONHierarchyFeedbackControl.cpp:1194-1198 | network inputs s/2 + 0.5: [-1, 1] maps onto [0, 1] and back |
| Feedback.TransformFeedback | src/dev/dhustigschultz/MG_CPGHierarchy/JSONHierarchyFeedbackControl.cpp:1257-1279 | exactly numActions commands 2y - 1: [0, 1] maps onto [-1, 1] |
| Feedback.CollectFeedback | src/dev/dhustigschultz/MG_CPGHierarchy/JSONHierarchyFeedbackControl.cpp:1177-1237 | the feedback is the cables' blocks in cable order then the higher controllers' blocks, numActions per block; each cable's network input is its rescaled two-value state in slots 0 and 1 of the numStates-slot buffer, the other slots holding what the fresh buffer held; each higher controller's input is all zeros |
| Feedback.CablesFeedbackAt | src/dev/dhustigschultz/MG_CPGHierarchy/JSONHierarchyFeedbackControl.cpp:1187-1211 | command m of cable c's block is twice the network's m-th output for that cable's input buffer, less one |
| Scoring.TotalEnergy | src/dev/dhustigschultz/MG_CPGHierarchy/JSONHierarchyFeedbackControl.cpp:332-354 | the nested loop computes the energy: per cable, previous tension times the rest-length change, lengthening counted as zero |
| Scoring.EnergyNonPositive | src/dev/dhustigschultz/MG_CPGHierarchy/JSONHierarchyFeedbackControl.cpp:340-351 | with non-negative tensions the energy is never positive |
| Scoring.StepWorkNonPositive | src/dev/dhustigschultz/MG_CPGHierarchy/JSONHierarchyFeedbackControl.cpp:344-349 | one step's work, previous tension times the rest-length change with lengthening counted as zero, is never positive |
| Scoring.LengtheningIsFree | src/dev/dhustigschultz/MG_CPGHierarchy/JSONHierarchyFeedbackControl.cpp:346-348 | a cable whose rest length never shrinks costs nothing |
| Scoring.PlanarDistanceUnique | src/dev/dhustigschultz/MG_CPGHierarchy/JSONHierarchyFeedbackControl.cpp:313-319 | the x/z distance is determined by the two points (the height is ignored) |
| Scoring.AbortedScoresLowest | src/dev/dhustigschultz/MG_CPGHierarchy/JSONHierarchyFeedbackControl.cpp:321-328 | a bogus trial scores -1, below every distance a completed trial can score |
| ActuatorControl.NodeParams | src/dev/dhustigschultz/MG_Controller/tgCPGMGActuatorControl.cpp:110-117 | the seven node parameters: frequency twice, radius twice, then 20.0, 0.0 and 5.0 |
| ActuatorControl.PairEdgeSymmetric | src/dev/dhustigschultz/MG_Controller/tgCPGMGActuatorControl.cpp:160-175 | the coupling lookup reads [min][max], so it is the same from either end |
| ActuatorControl.CPGActuator.constructor | src/dev/dhustigschultz/MG_Controller/tgCPGMGActuatorControl.cpp:44-56 | clocks at zero, no bodies, control step kept (44-50); the node number -1 and the empty network link are the base class's initial state, whose constructor is not part of this model |
| ActuatorControl.CPGActuator.New | src/dev/dhustigschultz/MG_Controller/tgCPGMGActuatorControl.cpp:44-56 | a negative control step is an invalid argument; otherwise clocks at zero, no bodies, node unassigned (-1) |
| ActuatorControl.CPGActuator.OnAttach | src/dev/dhustigschultz/MG_Controller/tgCPGMGActuatorControl.cpp:65-78 | the control length starts as the start length; the bodies are the first and last anchors' |
| ActuatorControl.CPGActuator.OnStep | src/dev/dhustigschultz/MG_Controller/tgCPGMGActuatorControl.cpp:80-101 | both clocks advance by dt; at the control step a command is issued and the control clock restarts, otherwise the motor moves for dt, never both; the clock stays below the step |
| ActuatorControl.CPGActuator.AssignNodeNumber | src/dev/dhustigschultz/MG_Controller/tgCPGMGActuatorControl.cpp:103-120 | requires an unassigned node; appends a node built from row 0 to the network and keeps its number |
| ActuatorControl.CPGActuator.SetConnectivity | src/dev/dhustigschultz/MG_Controller/tgCPGMGActuatorControl.cpp:122-182 | requires an assigned node in the same system; adds exactly the couplings Couplings lists, in cable order, with parallel weight and phase lists, after the node's earlier ones; no other node changes |
| ActuatorControl.CouplingsMembers | src/dev/dhustigschultz/MG_Controller/tgCPGMGActuatorControl.cpp:139-176 | every other cable sharing a body is a neighbour, with the table's [min][max] weight and phase |
| ActuatorControl.CouplingsOnlyShared | src/dev/dhustigschultz/MG_Controller/tgCPGMGActuatorControl.cpp:142-157 | every neighbour is another cable that shares a body (any of the four end equalities) |
| ActuatorControl.NoSelfCoupling | src/dev/dhustigschultz/MG_Controller/tgCPGMGActuatorControl.cpp:142 | with distinct node numbers a node is never its own neighbour |
| ActuatorControl.SharesBodySymmetric | src/dev/dhustigschultz/MG_Controller/tgCPGMGActuatorControl.cpp:152-155 | sharing a body is symmetric, so coupling is two-way |
| ActuatorControl.CPGActuator.SetupControl | src/dev/dhustigschultz/MG_Controller/tgCPGMGActuatorControl.cpp:189-199 | a negative control length is an invalid argument and changes nothing; otherwise it replaces the control length |
| MGControl.CheckConfig | src/dev/dhustigschultz/MG_Controller/JSONMGCPGGeneralControl.cpp:90-129 | accepted iff all sizes are positive, the segment number non-negative and every gain, time and length non-negative; each of the ten messages is given exactly when its check fails and all earlier checks pass |
| MGControl.MGController.constructor | src/dev/dhustigschultz/MG_Controller/JSONMGCPGGeneralControl.cpp:137-156 | the control file name is ControlFilename of its arguments; clock at zero, not bogus, no controllers, no scores |
| MGControl.ControlFilename | src/dev/dhustigschultz/MG_Controller/JSONMGCPGGeneralControl.cpp:146-155 | the file name is the resolved resource path followed by args, or args alone when no path is given |
| MGControl.FreqAmpLimits | src/dev/dhustigschultz/MG_Controller/JSONMGCPGGeneralControl.cpp:463-496 | node columns: frequency and amplitude intervals from the configuration |
| MGControl.MGController.ScaleNodeActions | src/dev/dhustigschultz/MG_Controller/JSONMGCPGGeneralControl.cpp:463-496 | rejected unless the first row has exactly 2 entries; every cell affine in its column |
| MGControl.MGController.ScaleEdgeActions | src/dev/dhustigschultz/MG_Controller/JSONMGCPGGeneralControl.cpp:388-462 | accepted iff non-empty, all pairs, none left over, and the table's last dimension holds the phase (params >= 2, which the config check does not demand); cell (j, k) holds the entry of its rank in the row-by-row walk of j < k from the end, every other cell unset |
| MGControl.PairCellUpperOnly | src/dev/dhustigschultz/MG_Controller/JSONMGCPGGeneralControl.cpp:407-459 | only the strict upper triangle is filled |
| MGControl.PairRankInjective | src/dev/dhustigschultz/MG_Controller/JSONMGCPGGeneralControl.cpp:407-459 | distinct cells take distinct entries |
| MGControl.PairCount | src/dev/dhustigschultz/MG_Controller/JSONMGCPGGeneralControl.cpp:407-459 | the walk visits their(2*our - their - 1)/2 cells |
| MGControl.PairRankStep | src/dev/dhustigschultz/MG_Controller/JSONMGCPGGeneralControl.cpp:407-459 | cell (j, k) is the walk's rank-th cell, inside row j's run of ranks |
| MGControl.MGController.SetupCPGs | src/dev/dhustigschultz/MG_Controller/JSONMGCPGGeneralControl.cpp:205-251 | node numbers are consecutive, all nodes built from row 0; each node's couplings are declared once, after any it had; control lengths are the configured one unless the default is used |
| MGControl.MGController.AssignNodes | src/dev/dhustigschultz/MG_Controller/JSONMGCPGGeneralControl.cpp:225-229 | each cable gets the next node number, in cable order, on the shared network, built from node row 0 |
| MGControl.MGController.ConnectCables | src/dev/dhustigschultz/MG_Controller/JSONMGCPGGeneralControl.cpp:231-249 | every cable's couplings are added on its own node after the ones it had, and nothing else changes |
| MGControl.ConnectedAt | src/dev/dhustigschultz/MG_Controller/JSONMGCPGGeneralControl.cpp:231-249 | after setup, node base + x carries its earlier couplings followed by exactly cable x's |
| MGControl.ConnectedElsewhere | src/dev/dhustigschultz/MG_Controller/JSONMGCPGGeneralControl.cpp:231-249 | nodes outside the new range keep their couplings |
| MGControl.MGController.ResetTrial | src/dev/dhustigschultz/MG_Controller/JSONMGCPGGeneralControl.cpp:193-202 | the start position is recorded, the clock restarts, the trial is not bogus |
| MGControl.MGController.OnStep | src/dev/dhustigschultz/MG_Controller/JSONMGCPGGeneralControl.cpp:253-279 | at the control time the network integrates 2.0 for every muscle and the clock restarts; a divergence raises before the clock restarts; a height outside [1, 25] marks the trial bogus without stopping it |
| MGControl.MGController.OnTeardown | src/dev/dhustigschultz/MG_Controller/JSONMGCPGGeneralControl.cpp:281-367 | scores are [distance or -1, energy of all cables], appended to the file's scores; controllers released; getScore then yields the distance score |
| MGControl.MGController.GetScore | src/dev/dhustigschultz/MG_Controller/JSONMGCPGGeneralControl.cpp:375-385 | the first score exactly when there are two, otherwise a runtime error |
| HierarchyControl.HierarchyController.ScaleNodeActions | src/dev/dhustigschultz/MG_CPGHierarchy/JSONHierarchyFeedbackControl.cpp:1058-1096 | five affine columns whose frequency bounds are the arguments; rejected unless 5 entries |
| HierarchyControl.HierarchyController.constructor | src/dev/dhustigschultz/MG_CPGHierarchy/JSONHierarchyFeedbackControl.cpp:122-130 | configuration kept (126); the zero clocks, cleared abort flag and empty scores come from the base-class constructor, which is not part of this model |
| HierarchyControl.HierarchyController.ScaleEdgeActions | src/dev/dhustigschultz/MG_CPGHierarchy/JSONHierarchyFeedbackControl.cpp:1098-1175 | the triangular fill with phases in [lowPhase, highPhase] |
| HierarchyControl.HierarchyController.GetFeedback | src/dev/dhustigschultz/MG_CPGHierarchy/JSONHierarchyFeedbackControl.cpp:1177-1237 | numActions commands per "all " cable (1187-1210), then one all-zero-input block per higher controller (1213-1235) |
| HierarchyControl.HierarchyController.ResetTrial | src/dev/dhustigschultz/MG_CPGHierarchy/JSONHierarchyFeedbackControl.cpp:214-251 | clocks restart, not bogus, start position and initial centre of mass recorded |
| HierarchyControl.HierarchyController.OnStep | src/dev/dhustigschultz/MG_CPGHierarchy/JSONHierarchyFeedbackControl.cpp:260-303 | both clocks advance; the update runs only at the control time and then restarts the update clock; a divergence or a height outside the band sets bogus and aborts |
| HierarchyControl.HierarchyController.OnTeardown | src/dev/dhustigschultz/MG_CPGHierarchy/JSONHierarchyFeedbackControl.cpp:305-399 | scores [distance or -1, energy], metrics the final centre of mass, both appended |
| AchillesControl.ExtractGain | src/dev/dhustigschultz/MG_AchillesOnly_CPGH/JSONAOHierarchyControl.cpp:249-269 | the gain is element 0 of params, after unwrapping one nested array; missing reads 0.0; a non-array cannot be indexed |
| AchillesControl.ExtractGainUnwrapsOnce | src/dev/dhustigschultz/MG_AchillesOnly_CPGH/JSONAOHierarchyControl.cpp:258-265 | [x, ...] and [[x, ...], ...] give the same gain |
| AchillesControl.AchillesController.ReadGains | src/dev/dhustigschultz/MG_AchillesOnly_CPGH/JSONAOHierarchyControl.cpp:249-269 | P and D set from the extracted gains; P stored before D is converted |
| AchillesControl.AchillesController.constructor | src/dev/dhustigschultz/MG_AchillesOnly_CPGH/JSONAOHierarchyControl.cpp:126-134 | configuration kept (130), the tracked segment taken from it and the rear segment fixed at 6; the zero clocks and cleared abort flag come from the base-class constructor, which is not part of this model |
| AchillesControl.AchillesController.ResetTrial | src/dev/dhustigschultz/MG_AchillesOnly_CPGH/JSONAOHierarchyControl.cpp:203-241 | clocks restart, not bogus, start position recorded, metrics the structure's centre of mass, which is also appended to the file's metrics |
| AchillesControl.AchillesController.ScaleNodeActions | src/dev/dhustigschultz/MG_AchillesOnly_CPGH/JSONAOHierarchyControl.cpp:618-656 | five affine columns; rejected unless 5 entries |
| AchillesControl.AchillesController.ScaleEdgeActions | src/dev/dhustigschultz/MG_AchillesOnly_CPGH/JSONAOHierarchyControl.cpp:658-735 | the triangular fill |
| AchillesControl.AchillesController.GetFeedback | src/dev/dhustigschultz/MG_AchillesOnly_CPGH/JSONAOHierarchyControl.cpp:737-774 | numActions commands per "only " cable and none for other controllers |
| AchillesControl.AchillesController.OnStep | src/dev/dhustigschultz/MG_AchillesOnly_CPGH/JSONAOHierarchyControl.cpp:274-318 | the timer gate; the trial aborts if either the tracked segment or segment 6 leaves the band |
| AchillesControl.AchillesController.OnTeardown | src/dev/dhustigschultz/MG_AchillesOnly_CPGH/JSONAOHierarchyControl.cpp:320-449 | scores [distance or -1, energy of "only " cables], metrics the final centre of mass |
| StatsControl.StatsController.ScaleNodeActions | src/dev/dhustigschultz/BP_SC_NoLegs_Stats/JSONStatsFeedbackControl.cpp:429-467 | five affine columns with the configured frequency bounds; rejected unless 5 entries |
| StatsControl.StatsController.constructor | src/dev/dhustigschultz/BP_SC_NoLegs_Stats/JSONStatsFeedbackControl.cpp:105-113 | configuration kept (109); the zero clocks and cleared abort flag come from the base-class constructor, which is not part of this model; the step counter starts at zero |
| StatsControl.CounterAfter | src/dev/dhustigschultz/BP_SC_NoLegs_Stats/JSONStatsFeedbackControl.cpp:252-276 | the counter never leaves [0, 101] |
| StatsControl.StatsController.ResetTrial | src/dev/dhustigschultz/BP_SC_NoLegs_Stats/JSONStatsFeedbackControl.cpp:164-202 | clocks restart, not bogus, start position recorded, metrics the structure's centre of mass, which is also appended to the file's metrics; the step counter is left as it is |
| StatsControl.StatsController.GetFeedback | src/dev/dhustigschultz/BP_SC_NoLegs_Stats/JSONStatsFeedbackControl.cpp:469-507 | numActions commands per "spine " cable |
| StatsControl.StatsController.OnStep | src/dev/dhustigschultz/BP_SC_NoLegs_Stats/JSONStatsFeedbackControl.cpp:209-277 | the timer gate and height bound; a surviving step advances the counter, which past 100 is reset and clears the metrics |
| StatsControl.CounterPeriod | src/dev/dhustigschultz/BP_SC_NoLegs_Stats/JSONStatsFeedbackControl.cpp:252-276 | the counter after s surviving steps is s mod 102 |
| StatsControl.StatsController.OnTeardown | src/dev/dhustigschultz/BP_SC_NoLegs_Stats/JSONStatsFeedbackControl.cpp:279-383 | scores [distance or -1, energy of "spine " cables]; metrics exactly the 3 final centre-of-mass coordinates |
| QuadControl.NodeRowsPaired | src/dev/bgigous/MG_FirstAttempt/JSONQuadFeedbackControl.cpp:389-391 | part b takes node row (b+1)/2 + 5; a shoulder or hip shares its row with its leg |
| QuadControl.BlocksMatchSetup | src/dev/bgigous/MG_FirstAttempt/JSONQuadFeedbackControl.cpp:404-438 | with corrected block sizes every block starts where setupCPGs reads it (16 for the spine, then hip or leg counts) |
| QuadControl.BlockSizes | src/dev/bgigous/MG_FirstAttempt/JSONQuadFeedbackControl.cpp:412-417 | the corrected sizes: block b as wide as part b's muscles |
| QuadControl.OwnBlockBounds | src/dev/bgigous/MG_FirstAttempt/JSONQuadFeedbackControl.cpp:412-437 | part b's corrected block starts where setupCPGs reads part b and is as wide as its muscles |
| QuadControl.OtherBlockMisses | src/dev/bgigous/MG_FirstAttempt/JSONQuadFeedbackControl.cpp:632-697 | blocks are disjoint: a row inside block b lies outside every other block |
| QuadControl.SetupReadsOwnBlock | src/dev/bgigous/MG_FirstAttempt/JSONQuadFeedbackControl.cpp:412-417 | every coupling setupCPGs copies for part b is filled by b's own run and no other |
| QuadControl.BlockEnd | src/dev/bgigous/MG_FirstAttempt/JSONQuadFeedbackControl.cpp:632-697 | the blocks end at 16 + 4 hip + 4 leg in both layouts |
| QuadControl.AsWrittenAgreesIffUniform | src/dev/bgigous/MG_FirstAttempt/JSONQuadFeedbackControl.cpp:696 | the as-written sizes are right exactly when hips and legs have equal counts |
| QuadControl.AsWrittenBlocksMisaligned | src/dev/bgigous/MG_FirstAttempt/JSONQuadFeedbackControl.cpp:696 | with 1 hip and 2 leg muscles, a coupling setupCPGs reads is never filled by the as-written fill |
| QuadControl.AsWrittenBlockSizes | src/dev/bgigous/MG_FirstAttempt/JSONQuadFeedbackControl.cpp:696 | the as-written sizes: the spine's 16, then part 1 gets the leg count and each later part b+1 gets part b's width |
| QuadControl.HighLowRunsTile | src/dev/bgigous/MG_FirstAttempt/JSONQuadFeedbackControl.cpp:487-513 | the five high-level runs lie end to end and cover exactly the low-level nodes |
| QuadControl.QuadController.RowLimits | src/dev/bgigous/MG_FirstAttempt/JSONQuadFeedbackControl.cpp:816-825 | frequency-feedback bounds switch to the high-CPG bounds for rows past spine + 4 hip + 4 leg, and stay switched |
| QuadControl.QuadController.constructor | src/dev/bgigous/MG_FirstAttempt/JSONQuadFeedbackControl.cpp:119-127 | configuration kept (123); the zero clock and cleared abort flag come from the base-class constructor, which is not part of this model |
| QuadControl.QuadController.ScaleNodeActions | src/dev/bgigous/MG_FirstAttempt/JSONQuadFeedbackControl.cpp:790-836 | five affine columns with the row's limits; rejected unless 5 entries |
| QuadControl.QuadController.ScaleEdgeActions | src/dev/bgigous/MG_FirstAttempt/JSONQuadFeedbackControl.cpp:594-704 | the block-diagonal fill with corrected block sizes: spine block in every slice, other parts in slice 1 only |
| QuadControl.QuadController.ScaleHighEdgeActions | src/dev/bgigous/MG_FirstAttempt/JSONQuadFeedbackControl.cpp:706-788 | accepted iff 1..10 pair entries; the strict upper triangle of 5 x 5, each entry copied into every slice |
| QuadControl.HighPairs | src/dev/bgigous/MG_FirstAttempt/JSONQuadFeedbackControl.cpp:738-781 | the five higher-level CPGs have ten couplings |
| QuadControl.HighRankInRow | src/dev/bgigous/MG_FirstAttempt/JSONQuadFeedbackControl.cpp:738-781 | high cell (j, k) takes the walk's rank-th entry, within row j's run |
| QuadControl.QuadController.SetupHighLowCouplings | src/dev/bgigous/MG_FirstAttempt/JSONQuadFeedbackControl.cpp:478-518 | high CPG b takes the (b+1)-th entry from the end and adds couplings to its run of nodes; exactly five pair entries are accepted; a malformed entry stops with the earlier CPGs coupled |
| QuadControl.HighLowCouplingsAt | src/dev/bgigous/MG_FirstAttempt/JSONQuadFeedbackControl.cpp:468-513 | high CPG b keeps the couplings declared among the high CPGs (line 472) and gains its run after them |
| QuadControl.QuadController.GetFeedback | src/dev/bgigous/MG_FirstAttempt/JSONQuadFeedbackControl.cpp:838-913 | the nine parts' cables in order, then one block per higher controller |
| QuadControl.QuadController.ResetTrial | src/dev/bgigous/MG_FirstAttempt/JSONQuadFeedbackControl.cpp:200-214 | clock restarts, not bogus, start position recorded |
| QuadControl.QuadController.OnStep | src/dev/bgigous/MG_FirstAttempt/JSONQuadFeedbackControl.cpp:217-258 | the hierarchy controller's timer gate and height bound |
| QuadControl.QuadController.OnTeardown | src/dev/bgigous/MG_FirstAttempt/JSONQuadFeedbackControl.cpp:260-357 | scores [distance or -1, energy of the spine cables] |
| QuadModel.ToSize | src/dev/dhustigschultz/BigPuppy_SpineOnly_Stats/BaseQuadModelLearning.cpp:41-47 | int to size_t conversion modulo 2^64 |
| QuadModel.BaseQuadModel.constructor | src/dev/dhustigschultz/BigPuppy_SpineOnly_Stats/BaseQuadModelLearning.cpp:41-47 | subStructures = hips + segments, containers empty |
| QuadModel.BaseQuadModel.Teardown | src/dev/dhustigschultz/BigPuppy_SpineOnly_Stats/BaseQuadModelLearning.cpp:62-72 | muscles, segments and the muscle map are emptied |
| QuadModel.BaseQuadModel.GetMuscles | src/dev/dhustigschultz/BigPuppy_SpineOnly_Stats/BaseQuadModelLearning.cpp:84-96 | the tagged cables, or invalid_argument naming the key exactly when the key is unknown |
| QuadModel.BaseQuadModel.CheckSegment | src/dev/dhustigschultz/BigPuppy_SpineOnly_Stats/BaseQuadModelLearning.cpp:128-139 | runtime_error unless all segments exist; range_error for n < 0 or n >= subStructures |
| QuadModel.BaseQuadModel.GetAllRigids | src/dev/dhustigschultz/BigPuppy_SpineOnly_Stats/BaseQuadModelLearning.cpp:103-119 | all rigids segment by segment, or runtime_error unless all segments exist |
| QuadModel.AllRigidsMembers | src/dev/dhustigschultz/BigPuppy_SpineOnly_Stats/BaseQuadModelLearning.cpp:112-116 | a rigid is returned exactly when it belongs to some segment |
| QuadModel.SegmentCOM | src/dev/dhustigschultz/BigPuppy_SpineOnly_Stats/BaseQuadModelLearning.cpp:195-219 | fails exactly when the segment has no rods or its rods have no mass; the mass is the rods' total |
| QuadModel.SegmentCOMMoment | src/dev/dhustigschultz/BigPuppy_SpineOnly_Stats/BaseQuadModelLearning.cpp:201-219 | the segment's centre of mass times its mass is its rods' moment |
| QuadModel.SegmentCOMUniform | src/dev/dhustigschultz/BigPuppy_SpineOnly_Stats/BaseQuadModelLearning.cpp:201-219 | rods all at c give a segment centre of mass at c |
| QuadModel.Rods | src/dev/dhustigschultz/BigPuppy_SpineOnly_Stats/BaseQuadModelLearning.cpp:195-200 | only the rods of a segment's rigids count |
| QuadModel.OneRodSegment | src/dev/dhustigschultz/BigPuppy_SpineOnly_Stats/BaseQuadModelLearning.cpp:201-219 | a one-rod segment has that rod's centre and mass |
| QuadModel.BaseQuadModel.GetSegmentCOMVector | src/dev/dhustigschultz/BigPuppy_SpineOnly_Stats/BaseQuadModelLearning.cpp:180-222 | the checks, then the rods' mass-weighted average; a successful call appends the positive mass to the log, a failing one changes nothing |
| QuadModel.BaseQuadModel.GetSegmentCOM | src/dev/dhustigschultz/BigPuppy_SpineOnly_Stats/BaseQuadModelLearning.cpp:168-178 | the same point as three coordinates |
| QuadModel.BaseQuadModel.GetCOM | src/dev/dhustigschultz/BigPuppy_SpineOnly_Stats/BaseQuadModelLearning.cpp:126-166 | the checks, then the mass-weighted average of segments n..end, each weighted by its own mass; each visited segment logs its mass |
| QuadModel.BaseQuadModel.GetCOMAsWritten | src/dev/dhustigschultz/BigPuppy_SpineOnly_Stats/BaseQuadModelLearning.cpp:141-165 | the loop as written: segment i weighted by the i-th logged mass |
| QuadModel.CenterOfMass | src/dev/dhustigschultz/BigPuppy_SpineOnly_Stats/BaseQuadModelLearning.cpp:141-165 | fails exactly when the survey of segments fails, with that error |
| QuadModel.AverageUniform | src/dev/dhustigschultz/BigPuppy_SpineOnly_Stats/BaseQuadModelLearning.cpp:141-165 | segments all at c average to c |
| QuadModel.AsWrittenAgreesWhenFresh | src/dev/dhustigschultz/BigPuppy_SpineOnly_Stats/BaseQuadModelLearning.cpp:149-155 | with exactly n masses logged beforehand the as-written weights are the right ones |
| QuadModel.AsWrittenStaleMass | src/dev/dhustigschultz/BigPuppy_SpineOnly_Stats/BaseQuadModelLearning.cpp:149-155 | masses 1 and 3 at heights 0 and 4 give height 3, but 2 as written after one earlier call |
| QuadModel.SurveyPrefix | src/dev/dhustigschultz/BigPuppy_SpineOnly_Stats/BaseQuadModelLearning.cpp:144-156 | once a segment fails, later segments change nothing |
| QuadModel.SurveyOf | src/dev/dhustigschultz/BigPuppy_SpineOnly_Stats/BaseQuadModelLearning.cpp:144-156 | one centre and one positive mass per segment up to the first failing one, whose error is the failure |
| QuadModel.SurveyStops | src/dev/dhustigschultz/BigPuppy_SpineOnly_Stats/BaseQuadModelLearning.cpp:144-156 | the first failing segment ends the survey with its error |
| QuadModel.CenterOfMassIs | src/dev/dhustigschultz/BigPuppy_SpineOnly_Stats/BaseQuadModelLearning.cpp:158-165 | a survey without failure gives the mass-weighted average, over a positive total |
| QuadModel.CenterOfMassFails | src/dev/dhustigschultz/BigPuppy_SpineOnly_Stats/BaseQuadModelLearning.cpp:144-156 | a failing survey gives its failure |
| QuadModel.TwoSegmentAverage | src/dev/dhustigschultz/BigPuppy_SpineOnly_Stats/BaseQuadModelLearning.cpp:158-165 | masses 1 and 3 at heights 0 and 4 average to height 3 |
| QuadModel.StaleTwoSegmentAverage | src/dev/dhustigschultz/BigPuppy_SpineOnly_Stats/BaseQuadModelLearning.cpp:149-155 | the same segments weighted by the stale log [1, 1, 3] average to height 2 |
| PassiveControl.PassiveController.constructor | src/dev/ultra-spine/VerticalSpine/VerticalSpinePassiveController.cpp:42-46 | the logging interval is 0.01; nothing pending, nothing notified |
| PassiveControl.PassiveController.OnSetup | src/dev/ultra-spine/VerticalSpine/VerticalSpinePassiveController.cpp:48-57 | the accumulator restarts from zero |
| PassiveControl.PassiveController.OnStep | src/dev/ultra-spine/VerticalSpine/VerticalSpinePassiveController.cpp:59-84 | dt <= 0 is an invalid argument and changes nothing; otherwise dt accumulates and, on reaching the interval, the accumulated time is notified and reset; no time is lost and the accumulator stays below the interval |
| PassiveControl.RunConservesTime | src/dev/ultra-spine/VerticalSpine/VerticalSpinePassiveController.cpp:70-79 | over any run of positive steps the notified times plus the pending time equal the steps' total; pending stays in [0, interval), every notification at least the interval |
| PassiveControl.RunNotifiesByInterval | src/dev/ultra-spine/VerticalSpine/VerticalSpinePassiveController.cpp:70-79 | steps whose total reaches the interval notify at least once |
| StlParser.ArgumentFailure | src/dev/ezhu/STLParser/AppSTLParser.cpp:12-29 | fewer than 3 or more than 3 arguments, or an input name without ".stl", fail with their message, in that order |
| StlParser.FindIsFirst | src/dev/ezhu/STLParser/AppSTLParser.cpp:74 | find returns the first occurrence, and nothing only when there is none |
| StlParser.FindCharIsFirst | src/dev/ezhu/STLParser/AppSTLParser.cpp:79-82 | find_first_of returns the first space, and nothing only when there is none |
| StlParser.FieldsRoundTrip | src/dev/ezhu/STLParser/AppSTLParser.cpp:79-91 | the tokens joined by spaces give the rest of the line back, and no token holds a space |
| StlParser.EmitAllHasNoNewline | src/dev/ezhu/STLParser/AppSTLParser.cpp:102-115 | writing coordinates never writes a line end |
| StlParser.ParseLine | src/dev/ezhu/STLParser/AppSTLParser.cpp:74-124 | one line's counters and output are LineStep's |
| StlParser.Run | src/dev/ezhu/STLParser/AppSTLParser.cpp:10-148 | the early failures in order; otherwise the output and counts Parse gives for the lines read |
| StlParser.SplitExponentRejoins | src/dev/ezhu/STLParser/AppSTLParser.cpp:92-94 | the coefficient has no 'E' and, with the exponent, rebuilds the token; no 'E' gives an empty exponent |
| StlParser.SplitExponentAsWrittenDiffers | src/dev/ezhu/STLParser/AppSTLParser.cpp:92-94 | as written the split agrees exactly when the token has an 'E'; otherwise the exponent is the whole token |
| StlParser.AsWrittenPlainNumber | src/dev/ezhu/STLParser/AppSTLParser.cpp:92-99 | "2" splits as ("2", "2"), read as 2 * 10^2 |
| StlParser.EmitAllAdvances | src/dev/ezhu/STLParser/AppSTLParser.cpp:102-115 | element_index advances by one per token modulo 3 |
| StlParser.ParseCounts | src/dev/ezhu/STLParser/AppSTLParser.cpp:118-124 | vertex_count is the number of vertex lines, triangle_count a third of it, vertex_index the rest, element_index the tokens read modulo 3 |
| StlParser.ParseNewlines | src/dev/ezhu/STLParser/AppSTLParser.cpp:120-124 | the output holds exactly triangle_count line ends |
| StlParser.ThreeTokenLine | src/dev/ezhu/STLParser/AppSTLParser.cpp:102-124 | a three-token vertex line writes "[x, y, z] " and leaves element_index at 0 |

## Left out

- The CPG integrator, the impedance controller, the neural network and the physics engine are not part of this model. Each is an input: divergence is a flag, the network is a function, and lengths, tensions, masses and centres of mass are given values.
- JSON reading and writing, file helpers, console output and the data observers are left out. The parameter-file "scores" and "metrics" arrays are sequences that teardown appends to. Parsing failures ("Bad filename for JSON") are not modelled.
- sqrt (the distance is an input d >= 0 with d*d equal to the sum of squares), pow and atof (the STL tokens stay strings), and IEEE rounding: all arithmetic is on reals.
- The boost table bounds are requires clauses where the source would index out of range: SetConnectivity's lookups, and the quad fill's table width.
- Each coupling cell is a weight/phase pair, the last dimension of the source's [..][..][params] table. The mountain-goat fill (MGControl.MGController.ScaleEdgeActions) returns an error when params < 2, where the first phase written trips boost's range assertion; its config check accepts params = 1.
- EdgeTables.ScaleTriangularEdges: does not take the params dimension. The hierarchy and Achilles configurations are not modelled down to that field, so the fill assumes room for the pair; with params < 2 the source would index past the table.
- EdgeTables.ScaleRunEdges: does not take the params dimension either; for the quadruped fills (QuadControl.QuadController.ScaleEdgeActions and ScaleHighEdgeActions) params < 2 would likewise index past the table.
- Entries of a coupling list are pairs; a list whose first entry is not a pair is rejected like any other misshapen entry.
- Feedback.CollectFeedback: requires numStates >= 2 when there is a cable to read. The source writes two state values into its numStates-slot buffer and would write past it otherwise. The uninitialised slots 2 and up are modelled as a `buffer` argument of arbitrary values.
- Feedback.CableState: requires a non-zero start length and maximum tension. The source divides by both and would hand inf or NaN to the network; the model's reals have no such values.
- The CPG network's defineConnections, which CPGEquations implements, is not part of this model. Oscillator.CPGNetwork.DefineConnections adds the declared couplings after those the node already has, as the repeated declarations on one node need: the hierarchy's shoulder and foreleg runs on the same node (JSONHierarchyFeedbackControl.cpp:912 and :926), and the quadruped's high-level couplings (line 472) before its high-to-low run (line 512).
- The mountain-goat setupCPGs creates a tgCPGMGCableControl with a PID configuration (the `#if (1)` branch of JSONMGCPGGeneralControl.cpp:211-215). That subclass is not part of this model: it is taken to inherit assignNodeNumber, setConnectivity and setupControl unchanged from tgCPGMGActuatorControl, and its PID-driven motor is not modelled.
- setupCPGs of the hierarchy, Achilles, statistics and quadruped controllers is not modelled beyond its index arithmetic (node rows, block starts, high-to-low runs). Node-number assignment and coupling are modelled on the mountain-goat controller, whose tgCPGMGActuatorControl is shown.
- The quadruped setupHighCPGs coupling among the high-level CPGs reuses setConnectivity; only the high-to-low couplings are modelled.
- QuadControl.QuadController.SetupHighLowCouplings: requires at least five entries, because the source moves the iterator before the first entry when there are fewer.
- The Achilles controller's gain reading covers the "params" value onwards; the defaulted "UTF-8" string for a missing "propVals" or "derVals" key is a JSON value that cannot be indexed (an error). Booleans read as 1.0 or 0.0 and objects are refused, as jsoncpp's asDouble does; integer and unsigned JSON values are folded into one numeric case.
- StatsControl.StatsController.OnStep: the counter is a field of the controller, whereas the source keeps it in a function-local static shared by all instances. It also prints the centre of mass and the tensions, which is output only.
- QuadModel.BaseQuadModel.GetCOMAsWritten: requires that the log already holds n positive masses. With fewer, the source reads past the end of segmentMasses.
- getSpineLength of the model base class is not modelled (sqrt of a difference of two segment centres).
- PassiveControl.PassiveController.constructor: starts the accumulator at 0. The source leaves it uninitialised until onSetup.
- StlParser.Run: the counters are unbounded; the source's int counters would overflow past 2^31 - 1 lines.
- QuadControl.QuadController.ScaleEdgeActions: fills with the corrected block widths (see Findings); the as-written widths are modelled by QuadControl.AsWrittenBlockSizes and compared there.
- StlParser.Coordinate uses the corrected exponent split (see Findings); the number printed is left as the two strings handed to atof.
- The STL input is the sequence of lines getline yields while the stream is good. The extra empty line read at end of file writes nothing.
- Destructors, and the release of the CPG network at teardown, are not modelled; controllers are simply dropped from the lists.

## Findings

| source | as written | input that shows it | evidently intended | confidence | as-written member | corrected member |
|---|---|---|---|---|---|---|
| src/dev/bgigous/MG_FirstAttempt/JSONQuadFeedbackControl.cpp:696 | after part b the fill widens by the hip count when b is odd and by the leg count otherwise, so part 1 gets the leg count and each later part b+1 gets part b's size | 1 hip muscle and 2 leg muscles: the left front leg's coupling [1][17][18], which setupCPGs reads, is never filled | block b as wide as part b's muscles, as setupCPGs reads it (line 437) | high, not executed | QuadControl.AsWrittenBlocksMisaligned | QuadControl.SetupReadsOwnBlock |
| src/dev/dhustigschultz/BigPuppy_SpineOnly_Stats/BaseQuadModelLearning.cpp:149 | getCOM weights segment i by segmentMasses[i], but every getSegmentCOMVector call appends a mass (line 217), so after an earlier call the weights are stale | one earlier call logged mass 1; segments of mass 1 at height 0 and mass 3 at height 4 give 2 instead of 3 | each segment weighted by the mass just computed for it | high, not executed | QuadModel.AsWrittenStaleMass | QuadModel.BaseQuadModel.GetCOM |
| src/dev/ezhu/STLParser/AppSTLParser.cpp:92-94 | a token without 'E' gets npos from find_first_of; npos + 1 wraps to 0, so the exponent is the whole token | the token "2" is read as 2 * 10^2 | no exponent (factor 10^0) | high, not executed | StlParser.AsWrittenPlainNumber | StlParser.SplitExponentRejoins |
