/**
 * Vocabulary shared by the trial controllers: the outcome of a simulation
 * step, the exceptions that end a trial, the height safety band, and the
 * configuration fields the modelled operations read.
 */
module TrialControl {
  import opened Common
  import opened Scaling

  /** What ended a simulation step: nothing, or an exception that stops the trial. */
  datatype StepOutcome = Continue | Abort(error: Error)

  /** The configuration fields the modelled operations read. */
  datatype Config = Config(
    limits: NodeLimitConfig,
    highFreq: real, freqFeedbackMax: real,
    lowPhase: real, highPhase: real,
    controlTime: real,
    minHeight: real, maxHeight: real,
    numStates: nat, numActions: nat)

  /** The error a diverging CPG integration raises. */
  const IntegrationFailed := RuntimeError("CPG integration diverged")
  const HeightOutOfRange := RuntimeError("Height out of range")

  /** The tracked segment's height lies in the configured safety band. */
  predicate HeightInBand(height: real, minHeight: real, maxHeight: real)
  {
    !(height > maxHeight || height < minHeight)
  }
}
