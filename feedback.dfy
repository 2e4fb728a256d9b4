/**
 * Sensory feedback: each cable's state is normalised, fed through the
 * learned neural network, and the network's outputs are mapped back to
 * [-1, 1] to form the feedback commands handed to the CPG network.
 */
module Feedback {

  /** What a controller reads from one cable actuator. */
  datatype CableSensor = CableSensor(startLength: real, currentLength: real, tension: real, maxTension: real)

  /** The normalisation divides by the rest length and the maximum tension. */
  predicate Readable(c: CableSensor)
  {
    c.startLength != 0.0 && c.maxTension != 0.0
  }

  /**
   * getCableState: the stretch relative to the start length, and the tension
   * relative to half the motor's maximum tension, in units of that maximum.
   */
  function CableState(c: CableSensor): (s: seq<real>)
    requires Readable(c)
    ensures |s| == 2
    ensures s[0] * c.startLength == c.currentLength - c.startLength
    ensures s[1] * c.maxTension == c.tension - c.maxTension / 2.0
  {
    [(c.currentLength - c.startLength) / c.startLength, (c.tension - c.maxTension / 2.0) / c.maxTension]
  }

  /** A cable between zero and twice its start length, under a tension within its limit, reads inside [-1, 1]. */
  lemma CableStateBounded(c: CableSensor)
    requires c.startLength > 0.0 && c.maxTension > 0.0
    requires 0.0 <= c.currentLength <= 2.0 * c.startLength
    requires 0.0 <= c.tension <= c.maxTension
    ensures forall x <- CableState(c) :: -1.0 <= x <= 1.0
  {
    var s := CableState(c);
    QuotientBounded(c.currentLength - c.startLength, c.startLength);
    QuotientBounded(c.tension - c.maxTension / 2.0, c.maxTension);
    assert s[0] == (c.currentLength - c.startLength) / c.startLength;
    assert s[1] == (c.tension - c.maxTension / 2.0) / c.maxTension;
  }

  lemma QuotientBounded(a: real, b: real)
    requires b > 0.0 && -b <= a <= b
    ensures -1.0 <= a / b <= 1.0
  {
  }

  /** Rescaling of a state vector from [-1, 1] to the network's input range [0, 1]. */
  function NetworkInputs(state: seq<real>): (r: seq<real>)
    ensures |r| == |state|
    ensures forall i | 0 <= i < |r| :: state[i] == 2.0 * (r[i] - 0.5)
    ensures forall i | 0 <= i < |r| :: (0.0 <= r[i] <= 1.0 <==> -1.0 <= state[i] <= 1.0)
  {
    seq(|state|, i requires 0 <= i < |state| => state[i] / 2.0 + 0.5)
  }

  /**
   * transformFeedbackActions: the first numActions network outputs, mapped
   * from the network's output range [0, 1] back to [-1, 1].
   */
  function TransformFeedback(output: seq<real>, numActions: nat): (r: seq<real>)
    requires numActions <= |output|
    ensures |r| == numActions
    ensures forall j | 0 <= j < numActions :: r[j] + 1.0 == 2.0 * output[j]
    ensures forall j | 0 <= j < numActions :: (-1.0 <= r[j] <= 1.0 <==> 0.0 <= output[j] <= 1.0)
  {
    seq(numActions, j requires 0 <= j < numActions => output[j] * 2.0 - 1.0)
  }

  /** The network produces at least numActions outputs for every input. */
  ghost predicate ProducesActions(nn: seq<real> -> seq<real>, numActions: nat)
  {
    forall x :: numActions <= |nn(x)|
  }

  /**
   * The network input for one cable.  getFeedback allocates one input buffer
   * of numStates slots and, for each cable, writes only the two rescaled
   * state values into slots 0 and 1; nothing writes the other slots before
   * the last cable, so they keep what the fresh buffer held (`buffer`).
   */
  function CableInputs(c: CableSensor, buffer: seq<real>): (r: seq<real>)
    requires Readable(c) && |buffer| >= 2
    ensures |r| == |buffer|
    ensures forall k | 0 <= k < 2 :: CableState(c)[k] == 2.0 * (r[k] - 0.5)
    ensures forall k | 2 <= k < |r| :: r[k] == buffer[k]
  {
    NetworkInputs(CableState(c)) + buffer[2..]
  }

  /** Feedback block of one cable. */
  function CableFeedback(c: CableSensor, buffer: seq<real>, numActions: nat, nn: seq<real> -> seq<real>): seq<real>
    requires Readable(c) && |buffer| >= 2 && ProducesActions(nn, numActions)
  {
    TransformFeedback(nn(CableInputs(c, buffer)), numActions)
  }

  /** Feedback block of a higher-level controller: the network's answer to an all-zero input. */
  function HighFeedback(numStates: nat, numActions: nat, nn: seq<real> -> seq<real>): seq<real>
    requires ProducesActions(nn, numActions)
  {
    TransformFeedback(nn(seq(numStates, _ => 0.0)), numActions)
  }

  /** The cables' feedback blocks in cable order. */
  function CablesFeedback(cables: seq<CableSensor>, buffer: seq<real>, numActions: nat,
                          nn: seq<real> -> seq<real>): (r: seq<real>)
    requires forall c <- cables :: Readable(c)
    requires cables != [] ==> |buffer| >= 2
    requires ProducesActions(nn, numActions)
  {
    if cables == [] then []
    else CablesFeedback(cables[..|cables| - 1], buffer, numActions, nn)
         + CableFeedback(cables[|cables| - 1], buffer, numActions, nn)
  }

  /** `count` copies of the higher-level feedback block. */
  function HighsFeedback(count: nat, numStates: nat, numActions: nat, nn: seq<real> -> seq<real>): seq<real>
    requires ProducesActions(nn, numActions)
  {
    if count == 0 then []
    else HighsFeedback(count - 1, numStates, numActions, nn) + HighFeedback(numStates, numActions, nn)
  }

  /** Each cable contributes numActions commands. */
  lemma {:induction false} CablesFeedbackLength(cables: seq<CableSensor>, buffer: seq<real>, numActions: nat,
                                                nn: seq<real> -> seq<real>)
    requires forall c <- cables :: Readable(c)
    requires cables != [] ==> |buffer| >= 2
    requires ProducesActions(nn, numActions)
    ensures |CablesFeedback(cables, buffer, numActions, nn)| == numActions * |cables|
  {
    if cables != [] {
      var n := |cables| - 1;
      CablesFeedbackLength(cables[..n], buffer, numActions, nn);
      assert numActions * |cables| == numActions * n + numActions;
    }
  }

  /** Each higher-level controller contributes numActions commands. */
  lemma {:induction false} HighsFeedbackLength(count: nat, numStates: nat, numActions: nat, nn: seq<real> -> seq<real>)
    requires ProducesActions(nn, numActions)
    ensures |HighsFeedback(count, numStates, numActions, nn)| == numActions * count
  {
    if count != 0 {
      HighsFeedbackLength(count - 1, numStates, numActions, nn);
      assert numActions * count == numActions * (count - 1) + numActions;
    }
  }

  /** Command m of cable c's block is twice the network's m-th output less one. */
  lemma {:induction false} CablesFeedbackAt(cables: seq<CableSensor>, buffer: seq<real>, numActions: nat,
                                            nn: seq<real> -> seq<real>, c: nat, m: nat)
    requires forall x <- cables :: Readable(x)
    requires |buffer| >= 2
    requires ProducesActions(nn, numActions)
    requires c < |cables| && m < numActions
    ensures numActions * c + m < |CablesFeedback(cables, buffer, numActions, nn)|
    ensures CablesFeedback(cables, buffer, numActions, nn)[numActions * c + m]
            == 2.0 * nn(CableInputs(cables[c], buffer))[m] - 1.0
  {
    var n := |cables| - 1;
    var init := cables[..n];
    var front := CablesFeedback(init, buffer, numActions, nn);
    var block := CableFeedback(cables[n], buffer, numActions, nn);
    assert CablesFeedback(cables, buffer, numActions, nn) == front + block;
    CablesFeedbackLength(init, buffer, numActions, nn);
    if c < n {
      CablesFeedbackAt(init, buffer, numActions, nn, c, m);
      assert init[c] == cables[c];
      MultiplyMonotone(numActions, c + 1, n);
      assert numActions * c + m < numActions * (c + 1);
    } else {
      assert numActions * c + m == |front| + m;
    }
  }

  lemma MultiplyMonotone(a: nat, b: nat, c: nat)
    requires b <= c
    ensures a * b <= a * c
  {
  }

  /**
   * getFeedback: one block per cable, in cable order, followed by one block
   * per higher-level controller.  `buffer` is what the freshly allocated
   * numStates-slot input buffer holds; each cable writes its two rescaled
   * state values into it, and each higher-level controller first clears all
   * numStates slots.  The source writes past the buffer when a cable is read
   * into fewer than two slots, so that is refused.
   */
  method CollectFeedback(cables: seq<CableSensor>, numHigh: nat, numStates: nat, numActions: nat,
                         nn: seq<real> -> seq<real>, buffer: seq<real>)
    returns (feedback: seq<real>)
    requires forall c <- cables :: Readable(c)
    requires |buffer| == numStates && (cables != [] ==> numStates >= 2)
    requires ProducesActions(nn, numActions)
    ensures feedback == CablesFeedback(cables, buffer, numActions, nn) + HighsFeedback(numHigh, numStates, numActions, nn)
    ensures |feedback| == numActions * (|cables| + numHigh)
  {
    var inputs := new real[numStates](k requires 0 <= k < numStates => buffer[k]);
    var low := CableBlocks(inputs, cables, buffer, numActions, nn);
    var high := HighBlocks(inputs, numHigh, numActions, nn);
    feedback := low + high;
    CablesFeedbackLength(cables, buffer, numActions, nn);
    HighsFeedbackLength(numHigh, numStates, numActions, nn);
  }

  /** Slots 2 and up of the input buffer still hold what the fresh buffer held. */
  predicate Untouched(inputs: seq<real>, buffer: seq<real>)
  {
    |inputs| == |buffer| && forall k | 2 <= k < |inputs| :: inputs[k] == buffer[k]
  }

  /** The loop over the cables: each cable's state written into the buffer, then its block appended. */
  method CableBlocks(inputs: array<real>, cables: seq<CableSensor>, ghost buffer: seq<real>, numActions: nat,
                     nn: seq<real> -> seq<real>)
    returns (feedback: seq<real>)
    requires forall c <- cables :: Readable(c)
    requires Untouched(inputs[..], buffer) && (cables != [] ==> |buffer| >= 2)
    requires ProducesActions(nn, numActions)
    modifies inputs
    ensures feedback == CablesFeedback(cables, buffer, numActions, nn)
  {
    feedback := [];
    var i := 0;
    while i < |cables|
      invariant 0 <= i <= |cables|
      invariant Untouched(inputs[..], buffer)
      invariant feedback == CablesFeedback(cables[..i], buffer, numActions, nn)
    {
      WriteInputs(inputs, CableState(cables[i]));
      assert inputs[..] == CableInputs(cables[i], buffer);
      var output := nn(inputs[..]);
      var block := TransformFeedback(output, numActions);
      assert cables[..i + 1][..i] == cables[..i];
      feedback := feedback + block;
      i := i + 1;
    }
    assert cables[..|cables|] == cables;
  }

  /** The loop over the higher-level controllers: the buffer cleared, then the network's block appended. */
  method HighBlocks(inputs: array<real>, numHigh: nat, numActions: nat, nn: seq<real> -> seq<real>)
    returns (feedback: seq<real>)
    requires ProducesActions(nn, numActions)
    modifies inputs
    ensures feedback == HighsFeedback(numHigh, inputs.Length, numActions, nn)
  {
    feedback := [];
    var h := 0;
    while h < numHigh
      invariant 0 <= h <= numHigh
      invariant feedback == HighsFeedback(h, inputs.Length, numActions, nn)
    {
      ClearInputs(inputs);
      var output := nn(inputs[..]);
      feedback := feedback + TransformFeedback(output, numActions);
      h := h + 1;
    }
  }

  /** The rescaling loop: the state, rescaled to [0, 1], over the first slots of the input buffer. */
  method WriteInputs(inputs: array<real>, state: seq<real>)
    requires |state| <= inputs.Length
    modifies inputs
    ensures inputs[..] == NetworkInputs(state) + old(inputs[..])[|state|..]
  {
    var j := 0;
    while j < |state|
      invariant 0 <= j <= |state|
      invariant forall k | 0 <= k < j :: inputs[k] == state[k] / 2.0 + 0.5
      invariant forall k | j <= k < inputs.Length :: inputs[k] == old(inputs[k])
    {
      inputs[j] := state[j] / 2.0 + 0.5;
      j := j + 1;
    }
  }

  /** The clearing loop of a higher-level controller's block: every slot of the input buffer set to zero. */
  method ClearInputs(inputs: array<real>)
    modifies inputs
    ensures inputs[..] == seq(inputs.Length, _ => 0.0)
  {
    var k := 0;
    while k < inputs.Length
      invariant 0 <= k <= inputs.Length
      invariant forall x | 0 <= x < k :: inputs[x] == 0.0
    {
      inputs[k] := 0.0;
      k := k + 1;
    }
  }
}
