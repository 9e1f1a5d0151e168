/**
 * Level 4 (frontend/src/pages/level4.jsx): two circuits of three gate slots each.
 * The player picks a gate per slot, never the same gate twice in one circuit;
 * a circuit is fixed when the chain of gates, fed from its inputs, gives the
 * expected output, and the level is solved once both circuits are fixed.
 */
module Level4 {
  import opened Common
  import LevelServices

  datatype Gate = AND | OR | NOT | XOR | NAND | NOR

  /** A gate slot: `None` is the unselected `''`. */
  type Slot = Option<Gate>

  datatype CircuitId = Circuit1 | Circuit2

  datatype CircuitSpec = CircuitSpec(inputA: bool, inputB: bool, expectedOutput: bool)

  /** `circuitSpecs`; the `correctSequence` lists are never read and are left out. */
  function Spec(c: CircuitId): CircuitSpec {
    match c
    case Circuit1 => CircuitSpec(true, false, true)
    case Circuit2 => CircuitSpec(true, true, false)
  }

  const Unselected: seq<Slot> := [None, None, None]

  const DuplicateGateMessage := "Each logic gate can only be used once per circuit!"

  /** The success message; it ends in a party-popper emoji mis-encoded as "ðŸŽ‰", as the page has it. */
  const BothFixedMessage := "Both circuits fixed! The security system has been bypassed. \U{00F0}\U{0178}\U{017D}\U{2030}"

  function CircuitNumber(c: CircuitId): string {
    if c == Circuit1 then "1" else "2"
  }

  function FixedMessage(c: CircuitId): string {
    "Circuit " + CircuitNumber(c) + " is fixed! Now fix the other circuit."
  }

  function FailedMessage(c: CircuitId): string {
    "Circuit " + CircuitNumber(c) + " isn't working correctly. Try a different configuration."
  }

  // ---------------------------------------------------------------------------
  // The simulator

  /**
   * One step of `calculateCircuitOutput`: gate `g` at position `i` combines the
   * running result with `inputB` at the first position and with `false` after it;
   * NOT ignores its operand.
   */
  function ApplyGate(g: Gate, result: bool, i: int, inputB: bool): bool {
    var operand := if i == 0 then inputB else false;
    match g
    case AND => result && operand
    case OR => result || operand
    case NOT => !result
    case XOR => result != operand
    case NAND => !(result && operand)
    case NOR => !(result || operand)
  }

  /** The chain of selected gates, folded from `inputA` left to right. */
  function Chain(gates: seq<Slot>, spec: CircuitSpec): bool
    requires None !in gates
  {
    if gates == [] then spec.inputA
    else
      assert gates[|gates| - 1] in gates;
      ApplyGate(gates[|gates| - 1].value, Chain(gates[..|gates| - 1], spec), |gates| - 1, spec.inputB)
  }

  /** The circuit's output: `null` while a slot is unselected, else the chain's value. */
  function Output(gates: seq<Slot>, spec: CircuitSpec): Option<bool> {
    if None in gates then None else Some(Chain(gates, spec))
  }

  /** `isCircuitCorrect`: a complete circuit whose output is the expected one. */
  predicate Correct(gates: seq<Slot>, spec: CircuitSpec) {
    var output := Output(gates, spec);
    output.Some? && output.value == spec.expectedOutput
  }

  /**
   * After the first gate the operand is `false`, so each later gate is one of four
   * fixed maps of the running value: AND clears it, NAND sets it, OR and XOR keep
   * it, NOT and NOR invert it.
   */
  lemma LaterGatesIgnoreInputB(g: Gate, result: bool, i: int, inputB: bool)
    requires i != 0
    ensures ApplyGate(g, result, i, inputB) ==
      match g
      case AND => false
      case NAND => true
      case OR => result
      case XOR => result
      case NOT => !result
      case NOR => !result
  {
  }

  /** The three-slot chain written out gate by gate. */
  lemma ChainOfThree(gates: seq<Slot>, spec: CircuitSpec)
    requires |gates| == 3 && None !in gates
    ensures Chain(gates, spec) ==
      ApplyGate(gates[2].value, ApplyGate(gates[1].value, ApplyGate(gates[0].value, spec.inputA, 0, spec.inputB), 1, spec.inputB), 2, spec.inputB)
  {
    var g1, g2 := gates[..1], gates[..2];
    assert g1[..0] == [] && g2[..1] == g1 && gates[..2] == g2;
    assert Chain(g1, spec) == ApplyGate(gates[0].value, spec.inputA, 0, spec.inputB);
    assert Chain(g2, spec) == ApplyGate(gates[1].value, Chain(g1, spec), 1, spec.inputB);
  }

  /**
   * The sequences listed beside the specs do not fix their circuits: on circuit 1,
   * XOR, OR, AND gives false; on circuit 2, AND, NOR, NOT gives true.
   */
  lemma ListedSequencesFail()
    ensures !Correct([Some(XOR), Some(OR), Some(AND)], Spec(Circuit1))
    ensures !Correct([Some(AND), Some(NOR), Some(NOT)], Spec(Circuit2))
  {
    ChainOfThree([Some(XOR), Some(OR), Some(AND)], Spec(Circuit1));
    ChainOfThree([Some(AND), Some(NOR), Some(NOT)], Spec(Circuit2));
  }

  /** Each circuit can be fixed with three different gates: OR, AND, NOT and AND, NOT, OR. */
  lemma CircuitsAreSolvable()
    ensures Correct([Some(OR), Some(AND), Some(NOT)], Spec(Circuit1))
    ensures Correct([Some(AND), Some(NOT), Some(OR)], Spec(Circuit2))
    ensures Distinct([Some(OR), Some(AND), Some(NOT)]) && Distinct([Some(AND), Some(NOT), Some(OR)])
  {
    ChainOfThree([Some(OR), Some(AND), Some(NOT)], Spec(Circuit1));
    ChainOfThree([Some(AND), Some(NOT), Some(OR)], Spec(Circuit2));
  }

  /** A gate name as the backend stores it. */
  function GateNamed(name: string): Option<Gate> {
    if name == "AND" then Some(AND)
    else if name == "OR" then Some(OR)
    else if name == "NOT" then Some(NOT)
    else if name == "XOR" then Some(XOR)
    else if name == "NAND" then Some(NAND)
    else if name == "NOR" then Some(NOR)
    else None
  }

  /**
   * The sequences the backend's `check_logic_gates` accepts (NOT, AND, OR and NAND,
   * OR, NOR) do not fix the page's circuits; the page never consults the backend.
   */
  lemma BackendSequencesFailOnThePage()
    ensures !Correct([GateNamed("NOT"), GateNamed("AND"), GateNamed("OR")], Spec(Circuit1))
    ensures !Correct([GateNamed("NAND"), GateNamed("OR"), GateNamed("NOR")], Spec(Circuit2))
    ensures LevelServices.CircuitSolutions[LevelServices.Circuit1] == ["NOT", "AND", "OR"]
    ensures LevelServices.CircuitSolutions[LevelServices.Circuit2] == ["NAND", "OR", "NOR"]
  {
    ChainOfThree([Some(NOT), Some(AND), Some(OR)], Spec(Circuit1));
    ChainOfThree([Some(NAND), Some(OR), Some(NOR)], Spec(Circuit2));
  }

  // ---------------------------------------------------------------------------
  // Gate selection

  /** No gate appears in two slots. */
  predicate Distinct(gates: seq<Slot>) {
    forall i, j :: 0 <= i < |gates| && 0 <= j < |gates| && i != j && gates[i].Some? ==> gates[i] != gates[j]
  }

  /** `isGateUsedInCircuitN(gate, currentIndex)`: the gate sits in some other slot. */
  predicate GateUsedElsewhere(gates: seq<Slot>, gate: Slot, currentIndex: int) {
    gate.Some? && exists i :: 0 <= i < |gates| && i != currentIndex && gates[i] == gate
  }

  /** A selection that the handler lets through keeps the gates distinct. */
  lemma SelectionKeepsDistinct(gates: seq<Slot>, index: int, gate: Slot)
    requires Distinct(gates) && 0 <= index < |gates|
    requires !GateUsedElsewhere(gates, gate, index)
    ensures Distinct(gates[index := gate])
  {
  }

  class Page {
    var selectedGates: seq<Slot>
    var selectedGates2: seq<Slot>
    var message: string
    var success: bool
    var solved1: bool
    var solved2: bool

    /**
     * Three slots per circuit, no gate twice in a circuit, and `success` exactly
     * when both circuits are fixed.
     */
    ghost predicate Valid()
      reads this
    {
      && |selectedGates| == 3 && |selectedGates2| == 3
      && Distinct(selectedGates) && Distinct(selectedGates2)
      && (success <==> solved1 && solved2)
    }

    constructor ()
      ensures Valid()
      ensures selectedGates == Unselected && selectedGates2 == Unselected
      ensures message == "" && !success && !solved1 && !solved2
    {
      selectedGates := Unselected;
      selectedGates2 := Unselected;
      message := "";
      success := false;
      solved1 := false;
      solved2 := false;
    }

    function Gates(c: CircuitId): seq<Slot>
      reads this
    {
      if c == Circuit1 then selectedGates else selectedGates2
    }

    function Solved(c: CircuitId): bool
      reads this
    {
      if c == Circuit1 then solved1 else solved2
    }

    /**
     * `handleGateSelection` and `handleGateSelection2`: picking the gate already in
     * the slot does nothing; picking a gate used in another slot of the same circuit
     * only sets the warning; otherwise that slot alone changes and the message clears.
     */
    method HandleGateSelection(c: CircuitId, index: int, gate: Slot)
      requires Valid() && 0 <= index < 3
      modifies this
      ensures Valid()
      ensures old(Gates(c))[index] == gate ==> Gates(c) == old(Gates(c)) && message == old(message)
      ensures old(Gates(c))[index] != gate && GateUsedElsewhere(old(Gates(c)), gate, index) ==>
        Gates(c) == old(Gates(c)) && message == DuplicateGateMessage
      ensures old(Gates(c))[index] != gate && !GateUsedElsewhere(old(Gates(c)), gate, index) ==>
        Gates(c) == old(Gates(c))[index := gate] && message == ""
      ensures c == Circuit1 ==> selectedGates2 == old(selectedGates2)
      ensures c == Circuit2 ==> selectedGates == old(selectedGates)
      ensures success == old(success) && solved1 == old(solved1) && solved2 == old(solved2)
    {
      var gates := if c == Circuit1 then selectedGates else selectedGates2;
      if gates[index] == gate {
        return;
      }
      var otherPositions := gates[..index] + gates[index + 1..];
      if gate.Some? && gate in otherPositions {
        var k :| 0 <= k < |otherPositions| && otherPositions[k] == gate;
        assert gates[if k < index then k else k + 1] == gate;
        message := "Each logic gate can only be used once per circuit!";
        return;
      }
      assert !GateUsedElsewhere(gates, gate, index) by {
        if gate.Some? {
          forall i | 0 <= i < 3 && i != index ensures gates[i] != gate {
            assert gates[i] == otherPositions[if i < index then i else i - 1];
          }
        }
      }
      SelectionKeepsDistinct(gates, index, gate);
      var newSequence := gates[index := gate];
      if c == Circuit1 {
        selectedGates := newSequence;
      } else {
        selectedGates2 := newSequence;
      }
      message := "";
    }

    /** `calculateCircuitOutput`: `null` while a slot is empty, else the chain folded from input A. */
    method CalculateCircuitOutput(c: CircuitId) returns (output: Option<bool>)
      ensures output == Output(Gates(c), Spec(c))
    {
      var gates := if c == Circuit1 then selectedGates else selectedGates2;
      var specs := Spec(c);
      if None in gates {
        return None;
      }
      var result := specs.inputA;
      var i := 0;
      while i < |gates|
        invariant 0 <= i <= |gates|
        invariant result == Chain(gates[..i], specs)
      {
        assert gates[..i + 1][..i] == gates[..i];
        assert gates[i] in gates;
        result := ApplyGate(gates[i].value, result, i, specs.inputB);
        i := i + 1;
      }
      assert gates[..i] == gates;
      output := Some(result);
    }

    /** `isCircuitCorrect`. */
    method IsCircuitCorrect(c: CircuitId) returns (correct: bool)
      ensures correct <==> Correct(Gates(c), Spec(c))
    {
      var output := CalculateCircuitOutput(c);
      if output == None {
        return false;
      }
      correct := output.value == Spec(c).expectedOutput;
    }

    /**
     * `checkSolution`, once its delay has passed: a fixed circuit sets its own flag;
     * with both flags set the level succeeds and `onSolve` is scheduled (the result).
     * A circuit that is not fixed changes only the message.
     */
    method CheckSolution(c: CircuitId) returns (solveScheduled: bool)
      requires Valid()
      modifies this
      ensures Valid()
      ensures var correct := Correct(Gates(c), Spec(c));
        && (correct ==> Solved(c) && (c == Circuit1 ==> solved2 == old(solved2)) && (c == Circuit2 ==> solved1 == old(solved1)))
        && (!correct ==> solved1 == old(solved1) && solved2 == old(solved2) && success == old(success) && message == FailedMessage(c))
        && (solveScheduled <==> correct && solved1 && solved2)
        && (correct && solved1 && solved2 ==> message == BothFixedMessage)
        && (correct && !(solved1 && solved2) ==> message == FixedMessage(c))
      ensures success <==> solved1 && solved2
      ensures selectedGates == old(selectedGates) && selectedGates2 == old(selectedGates2)
    {
      var isCorrect := IsCircuitCorrect(c);
      solveScheduled := false;
      if isCorrect {
        if c == Circuit1 {
          solved1 := true;
        } else {
          solved2 := true;
        }
        if solved1 && solved2 {
          success := true;
          message := BothFixedMessage;
          solveScheduled := true;
        } else {
          message := FixedMessage(c);
        }
      } else {
        message := FailedMessage(c);
      }
    }

    /** `resetCircuit`: that circuit's slots empty, the message cleared, nothing else touched. */
    method ResetCircuit(c: CircuitId)
      requires Valid()
      modifies this
      ensures Valid()
      ensures Gates(c) == Unselected && message == ""
      ensures c == Circuit1 ==> selectedGates2 == old(selectedGates2)
      ensures c == Circuit2 ==> selectedGates == old(selectedGates)
      ensures success == old(success) && solved1 == old(solved1) && solved2 == old(solved2)
    {
      if c == Circuit1 {
        selectedGates := Unselected;
      } else {
        selectedGates2 := Unselected;
      }
      message := "";
    }

    /**
     * The "Proceed to Next Level" button of the panel shown once `success` is set: calls the
     * level's `onSolve` (the result) once more, besides the call made by
     * the timer set by `checkSolution`, and changes nothing on the page.
     */
    method HandleProceed() returns (levelSolved: bool)
      requires Valid() && success
      ensures levelSolved
    {
      levelSolved := true;
    }
  }
}
