/** The per-kind evaluation rules: pure functions of their arguments.
    The source computes on `double`; here the values are exact reals, so the
    contracts are about which branch fires and what formula it returns. */
module Rules {

  // ---------------------------------------------------------------- resistor

  /** Ohm's law in one direction or the other: with `calcVoltage` the input is
      a current and the result the voltage across the resistor; otherwise the
      input is a voltage and the result the current through it. The source
      divides without a guard, so the division direction needs a non-zero
      resistance. */
  function ResistorOutput(resistance: real, input: real, calcVoltage: bool): (r: real)
    requires !calcVoltage ==> resistance != 0.0
    ensures calcVoltage ==> r == input * resistance
    ensures !calcVoltage ==> r * resistance == input
  {
    if calcVoltage then input * resistance else input / resistance
  }

  /** The two directions undo each other: the voltage produced by the current
      that a voltage drives through the same resistor is that voltage again,
      and the other way round. */
  lemma ResistorRoundTrip(resistance: real, x: real)
    requires resistance != 0.0
    ensures ResistorOutput(resistance, ResistorOutput(resistance, x, false), true) == x
    ensures ResistorOutput(resistance, ResistorOutput(resistance, x, true), false) == x
  {
  }

  /** A 5 V source across 100 ohms: 500 in the multiplying direction,
      0.05 in the dividing one. */
  lemma ResistorExamples()
    ensures ResistorOutput(100.0, 5.0, true) == 500.0
    ensures ResistorOutput(100.0, 5.0, false) == 0.05
  {
  }

  // -------------------------------------------------------------- transistor

  /** The fixed current gain of the transistor model. */
  const Beta: real := 100.0

  /** The control value must lie strictly between 0.1 and 0.8. */
  predicate InputInWindow(input: real)
  {
    0.1 < input < 0.8
  }

  /** The base value must lie strictly below 0.01 and strictly above a
      polarity-dependent floor: 0.00001 for NPN, 0 for PNP. */
  predicate BaseInWindow(base: real, isNpn: bool)
  {
    (if isNpn then 0.00001 < base else 0.0 < base) && base < 0.01
  }

  /** The transistor conducts when both the input and the base are inside
      their windows. */
  predicate Active(input: real, base: real, isNpn: bool)
  {
    InputInWindow(input) && BaseInWindow(base, isNpn)
  }

  /** The simplified switch: outside the active region the result is zero;
      inside it is the collector current `Beta * base` or the sum of input and
      base, as `returnCollectorCurrent` asks. Both kinds give a result in
      [0, 1), non-zero exactly when active. */
  function TransistorOutput(input: real, base: real, isNpn: bool, returnCollectorCurrent: bool): (r: real)
    ensures !Active(input, base, isNpn) ==> r == 0.0
    ensures Active(input, base, isNpn) && returnCollectorCurrent ==> r == Beta * base
    ensures Active(input, base, isNpn) && !returnCollectorCurrent ==> r == input + base
    ensures 0.0 <= r < 1.0
    ensures r != 0.0 <==> Active(input, base, isNpn)
  {
    var beta := 100.0;
    if isNpn then
      if input > 0.1 && input < 0.8 then
        if base > 0.00001 && base < 0.01 then
          if returnCollectorCurrent then beta * base else input + base
        else 0.0
      else 0.0
    else
      if input > 0.1 && input < 0.8 then
        if base > 0.0 && base < 0.01 then
          if returnCollectorCurrent then beta * base else input + base
        else 0.0
      else 0.0
  }

  /** NPN and PNP apply the same formulas; they differ only in the base floor.
      So wherever an NPN transistor conducts, a PNP one with the same inputs
      conducts with the same result, and the two disagree exactly when the
      input is in its window and the base lies in (0, 0.00001]. */
  lemma PolaritiesDifferOnlyAtLowBase(input: real, base: real, returnCollectorCurrent: bool)
    ensures TransistorOutput(input, base, true, returnCollectorCurrent) != 0.0 ==>
              TransistorOutput(input, base, false, returnCollectorCurrent) ==
              TransistorOutput(input, base, true, returnCollectorCurrent)
    ensures (TransistorOutput(input, base, true, returnCollectorCurrent) !=
             TransistorOutput(input, base, false, returnCollectorCurrent))
            <==> InputInWindow(input) && 0.0 < base <= 0.00001
  {
  }

  /** In the collector-current mode the result grows with the base value
      inside the active region. */
  lemma CollectorCurrentMonotone(input: real, b1: real, b2: real, isNpn: bool)
    requires Active(input, b1, isNpn) && Active(input, b2, isNpn)
    requires b1 <= b2
    ensures TransistorOutput(input, b1, isNpn, true) <= TransistorOutput(input, b2, isNpn, true)
  {
  }

  // --------------------------------------------------------------------- LED

  /** The three states the LED check distinguishes by its branches. */
  datatype LedState = Off | On | Burned

  /** Which branch of the LED check fires: below 10 mA the LED is off, above
      20 mA it burns (the branch that prints a warning), otherwise it is on. */
  function LedStateOf(current: real): (s: LedState)
    ensures s == Off <==> current < 0.01
    ensures s == Burned <==> current > 0.02
    ensures s == On <==> 0.01 <= current <= 0.02
  {
    if current < 0.01 then Off
    else if current > 0.02 then Burned
    else On
  }

  /** The value the LED check returns: 1 exactly when the current lies in
      [0.01, 0.02], 0 otherwise. */
  function LedBulb(current: real): (r: int)
    ensures r == 0 || r == 1
    ensures r == 1 <==> 0.01 <= current <= 0.02
  {
    if current < 0.01 then 0
    else if current > 0.02 then 0
    else 1
  }

  /** The returned value only tells "on" from "not on": a burned LED and an
      unlit one both give 0. */
  lemma LedBulbCollapsesBurned(current: real)
    ensures LedBulb(current) == (if LedStateOf(current) == On then 1 else 0)
    ensures LedStateOf(current) == Burned ==> LedBulb(current) == LedBulb(0.0)
  {
  }

  lemma LedExamples()
    ensures LedStateOf(0.005) == Off && LedBulb(0.005) == 0
    ensures LedStateOf(0.015) == On && LedBulb(0.015) == 1
    ensures LedStateOf(0.03) == Burned && LedBulb(0.03) == 0
  {
  }
}
