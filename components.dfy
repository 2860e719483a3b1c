/** The tagged union of the three component kinds a circuit is built from.
    The C union plus its separate `type` tag becomes one datatype whose
    constructor is the tag: PowerSupply is kind 'A', Resistor 'B',
    Transistor 'C'. */
module Components {

  datatype Component =
    | PowerSupply(id: int, voltage: real)
    | Resistor(id: int, resistance: real)
      // `transistorType` is the NPN/PNP choice and `inputType` the
      // voltage/current format, both kept as the booleans the source stores.
    | Transistor(id: int, transistorType: bool, inputType: bool)

  /** The single-character command code that creates a component of this kind. */
  function KindCode(c: Component): (code: char)
    ensures code in {'A', 'B', 'C'}
    ensures code == 'C' <==> c.Transistor?
    ensures code == 'A' <==> c.PowerSupply?
  {
    match c
    case PowerSupply(_, _) => 'A'
    case Resistor(_, _) => 'B'
    case Transistor(_, _, _) => 'C'
  }

  /** The numbering the command loop follows: every power supply and resistor
      carries its own position in the store as its id. Transistors are created
      without an id, so nothing is said about theirs. */
  ghost predicate IdsFollowPositions(s: seq<Component>)
  {
    forall i :: 0 <= i < |s| && !s[i].Transistor? ==> s[i].id == i
  }

  /** Appending a component whose id is the current size (what the command loop
      does for power supplies and resistors), or any transistor, keeps the
      numbering. */
  lemma AppendKeepsIds(s: seq<Component>, c: Component)
    requires IdsFollowPositions(s)
    requires !c.Transistor? ==> c.id == |s|
    ensures IdsFollowPositions(s + [c])
  {
  }
}
