# Electronic CAD core: component store and evaluation rules

This project models the core of a small interactive "Electronic CAD" program
written in C (`main.c`). The core has two parts:

* **The component store** (`ComponentArray`). It is an append-only dynamic
  array of components, and it tracks its element count (`size`) separately
  from its allocated length (`capacity`). When the store is full, an append
  doubles the allocation. The very first append grows it from 0 to 1. The
  store also offers indexed lookup and a free operation that empties it.
  The model is the class `ComponentStore.ComponentArray`. Its data lives in an
  `array<Component>`, and `size` and `capacity` are fields that the methods
  update in place. The object invariant `Valid()` says three things: the array
  is `capacity` long, `size <= capacity`, and `capacity` is the value the
  growth rule yields after `size` appends. The lemma
  `CapacityAfterIsLeastPowerOfTwo` then shows that this value is the least
  power of two that holds `size` elements.
* **The evaluation rules** `resistor`, `transistor` and `led_bulb`. These are
  pure functions over `double`, modelled as functions over `real` in module
  `Rules`.

A component is a tagged union of a power supply, a resistor and a transistor.
It is modelled as the datatype `Components.Component`, whose constructor plays
the role of the C `type` tag. The command loop creates each power supply and
resistor with `id` set to the store's current size. `Components.IdsFollowPositions`
states this numbering, and `Add` preserves it.

The code differs from the wider design description of this program in a few
places. This model follows the code:

* Transistor windows. The input must lie in (0.1, 0.8). The base must lie in
  (0.00001, 0.01) for NPN and in (0, 0.01) for PNP. A conducting transistor
  returns `100 * base` or `input + base`. The design instead describes a
  negative-base PNP window and a ±0.7 junction drop; the code has neither.
* The LED check returns an `int` and gives 0 for a burned LED as well as an
  unlit one. `Rules.LedStateOf` models the three-way branch (off, on, burned)
  that the code takes.
* There is no pin wiring, no reference validation and no save or load in
  `main.c`. The resistor record has no mode field, because the anonymous enum
  inside it declares no member.

## Model

| member | source | states |
|---|---|---|
| Components.KindCode | main.c:6-11 | each kind has its own command letter: 'A' exactly for a power supply, 'C' exactly for a transistor, 'B' otherwise |
| Components.AppendKeepsIds | main.c:175-191 | appending a power supply or resistor whose id is the current size, or any transistor, keeps "every non-transistor's id is its position" |
| ComponentStore.NextCapacity | main.c:61-67 | a full store grows to twice its capacity, or to 1 from 0; a store with room keeps its capacity; the result always has room for one more element |
| ComponentStore.CapacityAfterIsLeastPowerOfTwo | main.c:59-80 | after n appends from an empty store, capacity is 0 when n = 0; otherwise it is a power of two with n <= capacity < 2n |
| ComponentStore.ComponentArray.constructor | main.c:151-154 | the initial store has size 0, capacity 0 and no elements |
| ComponentStore.ComponentArray.Add | main.c:59-80 | size grows by exactly one; the value lands at the old size; every earlier element is unchanged, also across a reallocation; capacity follows the growth rule; the buffer is replaced only when the store was full; size <= capacity is kept; the id numbering is kept |
| ComponentStore.ComponentArray.Get | main.c:82-85 | returns the element at the index, which must be below size (the code does no bounds check) |
| ComponentStore.ComponentArray.Free | main.c:87-93 | size and capacity become 0, the contents become empty, and the old buffer is dropped |
| ComponentStore.FreeThenAdd | main.c:61-67 | after a free, the next append allocates exactly one slot, and the store then holds only that element |
| Rules.ResistorOutput | main.c:95-101 | the multiplying mode returns input × resistance; the dividing mode returns r with r × resistance = input, and needs a non-zero resistance |
| Rules.ResistorRoundTrip | main.c:95-101 | for a non-zero resistance, the two modes undo each other in both orders |
| Rules.ResistorExamples | main.c:95-101 | 5 with 100 ohms gives 500 when multiplying and 0.05 when dividing |
| Rules.TransistorOutput | main.c:103-134 | returns 0 outside the input and polarity-specific base windows; inside them returns 100 × base or input + base; the result lies in [0, 1) and is non-zero exactly when the transistor is active |
| Rules.PolaritiesDifferOnlyAtLowBase | main.c:107-132 | wherever NPN conducts, PNP gives the same result; the two results differ exactly when the input is in its window and the base is in (0, 0.00001] |
| Rules.CollectorCurrentMonotone | main.c:113-127 | inside the active region, the collector current does not decrease as the base grows |
| Rules.LedStateOf | main.c:136-147 | the off branch fires exactly below 0.01, the burned (warning) branch exactly above 0.02, and the on branch otherwise |
| Rules.LedBulb | main.c:136-147 | returns 0 or 1, and returns 1 exactly when 0.01 <= current <= 0.02 |
| Rules.LedBulbCollapsesBurned | main.c:138-146 | the return value is 1 only in the on state, so a burned LED returns the same value as an unlit one |
| Rules.LedExamples | main.c:136-147 | 0.005 is off (0), 0.015 is on (1), and 0.03 is burned (0) |

## Left out

- The interactive command loop (`main`, main.c:149-215). It is console input,
  output and command dispatch. The only part of it that is modelled is the
  id numbering it uses (`Components.IdsFollowPositions`). The transistor
  branch never sets an id, so the numbering makes no claim about transistors.
- Allocation failure. When `realloc` or `malloc` returns NULL, the code prints
  an error and exits the process. The model assumes allocation succeeds.
- The burn warning that `led_bulb` prints. It is output only. The branch that
  prints it is `Rules.LedStateOf`'s `Burned` case.
- IEEE-754 rounding. Values are exact reals, so the contracts describe branch
  selection and exact formulas, not floating-point error.
- `anode_connections`, `cathode_connections` and the anonymous
  `CALC_VOLTAGE`/`CALC_CURRENT` enum. They are declared but never read or
  written.
- The NULL pointer that `freeComponentArray` stores. It is modelled as a fresh
  zero-length array.
- ComponentStore.ComponentArray.Add: does not model `size_t` wrap-around of
  `capacity * 2`. Before that product could wrap, the allocation itself would
  fail.
- Ids are unbounded integers, not C `int`.
