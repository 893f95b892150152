# Quantum circuits and their tket translation, in Dafny

This project models the quantum-circuit core of discopy. It covers two source files:

- `circuit.py`:
  - `PRO`, the type of n indistinguishable wires;
  - `Circuit`, a list of boxes at integer offsets;
  - the boxes `Gate`, `Ket`, `Bra`, `Rz` and `Rx`, with their daggers, arrays and the eager fusion of Kets and Bras under the tensor;
  - the scalar-extraction phase of `normalize`;
  - the `bitstring` helper of `measure`;
  - the translations `to_tk` and `from_tk` between circuits and tket's command lists.
- `discopy/tk.py`:
  - `TketCircuit`, a tket circuit extended in place with a post-selection map and a scalar, and its unit renaming;
  - the layer-by-layer translation `to_tk`, which keeps two lists mapping the circuit's qubit and bit wires to register indices;
  - `box_from_tk`;
  - the post-selection and scaling done by `get_counts`.

The modules follow that structure:

- `Common`: bits and bitstrings, ranges, and Python's negative indices and slices.
- `Pro`: wire-count types.
- `Boxes`: the box family and its arrays.
- `Circuits`: circuits, the tensor and normalisation.
- `Routing`: `Circuit.to_tk` and `Circuit.from_tk`.
- `Tket`: the `TketCircuit` class and its renamings.
- `TkTranslate`: tk.py's `to_tk` and `box_from_tk`.
- `Counts`: tk.py's `get_counts`.

`TketCircuit` is a class whose methods update its registers, commands, post-selection and scalar in place. The passes of `to_tk` that grow the registers, measure qubits, add gates and walk the layers are methods with loops. Each is proved against functions on the old state (renamings, index lists, command lists, and `LayerState` and `Run` for a whole layer and a whole translation). Those functions carry lemmas for what the translation promises. The model's `to_tk` is the corrected one (see "## Findings"), and for it:

- the wire-to-index lists stay distinct and inside the registers (as written, the code can repeat an index);
- the commands stay inside the registers;
- the scalar is the product of the circuit's scalar boxes;
- the first unsupported box is the error raised.

`Circuit.to_tk` followed by `Circuit.from_tk` is proved to give back every circuit of library gates and rotations.

## Model

| member | source | states |
|---|---|---|
| `Common.Value` | circuit.py:439-449 | A bitstring, most significant bit first, denotes a number below 2 to the power of its length. |
| `Common.ValueInjective` | circuit.py:439-449 | Two bitstrings of one length with the same number are equal, so each basis index has one bitstring. |
| `Common.CountConcat` | discopy/tk.py:145 | `left.count(x)` of a concatenation is the sum of the counts of its parts. |
| `Pro.Pro.Tensor` | circuit.py:46-47 | `PRO(m) @ PRO(n)` has m + n wires, and `PRO(0)` is its unit. |
| `Pro.Pro.L` | circuit.py:36-41 | The left adjoint of `PRO(n)` has n wires. |
| `Pro.Pro.R` | circuit.py:43-44 | The right adjoint of `PRO(n)` has n wires. |
| `Pro.Pro.Slice` | circuit.py:55-58 | Slicing `PRO(n)` gives at most n wires. The full slice is the identity, an in-range slice has `stop - start` wires, and `p[-k:]` has `min(k, n)`. |
| `Pro.Clamp` | circuit.py:55-58 | A slice bound is normalised into `[0, n]` as Python does. |
| `Pro.SplitTensor` | circuit.py:46-58 | `p[:k] @ p[k:] == p` for every integer k, negative or out of range included. |
| `Pro.AdjointsAgree` | circuit.py:36-44 | `l` and `r` agree, are each other's inverse, and return the type itself. |
| `Boxes.Box.Dagger` | circuit.py:383-393 | The dagger exchanges domain and codomain and keeps scalars scalar. |
| `Boxes.Toggle` | circuit.py:393 | The `_dagger` flag stays `None` for self-inverse gates and otherwise flips. |
| `Boxes.DaggerInvolution` | circuit.py:383-393 | The dagger is an involution. A gate keeps its name, width and array, and a self-inverse gate is its own dagger. A Ket becomes the Bra of its bitstring and back (lines 431-436 and 490-495), and a rotation negates its phase (lines 544-548 and 592-596). |
| `Boxes.LibraryGate` | circuit.py:655-668 | Each library gate (SWAP, CX, H, S, T, X, Y, Z) is a gate of its name whose width is 1 or 2 as declared. |
| `Boxes.LibraryGateDagger` | circuit.py:655-668 | The gates declared `_dagger=None` are their own dagger. S, T and Y become their reversed copy. |
| `Boxes.KronOneHot` | circuit.py:446-448 | Tensoring a basis vector of size n with the vector of one bit gives the basis vector of size 2n at index `2k + b`. |
| `Boxes.KetArray` | circuit.py:439-449 | The loop over the bitstring builds the one-hot vector of size 2^n with its 1 at the bitstring's number. |
| `Boxes.BraArray` | circuit.py:498-505 | A Bra's array is the Ket array of its bitstring. |
| `Boxes.DotOneHot` | circuit.py:498-505 | Two basis vectors have inner product 1 when equal and 0 otherwise. |
| `Boxes.BraAfterKet` | circuit.py:452-458 | `Bra(x) << Ket(y)` evaluates to 1 when the bitstrings are equal and 0 otherwise. |
| `Circuits.Id` | circuit.py:314-326 | `Id(n)` is a typed circuit from n to n wires with no box. |
| `Circuits.AsCircuit` | circuit.py:349-359 | A box is the one-layer typed circuit holding it at offset 0, from its domain to its codomain. |
| `Circuits.Tensor` | circuit.py:411-422 | The tensor adds the domains and codomains. Its layers are f's, with their offsets, followed by g's, each moved right by f's codomain. |
| `Circuits.TensorWellFormed` | circuit.py:411-422 | The tensor of two typed circuits is typed. |
| `Circuits.FitsConcat` | circuit.py:73-78 | Layers that fit one after the other compose into one typed list. |
| `Circuits.TensorTermsTyped` | circuit.py:411-422 | The tensor with Ket/Bra fusion stays typed, with the domains and codomains of the operands added. |
| `Circuits.FusionExamples` | circuit.py:411-422 | `Ket(0,1,0) @ Ket(1,0)` is `Ket(0,1,0,1,0)`, the same for Bras (lines 476-488), and `Bra(0) @ X` stays a diagram. |
| `Circuits.FusionAssociative` | circuit.py:411-422 | Fusing three Kets gives one Ket whichever way it is bracketed. |
| `Circuits.ScalarValues` | circuit.py:152-156 | One scalar value is read per zero-width box. |
| `Circuits.StripLayers` | circuit.py:170-178 | What is left once every scalar is gone has no scalar box and keeps the other layers' count. |
| `Circuits.FirstScalar` | circuit.py:152-156 | `remove_scalars` finds the first zero-width box, and reports none exactly when there is no scalar. |
| `Circuits.RemoveLayer` | circuit.py:154 | `diagram[:i] >> diagram[i + 1:]` keeps the domain and codomain and drops one layer. |
| `Circuits.RemoveFirstScalar` | circuit.py:152-156 | Removing the first scalar drops its value from the front of the scalar values and leaves the scalar-free remainder unchanged. |
| `Circuits.StripNoScalars` | circuit.py:173-176 | A circuit without scalars is its own scalar-free remainder. |
| `Circuits.RemoveScalars` | circuit.py:152-156 | Returns the circuit without its first scalar and that scalar's `array[0]`, or the circuit unchanged and `None` exactly when it has no scalar. |
| `Circuits.NormalizeScalars` | circuit.py:170-178 | The loop yields one step per scalar box. After step k the running scalar is the product of the first k scalar values, and the last yielded circuit has no scalar and keeps the other layers. |
| `Circuits.NormalizeRound` | circuit.py:173-178 | One round keeps the steps' invariant. It ends the loop only when no scalar is left, and otherwise shortens the circuit. |
| `Circuits.YieldedAll` | circuit.py:170-178 | Once no scalar box is left, the circuit is the stripped one, one step was yielded per scalar box, and the scalar is the product of all their values. |
| `Circuits.StepAdvance` | circuit.py:177-178 | Multiplying the running scalar by the removed scalar gives the product of one more scalar value. |
| `Circuits.BinaryValue` | circuit.py:201-202 | The binary digits of i denote i. |
| `Circuits.BitStringValue` | circuit.py:201-202 | `bitstring(i, n)` denotes i, and has exactly n digits when `i < 2^n`. |
| `Circuits.BitStringRoundTrip` | circuit.py:201-207 | `bitstring(value(s), len(s)) == s`, so the states and effects enumerate every bitstring once. |
| `Routing.TkInstrs` | circuit.py:225-237 | A command per layer exists exactly when every box is a library gate or a rotation, which stand for the pytket methods (see "## Left out"). Each command is its box's, and otherwise the error is unsupported gate. |
| `Routing.ToTk` | circuit.py:216-238 | The loop builds a program on `len(dom)` qubits with one command per layer. Each acts on the consecutive qubits from its offset, and Rx and Rz carry their phase. |
| `Routing.GateFromTk` | circuit.py:248-257 | A command is read back exactly when its name is Rx, Rz or a library gate, and the gate has that gate's arity. Other names raise NotImplementedError. |
| `Routing.RouteCommand` | circuit.py:260-273 | For commands on one or two qubits, the routing loop yields the SWAP offsets and gate offset of the closed-form routing. |
| `Routing.AppendSwapsUp` | circuit.py:265-267 | The loop that carries a qubit up appends the offsets `lo, ..., hi - 1` in increasing order after those already there. |
| `Routing.AppendSwapsDown` | circuit.py:271-273 | The loop that carries a qubit at q down appends the offsets `q - 1, ..., q - c` in decreasing order after those already there. |
| `Routing.Layers` | circuit.py:258-278 | The translated gates and offsets have equal length. |
| `Routing.LayersStep` | circuit.py:258-276 | One more command appends its SWAPs and then its gate at the routed offset. |
| `Routing.LayersFirstError` | circuit.py:257 | Once a command cannot be read back, later commands do not change the outcome. |
| `Routing.FromTk` | circuit.py:240-278 | The loop computes the closed-form translation of the program. |
| `Routing.FromTkRound` | circuit.py:260-275 | One round of the loop either extends the layers of the commands before it with those of command k, or yields the error the whole program raises. |
| `Routing.InstrRoundTrip` | circuit.py:216-257 | The command emitted for a gate or rotation is read back as the same box, with no SWAP and at the same offset. |
| `Routing.LayersRoundTrip` | circuit.py:258-276 | Reading back the commands of consecutive gates gives back their boxes and offsets. |
| `Routing.TranslatedPrefix` | circuit.py:216-238 | Dropping the last layer and its command keeps the layer-by-layer correspondence that `to_tk` establishes. |
| `Routing.TranslatedLast` | circuit.py:248-276 | The last command of a translation is read back as the last layer, with no SWAP, and every command is accepted by the routing loop. |
| `Routing.LayersStepAdjacent` | circuit.py:258-276 | A command that needs no SWAP adds only its gate and its offset to the layers read back so far. |
| `Routing.RoundTrip` | circuit.py:240-247 | `from_tk(to_tk(c)) == c` for every circuit of library gates and rotations whose domain equals its codomain. |
| `Routing.ToTkIgnoresDagger` | circuit.py:234-236 | `S.dagger()` differs from S but is sent to tket as S: the command only carries the name. |
| `Routing.RouteBounds` | circuit.py:260-275 | For distinct qubits inside the register, every routing SWAP and the routed gate fit in the register. |
| `Routing.LayersFit` | circuit.py:258-278 | For valid commands, every translated gate fits the n-wire register. |
| `Routing.FromTkWellFormed` | circuit.py:276-277 | The translated circuit is typed, from n qubits to n qubits. |
| `Routing.RouteDelivers` | circuit.py:260-275 | After the routing SWAPs, the gate's wires carry the command's qubits in order. |
| `Routing.DeliverUp` | circuit.py:264-269 | When the second qubit b lies below the first qubit a, the SWAPs `b, ..., a - 1` put a on wire `a - 1` and b on wire a. |
| `Routing.DeliverDown` | circuit.py:270-273 | When b lies beyond `a + 1`, the SWAPs `b - 1, ..., a + 1` bring b to wire `a + 1` and leave a in place. |
| `Routing.ApplySwapsConcat` | circuit.py:266-275 | Applying two SWAP lists in turn is applying their concatenation. |
| `Routing.SwapsUndo` | circuit.py:266-275 | The SWAPs in reverse order restore every wire label. |
| `Routing.LayersRouted` | circuit.py:258-278 | The corrected translation succeeds exactly when the original does. |
| `Routing.LayersRoutedStep` | circuit.py:258-276 | One more command appends its SWAPs, its gate and the SWAPs in reverse order. |
| `Routing.RoutedBlockCorrect` | circuit.py:258-276 | In the corrected translation, each command's gate sees its own qubits and the labels are restored after it. |
| `Routing.RoutedAgreesWhenAdjacent` | circuit.py:262-263 | When every command is on adjacent qubits, the two translations coincide. |
| `Routing.CxThenXCommands` | circuit.py:258-276 | For `CX(0, 2); X(2)`, one SWAP is routed for CX and none for X. |
| `Routing.FromTkMisroutes` | circuit.py:258-278 | As written, `CX(0, 2); X(2)` becomes SWAP at 1, CX at 0 and X at 2, leaving the SWAP in place. |
| `Routing.FromTkRoutedExample` | circuit.py:258-278 | Corrected, it becomes SWAP at 1, CX at 0, SWAP at 1 and X at 2. |
| `Routing.ExampleLabels` | circuit.py:266-275 | After the one SWAP, wire 2 carries qubit 1. After the SWAP and its undoing, it carries qubit 2. |
| `Tket.Rename` | discopy/tk.py:57-67 | A unit is renamed by the first entry for it, and units without an entry are left alone. |
| `Tket.RenameCommands` | discopy/tk.py:67 | Renaming the circuit's units renames every argument of every command and nothing else. |
| `Tket.ToRename` | discopy/tk.py:58-60 | Exactly the renamed bits that are post-selected are collected. |
| `Tket.RenamePS` | discopy/tk.py:57-66 | After renaming, the post-selected indices are the old ones minus the renamed sources plus the targets. Untouched entries keep their values. |
| `Tket.RenamePSMoves` | discopy/tk.py:61-66 | A renamed post-selected bit's value moves to its target index, unless a later entry takes that target. |
| `Tket.RenameQubitsKeepsPS` | discopy/tk.py:57-66 | A renaming of qubits only leaves the post-selection unchanged. |
| `Tket.ThreeRenamesTranspose` | discopy/tk.py:136-142 | Renaming i to tmp, j to i and tmp to j exchanges units i and j when tmp is fresh. |
| `Tket.SwapRenamesCommands` | discopy/tk.py:136-142 | On commands that do not use the scratch unit, the three renamings are the transposition of i and j. |
| `Tket.TranspositionStaysIn` | discopy/tk.py:136-142 | Exchanging two units of the registers keeps the commands inside the registers. |
| `Tket.SwapPS` | discopy/tk.py:136-142 | The corrected post-selection swap moves the entry of index `exchange(k)` to k. |
| `Tket.SwapPSInvolution` | discopy/tk.py:136-142 | Swapping two bits' post-selection twice gives it back. |
| `Tket.RenameOnePS` | discopy/tk.py:57-66 | A one-entry renaming moves the post-selected value from the source index to the target index, or changes nothing. |
| `Tket.SwapBitsLosesPostSelection` | discopy/tk.py:136-142 | As written, swapping bits 1 and 2 under `{0: 1, 1: 0}` gives `{2: 0}`, where the exchange gives `{0: 1, 2: 0}`. |
| `Tket.SwapPSAsWrittenExample` | discopy/tk.py:138-142 | The scratch bit's index 0 overwrites bit 0's entry: `{0: 1, 1: 0}` becomes `{2: 0}`. |
| `Tket.SwapPSExample` | discopy/tk.py:136-142 | Exchanging bits 1 and 2 in `{0: 1, 1: 0}` gives `{0: 1, 2: 0}`. |
| `Tket.CollectRenamed` | discopy/tk.py:58-60 | The comprehension over the renaming collects the renamed post-selected bits. |
| `Tket.MovedEntries` | discopy/tk.py:61-63 | The dictionary comprehension maps each target index to its source's value. |
| `Tket.DeleteSources` | discopy/tk.py:64-65 | The `del` loop removes exactly the renamed sources. |
| `Tket.TketCircuit.constructor` | discopy/tk.py:35-38 | An empty circuit on the given registers. A missing post-selection is `{}`, and a missing or zero scalar is 1. |
| `Tket.TketCircuit.Scale` | discopy/tk.py:69-71 | The scalar is multiplied by the number, and nothing else changes. |
| `Tket.TketCircuit.PostSelect` | discopy/tk.py:73-75 | The post-selection is updated with the new entries, and validity is kept for entries inside the bit register. |
| `Tket.TketCircuit.AddBlankWires` | discopy/tk.py:107 | The qubit register grows by k, and nothing else changes. |
| `Tket.TketCircuit.AddBit` | discopy/tk.py:119 | The bit register grows by one, and nothing else changes. |
| `Tket.TketCircuit.AddGate` | discopy/tk.py:148-152 | One command on the given qubits is appended, and it stays valid when they are in the register. |
| `Tket.TketCircuit.Measure` | discopy/tk.py:128 | One Measure command from qubit q into bit b is appended. |
| `Tket.TketCircuit.RenameCircuitUnits` | discopy/tk.py:67 | Every command is renamed, and the post-selection is untouched. |
| `Tket.TketCircuit.RenameUnits` | discopy/tk.py:57-67 | The commands and the post-selection are both renamed. |
| `Tket.TketCircuit.SwapQubits` | discopy/tk.py:136-142 | Swapping two qubits transposes them in every command and keeps the circuit valid. |
| `Tket.TketCircuit.SwapBitsAsWritten` | discopy/tk.py:136-142 | As written, swapping two bits transposes them in the commands but leaves the post-selection of the three renamings. |
| `Tket.TketCircuit.SwapBits` | discopy/tk.py:136-142 | The corrected bit swap transposes the commands, exchanges the post-selection entries and keeps the circuit valid. |
| `TkTranslate.CountRepeat` | discopy/tk.py:145 | `(qubit ** n).count(qubit)` is n, and it holds no bit. |
| `TkTranslate.Layer.Dom` | discopy/tk.py:157 | A layer's input has the qubits and bits of its left part, its box and its right part. |
| `TkTranslate.Ones` | discopy/tk.py:90-94 | The positions of the 1s of a bitstring, in increasing order, and all of them. |
| `TkTranslate.RemoveKet1` | discopy/tk.py:90-94 | A Ket becomes the all-zero Ket followed by one X per 1 bit, at that bit's position. Other boxes are unchanged. |
| `TkTranslate.StartBounds` | discopy/tk.py:98-99 | The insertion point lies within the register. |
| `TkTranslate.ShiftedApart` | discopy/tk.py:100-104 | Renumbered indices avoid the fresh block and stay distinct. |
| `TkTranslate.PrepareIndicesLayout` | discopy/tk.py:105-108 | The corrected list holds the renumbered left part, the fresh block `[start, start + k)` and the renumbered right part. |
| `TkTranslate.PrepareIndicesSound` | discopy/tk.py:96-108 | The corrected list stays duplicate-free and inside the grown register. |
| `TkTranslate.PrepareIndicesRepeats` | discopy/tk.py:105-108 | As written, `[0, 1]` becomes `[0, 1, 1]` and `[0]` becomes `[0, 1, 0]`. Corrected, they become `[0, 1, 2]` and `[0, 1]`. |
| `TkTranslate.DropIndicesSound` | discopy/tk.py:164-167 | Dropping the box's wires keeps the left and right indices, removes the box's, and stays duplicate-free. |
| `TkTranslate.DropIndicesRepeats` | discopy/tk.py:132-167 | As written, `[-0:]` brings back every index: `[0, 1]` minus its last wire is `[0, 0, 1]`, and a measured bit comes back `[0, 1, 0]`. Corrected, these are `[0]` and `[0, 1]`. |
| `TkTranslate.MeasuredBits` | discopy/tk.py:132-133 | The bit list gains exactly the fresh bit between its left and right parts. |
| `TkTranslate.ShiftRenaming` | discopy/tk.py:100-104 | The renaming sends unit i to unit `i + k` for every i in `[start, end)`. |
| `TkTranslate.ShiftRenamingDistinct` | discopy/tk.py:100-104 | Its keys, and its renamed bit indices, are distinct. |
| `TkTranslate.RenameShift` | discopy/tk.py:100-104 | A unit of the right kind from start up to end moves up by k, and every other unit stays. |
| `TkTranslate.ShiftStaysIn` | discopy/tk.py:104-107 | After the shift and the growth by k, every command is still inside the registers. |
| `TkTranslate.ShiftKeepsPostSelection` | discopy/tk.py:112-117 | Shifting bits keeps every post-selected index inside the grown bit register. |
| `TkTranslate.PrepareBitsMissesBits` | discopy/tk.py:113 | With no qubit, the bound `n_qubits` renames nothing, so bit 1 keeps its name. The bit count moves it to 2. |
| `TkTranslate.BoxCounts` | discopy/tk.py:157-182 | The qubit and bit counts of each box kind's domain and codomain. |
| `TkTranslate.BuildShift` | discopy/tk.py:100-103 | The loop builds the shift renaming. |
| `TkTranslate.ShiftQubits` | discopy/tk.py:100-107 | The qubit register grows by k, and the qubits from start on move up by k in every command. |
| `TkTranslate.PrepareQubits` | discopy/tk.py:96-108 | `prepare_qubits` grows the register by k at start. The returned list is the corrected index list, duplicate-free and in range. |
| `TkTranslate.AddBits` | discopy/tk.py:118-119 | The loop adds k bits and changes nothing else. |
| `TkTranslate.ShiftBits` | discopy/tk.py:112-119 | The bit register grows by k, and the bits from start on move up by k in the commands and the post-selection. |
| `TkTranslate.PrepareBits` | discopy/tk.py:110-122 | `prepare_bits` with the bit count as bound: the corrected bit list, duplicate-free and in range. |
| `TkTranslate.MeasureCommands` | discopy/tk.py:125-128 | The j-th measurement reads the j-th qubit into bit `b0 + j`. |
| `TkTranslate.BraSelection` | discopy/tk.py:129-130 | A Bra post-selects bit `b0 + j` on its j-th bit, and nothing else. |
| `TkTranslate.MeasureInto` | discopy/tk.py:126-128 | A fresh bit is added and the qubit is measured into it. |
| `TkTranslate.MeasureEach` | discopy/tk.py:125-130 | One measurement per qubit into fresh bits. For a Bra, the fresh bits are post-selected on its bitstring. |
| `TkTranslate.MeasureStep` | discopy/tk.py:126-130 | One round measures qubit j into the fresh bit `b0 + j`. For a Bra, that bit is post-selected on the j-th bit of the bitstring, and the other state is unchanged. |
| `TkTranslate.MeasureQubits` | discopy/tk.py:124-134 | `measure_qubits`: the measurements and post-selection above. For Measure, the bit list gains the fresh bit in place of nothing. For a Bra, it is unchanged. |
| `TkTranslate.XCommands` | discopy/tk.py:90-94 | One X command per 1 bit. |
| `TkTranslate.XCommandsAreKet1Gates` | discopy/tk.py:90-94 | The X commands a Ket layer appends are, in order, the commands of the X boxes `remove_ket1` splits the Ket into, each on the qubit at its offset. |
| `TkTranslate.FlipQubit` | discopy/tk.py:92 | One X command on the qubit is appended. |
| `TkTranslate.AddXGates` | discopy/tk.py:90-94 | The X gates of a Ket are appended, on the prepared qubits, for its 1 bits. |
| `TkTranslate.AddGate` | discopy/tk.py:144-154 | `add_gate` appends the gate's command on the box's qubits, or raises NotImplementedError and changes nothing. |
| `TkTranslate.TranslateKet` | discopy/tk.py:158-159 | A Ket layer grows the qubit register by the Ket's width. The qubit list becomes the corrected prepared list. Every earlier command is renamed by the qubit shift, and one X per 1 bit follows on the fresh qubits. The bit register, post-selection and scalar are unchanged, and the new state is `KetState` of the old one. |
| `TkTranslate.TranslateBits` | discopy/tk.py:160-161 | A Bits layer grows the bit register by its width. The bit list becomes the corrected prepared list. The commands and the post-selection are renamed by the bit shift, and the new state is `BitsState` of the old one. |
| `TkTranslate.TranslateMeasure` | discopy/tk.py:162-164 | A Measure or Bra layer appends one measurement per qubit into fresh bits and drops those qubits from the qubit list. A Bra post-selects the fresh bits on its bitstring, and a Measure's bit joins the bit list. The new state is `MeasureState` of the old one. |
| `TkTranslate.TranslateDiscard` | discopy/tk.py:165-167 | A Discard layer drops its wires from both lists and leaves the circuit unchanged. |
| `TkTranslate.TranslateSwap` | discopy/tk.py:168-178 | Two qubits are transposed in every command, and the post-selection is unchanged. Two bits are transposed in every command and in the post-selection. A mixed swap changes nothing, and any other swap raises ValueError and changes nothing. |
| `TkTranslate.SwapKindCounts` | discopy/tk.py:168-178 | A qubit swap has two qubits in its domain and a bit swap two bits. Exactly the swaps with more than one wire on a side raise. |
| `TkTranslate.TranslateGate` | discopy/tk.py:181-182 | A rotation or gate layer appends its command on the layer's qubits, or raises and changes nothing. |
| `TkTranslate.TranslateScalar` | discopy/tk.py:179-180 | A scalar layer multiplies the circuit's scalar by the box's value, and nothing else changes. |
| `TkTranslate.KetState` | discopy/tk.py:90-108 | After a Ket layer, the qubit register is larger by the Ket's width, and the bit register, post-selection and scalar are unchanged. |
| `TkTranslate.BitsState` | discopy/tk.py:110-122 | After a Bits layer, the bit register is larger by its width, the qubit list is unchanged, and the qubit register and scalar are unchanged. |
| `TkTranslate.MeasureState` | discopy/tk.py:124-134 | After a Measure or Bra layer, the bit register is larger by the number of measured qubits, and the lists fit the layer's output. |
| `TkTranslate.DiscardState` | discopy/tk.py:165-167 | A Discard layer leaves the circuit unchanged, and the lists fit the layer's output. |
| `TkTranslate.SwapState` | discopy/tk.py:168-178 | A Swap layer keeps the registers and the scalar, and a mixed or raising swap changes nothing. |
| `TkTranslate.GateState` | discopy/tk.py:144-154 | A gate layer keeps the registers, post-selection and scalar, and one that raises changes nothing. |
| `TkTranslate.ScalarState` | discopy/tk.py:179-180 | A scalar layer scales the circuit's scalar by its value, and nothing else changes. |
| `TkTranslate.LayerState` | discopy/tk.py:157-182 | After one layer, the lists fit its output, the registers have not shrunk, only a scalar box changes the scalar, and a layer that raises changes nothing. |
| `TkTranslate.TranslateLayer` | discopy/tk.py:157-182 | The dispatch raises exactly the layer's error. Otherwise it keeps the wire lists in step with the layer's output. The new circuit and lists are `LayerState` of the old ones. |
| `TkTranslate.FirstErrorNone` | discopy/tk.py:157-182 | The translation raises exactly when some layer does, and the error is that of the first such layer. |
| `TkTranslate.FirstErrorPrefix` | discopy/tk.py:157-182 | An error raised within the first m layers is not affected by the layers after them. |
| `TkTranslate.FirstErrorAt` | discopy/tk.py:157-182 | If layer k is the first that raises, its error is the translation's. |
| `TkTranslate.Run` | discopy/tk.py:157-183 | Translating the layers one by one from wires of a type leaves lists that fit the output type. |
| `TkTranslate.RunStep` | discopy/tk.py:157-183 | Translating from layer k on is translating layer k, then the layers after it. |
| `TkTranslate.ScaleByProduct` | discopy/tk.py:179-180 | Scaling by each value in turn is scaling by their product. |
| `TkTranslate.ScaleByStep` | discopy/tk.py:179-180 | Scaling by the scalar boxes of some layers is scaling by the first layer's box, then by the rest. |
| `TkTranslate.RunScalar` | discopy/tk.py:157-183 | A translation ends with its starting scalar scaled by each scalar box's value, in layer order. |
| `TkTranslate.RunDone` | discopy/tk.py:183 | When no layer is left, the run returns the circuit and the lists it started from, and their type is the output type. |
| `TkTranslate.ToTkRound` | discopy/tk.py:157-182 | One pass of the layer loop raises exactly its layer's error. The rest of the translation from the new state is the rest from the old state. |
| `TkTranslate.TranslateLayers` | discopy/tk.py:157-183 | The layer loop raises the first layer's error. Otherwise the circuit and lists it leaves are the run of all layers, and the lists track the output wires. |
| `TkTranslate.TypedStep` | discopy/tk.py:157 | The layers of a typed circuit compose one after the other to the circuit's output type. |
| `TkTranslate.ToTk` | discopy/tk.py:86-183 | The translation fails exactly with the first layer's error. Otherwise the fresh circuit and the lists are the run of all layers from the empty circuit. The lists track the output wires, and the scalar is the product of the scalar boxes. |
| `TkTranslate.BoxFromTk` | discopy/tk.py:196-209 | Unknown names raise NotImplementedError, and every box read back is valid. |
| `TkTranslate.GateRoundTrip` | discopy/tk.py:144-152 | The command `add_gate` emits for a rotation or library gate is read back by `box_from_tk` as the same box. |
| `TkTranslate.MeasureRoundTrip` | discopy/tk.py:198-199 | Every measurement `measure_qubits` emits is read back as Measure. |
| `Counts.Reduce` | discopy/tk.py:264-265 | The key keeps the bits that are not post-selected, so it is no longer than the bitstring. |
| `Counts.ReduceInjective` | discopy/tk.py:260-265 | Two matching bitstrings of one length with the same key are equal, so the filter never merges two outcomes. |
| `Counts.ReduceLength` | discopy/tk.py:264-265 | A key is shorter than its bitstring by the number of post-selected positions in it. |
| `Counts.ReduceNothing` | discopy/tk.py:264-265 | With no post-selection, a bitstring is its own key. |
| `Counts.SelectedUnique` | discopy/tk.py:258-266 | The filtered counts are determined by the counts and the post-selection. |
| `Counts.SelectedKeyLength` | discopy/tk.py:258-266 | Every filtered key has one entry per bit that is not post-selected. |
| `Counts.SelectNothing` | discopy/tk.py:258-266 | With an empty post-selection, the filter returns the counts unchanged. |
| `Counts.SelectedStep` | discopy/tk.py:260-265 | Considering one more outcome keeps the loop's relation between the filtered counts and the outcomes seen. |
| `Counts.SelectScaled` | discopy/tk.py:258-269 | Scaling commutes with the filter: scaling after post-selection gives the filter of the scaled counts. |
| `Counts.PostSelectCounts` | discopy/tk.py:258-266 | The loop stores each matching outcome's count under its key, and only those. |
| `Counts.ScaleCounts` | discopy/tk.py:267-269 | The in-place loop multiplies every count by the factor and keeps the keys. |
| `Counts.SquaredModulus` | discopy/tk.py:269 | `abs(s) ** 2` of a real scalar is non-negative. |
| `Counts.GetCounts` | discopy/tk.py:246-270 | An empty answer raises RuntimeError, and any other answer succeeds. The counts are then post-selected when asked, then multiplied by the squared scalar when asked. |

## Left out

- Floating point and complex numbers: phases, scalars and counts are exact reals. Gate arrays are kept only as their list of entries, and complex entries (S, T, Y, the rotations' arrays) are not modelled. `Ket.array` is modelled on integers.
- `Circuit.eval`, `Circuit.measure`'s array arithmetic, `cups` and `caps`, `Circuit.random` (randomness) and `__repr__`/`__str__`: the model keeps only the `bitstring` helper of `measure`.
- `normalize` after its first phase: the code moving kets (steps 2 to 5) refers to an unbound name and relies on `foliation` and `interchange`, which are not part of this model.
- `CircuitFunctor` and the layer decomposition `circuit.layers` of the rigid-category library, which are not part of this model. `to_tk` of tk.py takes its layers as `(left, box, right)` values, with `remove_ket1` applied box by box.
- The wrapping of `to_tk` by initial Kets/Bits and final Discards (tk.py lines 77-84): it builds a circuit with the rigid-category tensor, which is not part of this model.
- `TketCircuit._upgrade` and pytket itself: commands are `(name, params, units)` values, and the pytket backend is not part of this model. `hasattr(tk_circ, name)` in `add_gate` of tk.py and the method lookup by name in `Circuit.to_tk` of circuit.py (line 235) are both modelled as membership in the library gate names. A box named after another pytket method would be accepted by the source and is rejected by `TkTranslate.AddGate` and `Routing.TkInstrs`. In `get_counts`, `backend.get_counts`, `measure_all` and `compilation` are left out, and the backend's answer is a parameter.
- `probs_from_counts`, the `normalize` step of `get_counts`: it is a pytket function, which is not part of this model.
- `Bits` boxes: their bit values are ignored, as in the source, which only allocates fresh bits.
- `from_tk` of tk.py (lines 186-243): it refers to misspelled and unbound names (`souce`, `post_selection`, `scal`) and cannot run past its first multi-qubit command or post-selected measurement. Only `box_from_tk` is modelled.
- `Routing.RouteCommand`: its contract characterises commands on one or two qubits, the arities of the library gates and CRz. On three or more qubits it computes the source's loop without a closed form.
- `TkTranslate.ToTk`: it computes the corrected `to_tk`, and so do `TkTranslate.TranslateLayer`, `TkTranslate.TranslateMeasure`, `TkTranslate.TranslateDiscard`, `TkTranslate.TranslateSwap`, `TkTranslate.MeasureQubits` and `TkTranslate.ShiftBits`. The corrections are the four rows of "## Findings" on tk.py: renumbered index lists, an empty suffix when nothing lies to the right, the bit renaming bounded by the bit count, and the exchange of post-selection entries in a bit swap. The as-written behaviour is stated by the members named in those rows.
- `Circuits.RemoveScalars` and `Circuits.NormalizeScalars` require every box to carry its array (`AllPayloaded`). A zero-width `Gate` without an array raises AttributeError at circuit.py:155, which the model does not reach. `Tket.TketCircuit.RenameUnits` requires distinct renamed bit indices (`BitIndicesDistinct`), which excludes the KeyError of tk.py:65. Neither case is reachable from the core's own call sites.
- `Routing.ToTkIgnoresDagger`: `Circuit.to_tk` of circuit.py sends a daggered gate to the same tket method as the gate, so the dagger of a non-self-inverse gate is lost. The model follows the code and states this, without a corrected version.
- `Counts.GetCounts`: Python's dictionary iteration order is not modelled. The filter is stated as a relation, and `Counts.ReduceInjective` shows that no two outcomes collide. The `IndexError` that a post-selected index beyond the bitstring would raise is excluded: every bitstring has one entry per bit, and a valid circuit only post-selects its own bits.

## Findings

| source | as written | input that shows it | evidently intended | confidence | as-written member | corrected member |
|---|---|---|---|---|---|---|
| circuit.py:258-278 | `from_tk` routes a command's qubits together with SWAPs but never undoes them, so later commands address wires that now carry other qubits | `CX(0, 2); X(2)` on three qubits becomes SWAP at 1, CX at 0, X at 2: the X acts on qubit 1 | undo each command's SWAPs in reverse order after its gate | not executed | `Routing.FromTkMisroutes` | `Routing.RoutedBlockCorrect` |
| discopy/tk.py:105-108 | `prepare_qubits` and `prepare_bits` return the old indices unrenumbered after shifting the register, so the right part can collide with the fresh wires | qubits `[0, 1]` with a one-qubit Ket between them gives `[0, 1, 1]` | renumber the kept indices as the renaming moved them; corrected in `TkTranslate.ToTk` | not executed | `TkTranslate.PrepareIndicesRepeats` | `TkTranslate.PrepareIndicesSound` |
| discopy/tk.py:132-133 | `xs[-right.count(x):]` is the whole list when nothing lies to the right, in `prepare_*`, `measure_qubits` and the Measure/Discard branches | bits `[0]`, measuring into fresh bit 1 with no bit on the right, gives `[0, 1, 0]` | an empty suffix when the count is 0; corrected in `TkTranslate.ToTk` | not executed | `TkTranslate.DropIndicesRepeats` | `TkTranslate.DropIndicesSound` |
| discopy/tk.py:113 | `prepare_bits` renames the bits from `start` up to `n_qubits` instead of `n_bits` | no qubit, bits `[0, 1]`, one fresh bit between them: the renaming is empty, so the fresh `add_bit(Bit(1))` collides with the existing c[1] | bound the renaming by `n_bits`; corrected in `TkTranslate.ToTk` | not executed | `TkTranslate.PrepareBitsMissesBits` | `TkTranslate.PrepareBits` |
| discopy/tk.py:136-142 | swapping bits renames through `Bit('tmp', 0)`, whose `index[0]` is 0, so `rename_units` parks the post-selection under bit 0's key | post-selection `{0: 1, 1: 0}`, swapping bits 1 and 2, gives `{2: 0}`: bit 0's constraint is lost | exchange the two bits' post-selection entries; corrected in `TkTranslate.ToTk` | not executed | `Tket.TketCircuit.SwapBitsAsWritten` | `Tket.TketCircuit.SwapBits` |
