# qsy core, modelled in Dafny

qsy is a small quantum-circuit simulator with an assembler front end (qsyasm).
A `QuantumRegister` owns one of two backends:

- the **CHP stabilizer backend** (`CHPBackend`). It implements the
  Aaronson–Gottesman tableau algorithm. The state is 2n+1 rows of x and z
  bits and a phase bit. Rows 0..n-1 are destabilizers, rows n..2n-1 are
  stabilizers, and row 2n is scratch space. H, S and CNOT update the rows
  in place. X, Z, S† and CZ are compositions of those three. `_rowsum`
  multiplies two rows. A measurement is either random, cleared with a
  pivot row, or deterministic, read from the scratch row.
- the **dense statevector backend** (`StatevectorBackend`). It holds 2^n
  amplitudes, builds a per-qubit operator list for each gate, and measures
  with bit masks over the amplitude indices.

Around them sit:

- the shared qubit-index guard;
- the `C`/`CC` gate-descriptor constructors;
- the `Register` base and the classical bit array;
- the assembler's symbol table (`Env`);
- the error-location helpers and the register-binding loops of
  `QsyASMProgram`.

The project has one module per source file, plus shared helper modules:
`Errors` (results, Python subscripting), `Bits`, `Arith` (powers of two and
bit arithmetic) and `Text` (decimal rendering).

- **CHP backend.** `Chp.CHPBackend` is a class over `array2`/`array` fields,
  updated in place. Every method is proved to leave the tableau
  (`Rows()`) equal to a value-level function of module `Stabilizer`
  applied to the old tableau. What those functions mean is proved in
  `StabilizerFacts`.
- **Statevector backend.** `Statevector.StatevectorBackend` holds the
  amplitude sequence. Its methods are proved against `ApplyGateResult`,
  `MeasureResult`, `Collapse` and `FormatBits`.
- **Registers, symbol table and program.** `QuantumRegister`,
  `ClassicalRegister`, `Env` and `QsyASMProgram` are classes whose methods
  state their whole new state.

The CHP code is modelled **as written**, including three places where it
departs from the published algorithm. Module `Divergences` proves
end-to-end consequences of these (see the section below).

## Model

| member | source | states |
|---|---|---|
| Errors.PyIndex | qsy/classical_register.py:8-12 | Python subscripting: an index is accepted iff -len <= i < len; a negative one counts from the end; a non-negative one is itself |
| Backend.CheckInRange | qsy/backends/backend.py:25-31 | `_check_in_range` fails iff target < 0 or target >= size, and the failure carries the register name, the index and the size |
| Backend.CheckInRangeBoundaries | qsy/backends/backend.py:26 | every index 0..size-1 passes; -1 and size are both rejected |
| Backend.RangeMessage | qsy/backends/backend.py:27-30 | the exception text contains the register name, the decimal index and the decimal size |
| Gates.C | qsy/gates/gate.py:8-10 | `C(g)` has arity 2 whatever g's arity, keeps g's matrix and adjoint matrix, and is named "C" followed by g's name |
| Gates.CC | qsy/gates/gate.py:13-15 | `CC(g)` has arity 3, keeps both matrices, and is named "CC" followed by g's name |
| Gates.NestedControlIsNotDoubleControl | qsy/gates/gate.py:8-15 | `C(C(g))` has the name and matrices of `CC(g)` but arity 2, so it is a different descriptor |
| Stabilizer.Initial | qsy/backends/chp.py:23-43 | 2n+1 rows: destabilizer k is X_k, stabilizer n+k is Z_k, the scratch row is all zero, and every phase is 0 |
| Stabilizer.HRow | qsy/backends/chp.py:133-136 | `_h` on one row swaps x_t and z_t, keeps every other column, and flips the phase iff x_t and z_t were both 1 (Y) |
| Stabilizer.SRow | qsy/backends/chp.py:146-149 | `_s` on one row keeps every x bit, sets z_t to z_t XOR x_t, keeps every other z bit, and flips the phase iff x_t and z_t were both 1 |
| Stabilizer.CnotRow | qsy/backends/chp.py:138-144 | `_cnot` on one row XORs x_c into x_t and z_t into z_c, keeps every other bit, and ends with phase 1 iff r XOR (x_c AND z_t) is 1 and x_t equals z_c |
| Stabilizer.ApplyH | qsy/backends/chp.py:133-136 | every generator row k < 2n becomes its `_h` image (phase ^= x_t&z_t, then x_t and z_t swap); the scratch row is unchanged |
| Stabilizer.ApplyS | qsy/backends/chp.py:146-149 | every generator row becomes its `_s` image (phase ^= x_t&z_t, then z_t ^= x_t); the scratch row is unchanged |
| Stabilizer.ApplyCnot | qsy/backends/chp.py:138-144 | every generator row becomes its `_cnot` image from its own old values, with the phase ANDed as the code does; the scratch row is unchanged |
| Stabilizer.ApplyZ | qsy/backends/chp.py:156-158 | `_s` twice keeps the tableau's shape; its effect is StabilizerFacts.ZFlipsSignsOfXAndY |
| Stabilizer.ApplySdag | qsy/backends/chp.py:66-72 | S with `adjoint` is `_s` three times and keeps the shape; its effect is StabilizerFacts.SdagEffect |
| Stabilizer.ApplyX | qsy/backends/chp.py:151-154 | `_h; _z; _h` keeps the shape; its effect is StabilizerFacts.XFlipsSignsOfZAndY |
| Stabilizer.ApplyCz | qsy/backends/chp.py:160-163 | `_h; _cnot; _h` keeps the shape; its effect is StabilizerFacts.CzBitAction |
| Stabilizer.ApplyUpdate | qsy/backends/chp.py:62-78 | the dispatch of `apply_gate` to the update of the chosen gate keeps the shape |
| Stabilizer.G | qsy/backends/chp.py:170-182 | `g` lies in {-1, 0, 1}; it is 0 when either Pauli is the identity or both are equal |
| Stabilizer.PhaseExponent | qsy/backends/chp.py:184-185 | the sum of `g` over k columns lies between -k and k |
| Stabilizer.PhaseTotal | qsy/backends/chp.py:184-186 | the total `_rowsum` tests lies between -n and n+4, and equals the g sum when both phases are 0 |
| Stabilizer.NewPhase | qsy/backends/chp.py:188-191 | a total of exactly 0 gives phase 0, exactly 2 gives phase 1; any other total keeps the old phase |
| Stabilizer.XorSeq | qsy/backends/chp.py:193-195 | column-wise XOR of two bit rows, keeping the length |
| Stabilizer.RowsumRow | qsy/backends/chp.py:165-195 | the product row has n x and n z bits |
| Stabilizer.Rowsum | qsy/backends/chp.py:165-195 | `_rowsum(h, i)` on the tableau keeps its shape; its frame is StabilizerFacts.RowsumFrame |
| Stabilizer.PivotFrom | qsy/backends/chp.py:82-85 | the result is the first row at or after `from` and below 2n with x_t = 1, or none when no such row exists |
| Stabilizer.Pivot | qsy/backends/chp.py:81-85 | when present, the pivot is a stabilizer row (n <= p < 2n) with x_t = 1 and every earlier stabilizer row has x_t = 0; when absent, every stabilizer row has x_t = 0 |
| Stabilizer.ScratchStep | qsy/backends/chp.py:113-115 | inspecting destabilizer k multiplies the scratch row by stabilizer k+n exactly when x_t = 1, and leaves it alone otherwise |
| Stabilizer.PivotIsFirst | qsy/backends/chp.py:81-85 | the pivot is exactly the first stabilizer row with x_t = 1, and is absent iff there is none |
| Stabilizer.ClearColumn | qsy/backends/chp.py:89-91 | the partial clearing loop keeps the shape |
| Stabilizer.RandomBranch | qsy/backends/chp.py:87-106 | the random branch keeps the shape; its content is StabilizerFacts.RandomBranchFacts |
| Stabilizer.Scratch | qsy/backends/chp.py:109-115 | the scratch row stays an n-qubit row |
| Stabilizer.MeasureSpec | qsy/backends/chp.py:80-117 | a measurement keeps the shape; the branches are StabilizerFacts.RandomBranchFacts and DeterministicBranchFacts |
| Stabilizer.MeasureAllSpec | qsy/backends/chp.py:119-120 | measuring qubits 0..k-1 in turn yields k results and keeps the shape |
| StabilizerFacts.GIsProductPhase | qsy/backends/chp.py:170-182 | `g` equals the power of i in the product of the two encoded Paulis (XY = iZ and cyclic, reversed gives -i), and XOR of the encodings is the Pauli part of that product |
| StabilizerFacts.RowsumMultipliesPaulis | qsy/backends/chp.py:184-195 | each column of the new row h encodes the product of the two old Paulis in that column |
| StabilizerFacts.RowsumFrame | qsy/backends/chp.py:165-195 | `_rowsum(h, i)` changes only row h; row i is kept; row h's bits become the XOR of both rows |
| StabilizerFacts.HInvolution | qsy/backends/chp.py:133-136 | `_h` applied twice restores every row, phase included |
| StabilizerFacts.ZFlipsSignsOfXAndY | qsy/backends/chp.py:156-158 | `_z` changes no bit and flips the phase of exactly the generator rows with x_t = 1; the scratch row is kept |
| StabilizerFacts.XFlipsSignsOfZAndY | qsy/backends/chp.py:151-154 | `_x` changes no bit and flips the phase of exactly the generator rows with z_t = 1; the scratch row is kept |
| StabilizerFacts.SdagEffect | qsy/backends/chp.py:66-72 | `_s` three times sets z_t ^= x_t and flips the phase exactly where x_t = 1 and z_t = 0 |
| StabilizerFacts.CzBitAction | qsy/backends/chp.py:160-163 | for distinct control and target, `_cz` keeps every x bit and sets z_c ^= x_t and z_t ^= x_c; the scratch row is kept |
| StabilizerFacts.CnotBitsInvolution | qsy/backends/chp.py:138-144 | for distinct control and target, `_cnot` twice restores the x and z bits |
| StabilizerFacts.RandomBranchFacts | qsy/backends/chp.py:87-106 | with pivot p: the outcome is the drawn bit; row p becomes Z_t with that sign; row p-n holds the old row p; no other generator row keeps x_t = 1; the scratch row is kept |
| StabilizerFacts.DeterministicBranchFacts | qsy/backends/chp.py:107-117 | without a pivot the result does not depend on the random bit, only the scratch row changes, and the outcome is the scratch row's phase |
| StabilizerFacts.MeasureAllPrefixStable | qsy/backends/chp.py:119-120 | an entry of `measure_all`'s list is fixed once its qubit has been measured |
| StabilizerFacts.MeasureAllInOrder | qsy/backends/chp.py:119-120 | `measure_all` returns n results; result i is `measure(i)` on the tableau left by measuring 0..i-1 |
| StabilizerFacts.PhaseExponentOfIdentity | qsy/backends/chp.py:184-185 | the `g` sum is 0 when row h is the identity |
| StabilizerFacts.InitialScratch | qsy/backends/chp.py:107-117 | on the initial tableau, the scratch row is the identity until destabilizer t is reached, and +Z_t afterwards |
| StabilizerFacts.InitialMeasuresZero | qsy/backends/chp.py:107-117 | measuring any qubit of a new backend is deterministic and yields 0; only the scratch row changes, becoming +Z_t |
| Divergences.PaperCnotInvolution | qsy/backends/chp.py:138-144 | the published CNOT rule (a single XOR into the phase) is its own inverse, phase included |
| Divergences.CnotPhaseAgreement | qsy/backends/chp.py:140-141 | the code and the published rule agree on the bits, and agree on the phase iff the old phase is 0 or x_t ^ z_c ^ 1 = 1 |
| Divergences.CnotDropsSign | qsy/backends/chp.py:140-141 | on -X_1, CNOT(0, 1) in the code yields +X_1 while the published rule keeps -X_1; so the code's CNOT twice is not the identity |
| Divergences.PaperPhaseIsPeriodic | qsy/backends/chp.py:188-191 | the mod-4 rule depends only on the total mod 4, and the code's rule agrees with it on totals 0 and 2 |
| Divergences.CodePhaseIsNotPeriodic | qsy/backends/chp.py:188-191 | totals 4 and -2 give different phases under the code's rule and the mod-4 rule |
| Divergences.InitialTwo | qsy/backends/chp.py:23-43 | the initial two-qubit tableau, written out row by row |
| Divergences.CnotHZTableau | qsy/backends/chp.py:133-163 | the tableau after CNOT(0, 1), H(0), Z(0) from two zero qubits, written out |
| Divergences.CnotOnInitialTableau | qsy/backends/chp.py:138-144 | CNOT(0, 1) on two zero qubits maps X_0 to X_0 X_1 and Z_1 to Z_0 Z_1 and keeps every phase |
| Divergences.HZTableau | qsy/backends/chp.py:133-158 | the tableau after H(0), Z(0) from two zero qubits, written out |
| Divergences.CnotHZScratch | qsy/backends/chp.py:107-117 | measuring qubit 1 of the first tableau is deterministic, and the scratch row ends as -Z_1 |
| Divergences.HZScratch | qsy/backends/chp.py:107-117 | measuring qubit 1 of the second tableau is deterministic, and the scratch row ends as +Z_1 |
| Divergences.RowsumSignChangesOutcome | qsy/backends/chp.py:184-191 | after CNOT(0, 1), H(0), Z(0) on two zero qubits, measuring the untouched qubit 1 yields 1; without the CNOT it yields 0 |
| Divergences.HZCnotHTableau | qsy/backends/chp.py:133-158 | the tableau after H(1), Z(1), CNOT(0, 1), H(1) from two zero qubits, written out |
| Divergences.HZOnQubit1Tableau | qsy/backends/chp.py:133-158 | H then Z on qubit 1 of two zero qubits gives the stabilizer -X_1, written out |
| Divergences.CnotDropsSignInTableau | qsy/backends/chp.py:138-144 | CNOT(0, 1) on that tableau turns -X_1 into +X_1 |
| Divergences.XTableau | qsy/backends/chp.py:151-154 | the tableau after `_x(1)` on two zero qubits, written out |
| Divergences.ReadsSignOfZ1 | qsy/backends/chp.py:107-117 | with stabilizers +Z_0 and ±Z_1, measuring qubit 1 is deterministic and yields the sign of Z_1 |
| Divergences.CnotSignChangesOutcome | qsy/backends/chp.py:140-141 | H(1), Z(1), CNOT(0, 1), H(1) with a zero control should act as X on qubit 1, but measuring qubit 1 yields 0; the code's own `_x(1)` yields 1 |
| Chp.DecodeGate | qsy/backends/chp.py:46-60 | a gate outside SUPPORTED_GATES fails as unsupported. Otherwise it succeeds iff one in-range target is given (arity 1), or exactly two in-range parameters (control, then target). The update chosen is the gate's own, with S† iff S and `adjoint` |
| Chp.MeasureColumn | qsy/backends/chp.py:82-83 | `measure` performs no range check. A target in -n..n-1 reads column target or target+n; any other target fails with IndexError when n > 0 |
| Chp.ApplyGateResult | qsy/backends/chp.py:45-78 | `apply_gate` succeeds iff the arguments decode. A failure carries the decoding error and leaves the tableau as it was |
| Chp.MeasureResult | qsy/backends/chp.py:80-117 | `measure` fails iff the subscript is out of Python's range, leaving the tableau unchanged; otherwise the target is a valid column and the outcome and tableau are those of MeasureSpec on it |
| Chp.CHPBackend.constructor | qsy/backends/chp.py:19-43 | the new arrays hold the initial tableau (identity blocks, zero scratch row and phases) |
| Chp.CHPBackend.H | qsy/backends/chp.py:133-136 | the row loop leaves the arrays equal to ApplyH of the old tableau |
| Chp.CHPBackend.S | qsy/backends/chp.py:146-149 | the row loop leaves the arrays equal to ApplyS of the old tableau |
| Chp.CHPBackend.Cnot | qsy/backends/chp.py:138-144 | the row loop leaves the arrays equal to ApplyCnot of the old tableau |
| Chp.CHPBackend.CnotBits | qsy/backends/chp.py:138-144 | in rows 0..2n-1, x_t and z_c are XORed as the code does and the phase becomes CnotPhase of the old bits; the scratch row and every other bit are kept |
| Chp.CHPBackend.Z | qsy/backends/chp.py:156-158 | the arrays become ApplyZ of the old tableau |
| Chp.CHPBackend.X | qsy/backends/chp.py:151-154 | the arrays become ApplyX of the old tableau |
| Chp.CHPBackend.Cz | qsy/backends/chp.py:160-163 | the arrays become ApplyCz of the old tableau |
| Chp.CHPBackend.Rowsum | qsy/backends/chp.py:165-195 | the phase sum loop and the XOR loop leave the arrays equal to Rowsum of the old tableau |
| Chp.CHPBackend.PhaseSum | qsy/backends/chp.py:184-186 | the loop computes PhaseTotal of rows h and i and changes nothing |
| Chp.CHPBackend.XorRowInto | qsy/backends/chp.py:193-195 | every x and z bit of row h becomes its XOR with row i; every other bit is kept |
| Chp.CHPBackend.Measure | qsy/backends/chp.py:80-117 | the result and the new arrays are MeasureResult of the old tableau, the target and the drawn bit |
| Chp.CHPBackend.FindPivot | qsy/backends/chp.py:81-85 | the scan returns the pivot of the current tableau |
| Chp.CHPBackend.CollapseOnPivot | qsy/backends/chp.py:87-106 | the clearing loop and the row replacement leave the arrays equal to RandomBranch of the old tableau |
| Chp.CHPBackend.ReplacePivotRow | qsy/backends/chp.py:93-104 | row p-n becomes the old row p, row p becomes Z_t with the drawn sign, and nothing else changes |
| Chp.CHPBackend.ReadDeterministic | qsy/backends/chp.py:107-117 | only the scratch row changes, to Scratch of the old tableau, and the outcome is its phase |
| Chp.CHPBackend.ClearScratch | qsy/backends/chp.py:109-111 | the scratch row becomes all zero with phase 0; no other row changes |
| Chp.CHPBackend.AccumulateScratch | qsy/backends/chp.py:113-115 | from a cleared scratch row, the loop leaves the scratch row of the tableau in place and nothing else changed |
| Chp.CHPBackend.MeasureAll | qsy/backends/chp.py:119-120 | the results and the new arrays are MeasureAllSpec of the old tableau |
| Chp.CHPBackend.ApplyGate | qsy/backends/chp.py:45-78 | the result and the new arrays are ApplyGateResult of the old tableau |
| Chp.ControlEqualsTargetAccepted | qsy/backends/chp.py:53-60 | CX and CZ with control equal to target pass every check |
| Chp.ControlEqualsTargetClearsColumn | qsy/backends/chp.py:138-144 | such a CNOT clears both bits of that column in every generator row |
| Chp.NegativeTargetAliases | qsy/backends/chp.py:80-83 | a target in -n..-1 measures qubit target + n |
| Chp.AdjointOnlyAffectsS | qsy/backends/chp.py:66-72 | `adjoint` changes the decoding of no gate but S, and only S yields S† |
| Chp.UnsupportedGates | qsy/backends/chp.py:17 | Y, T and CCX are refused as unsupported whatever the parameters |
| Chp.SupportedGateFacts | qsy/backends/chp.py:17 | SUPPORTED_GATES is CX, H, S, X, Z, CZ in that order; each takes one or two qubits, and only CX and CZ take two |
| Chp.GateOf | qsy/backends/chp.py:17 | every tableau update is performed for a supported gate, a two-qubit one exactly for CNOT and CZ |
| Statevector.OneHot | qsy/backends/statevector.py:38-39 | the basis vector |k>: One at k, Zero everywhere else |
| Statevector.Operation | qsy/backends/statevector.py:86 | the gate's matrix, or its adjoint matrix when `adjoint` is set; S with `adjoint` gives the matrix of S† |
| Statevector.InitialState | qsy/backends/statevector.py:19-24 | 2^size amplitudes, the basis state |0...0> |
| Statevector.SingleLayout | qsy/backends/statevector.py:83-89 | the operator list has `size` entries: the operation at the target, the identity elsewhere |
| Statevector.ControlledLayout | qsy/backends/statevector.py:104-112 | the operator list has `size` entries: a control marker at every listed control, else the operation at the target, else the identity |
| Statevector.NoControlsIsSingle | qsy/backends/statevector.py:83-112 | with no controls the controlled layout is the single-qubit layout |
| Statevector.ControlsInRange | qsy/backends/statevector.py:98-99 | succeeds iff every control is in 0..size-1; otherwise it fails with the range error of the first bad control |
| Statevector.DecodeGate | qsy/backends/statevector.py:26-32 | for arity 1, the target is params[0]; otherwise it is the last parameter and all earlier ones are controls. The target is checked before the controls. Empty parameters fail as Python's unpacking does. A success has `size` entries |
| Statevector.Tile | qsy/backends/statevector.py:49-54 | `np.tile(block, n)` has n times the block's length (its entries are stated by MaskEntry) |
| Statevector.ZerosMask | qsy/backends/statevector.py:49-51 | the zeros mask has 2^size entries |
| Statevector.OnesMask | qsy/backends/statevector.py:52-54 | the ones mask has 2^size entries |
| Statevector.MaskArithmetic | qsy/backends/statevector.py:45-46 | step_size = 2^(size-target-1), n_steps = 2^target, and 2 * n_steps * step_size = 2^size |
| Statevector.MaskEntry | qsy/backends/statevector.py:45-55 | at every index the two masks are complementary, and the ones mask is bit size-1-target of the index |
| Statevector.TiledBlockEntry | qsy/backends/statevector.py:49-54 | in n tiled blocks of 2s, the zeros-then-ones block gives bit (i / s) % 2 at i and the ones-then-zeros block its complement |
| Statevector.MaskLayout | qsy/backends/statevector.py:45-55 | both masks have 2^size entries, are complementary, and select by bit size-1-target: qubit 0 is the most significant bit |
| Statevector.CheckMaskTarget | qsy/backends/statevector.py:45-55 | the mask arithmetic succeeds iff 0 <= target < size; otherwise one of Python's errors is raised |
| Statevector.Collapse | qsy/backends/statevector.py:63-68 | every amplitude whose target bit differs from the outcome becomes Zero; the others are kept |
| Statevector.MeasuredValue | qsy/backends/statevector.py:61 | the outcome is 1 iff the sampled index has bit size-1-target set and a nonzero amplitude there |
| Statevector.OutcomeIsSampledBit | qsy/backends/statevector.py:60-61 | for a sampled index with a nonzero amplitude, the outcome is the index's target bit, and that amplitude survives the collapse |
| Statevector.RepeatedMeasurementAgrees | qsy/backends/statevector.py:60-68 | measuring the same qubit again, at any index the collapsed state can yield, gives the same outcome |
| Statevector.BinaryDigits | qsy/backends/statevector.py:41 | `format(m, 'b')` has at least one digit |
| Statevector.FromBitsOfDigits | qsy/backends/statevector.py:41 | the binary digits of m read back to m |
| Statevector.FormatBits | qsy/backends/statevector.py:41 | `format(m, '0{w}b')` reads back to m, has at least w digits, and exactly w when 1 <= w and m < 2^w |
| Statevector.MeasureAllBits | qsy/backends/statevector.py:41-42 | the returned bits read back to the sampled index. For size >= 1 there are exactly `size` of them, most significant first, with bit k the index's bit size-1-k. For size 0 the list is [0] |
| Statevector.ApplyGateResult | qsy/backends/statevector.py:26-32 | `apply_gate` succeeds iff the parameters decode; a failure leaves the amplitudes unchanged; the length is always kept |
| Statevector.MeasureResult | qsy/backends/statevector.py:44-72 | `measure` fails iff the target is outside 0..size-1, leaving the amplitudes unchanged; otherwise the outcome is MeasuredValue and the amplitudes are Collapse of it; the length is kept |
| Statevector.StatevectorBackend.constructor | qsy/backends/statevector.py:19-24 | the state is the basis state of index 0 over 2^size amplitudes |
| Statevector.StatevectorBackend.ApplyGate | qsy/backends/statevector.py:26-32 | the result and the new amplitudes are ApplyGateResult; the controls are checked by a loop |
| Statevector.StatevectorBackend.Measure | qsy/backends/statevector.py:44-72 | the result and the new amplitudes are MeasureResult; ZeroWhere on the other outcome's mask produces Collapse |
| Statevector.StatevectorBackend.ZeroWhere | qsy/backends/statevector.py:63-68 | every amplitude where the dropped mask is 1 becomes zero, the others are kept, and the length is unchanged |
| Statevector.StatevectorBackend.MeasureAll | qsy/backends/statevector.py:34-42 | the state becomes one-hot at the sampled index, and the result is its binary formatting |
| Registers.NewRegister | qsy/register.py:2-4 | a new register has the given size and an empty state |
| Registers.LenOfNew | qsy/register.py:6-7 | `len` of a new register is its size |
| Registers.Len | qsy/register.py:6-7 | `len` is the size, whatever the name and state hold |
| Registers.Repr | qsy/register.py:9-11 | the text is the class name, '<', the register name and '[', in that order, and ends with "]>" |
| Registers.ReprSizeRoundTrip | qsy/register.py:9-11 | the size can be read back from the text whatever the class name and register name contain |
| ClassicalRegisters.ClassicalRegister.constructor | qsy/classical_register.py:4-6 | the state is `size` zeros |
| ClassicalRegisters.ClassicalRegister.Get | qsy/classical_register.py:8-9 | `cr[i]` succeeds iff -len <= i < len and returns the addressed entry; otherwise IndexError |
| ClassicalRegisters.ClassicalRegister.Set | qsy/classical_register.py:11-12 | `cr[i] = v` changes only the addressed entry and keeps the length; reading it back gives v; a bad index fails with the state unchanged |
| ClassicalRegisters.ClassicalRegister.Repr | qsy/register.py:9-11 | the text starts with "ClassicalRegister<" and the name, and the size reads back from it |
| QuantumRegisters.CheckArity | qsy/quantum_register.py:16-21 | fails iff the parameter count differs from the gate's arity, with the gate name, the arity and the count |
| QuantumRegisters.QuantumRegister.constructor | qsy/quantum_register.py:11-13 | the backend is fresh, built from the register's size and name, and holds the backend's initial state |
| QuantumRegisters.QuantumRegister.ApplyGate | qsy/quantum_register.py:15-23 | an arity mismatch fails with the backend untouched; otherwise the result and new state are the backend's `apply_gate` for the same gate, parameters and `adjoint` |
| QuantumRegisters.QuantumRegister.Measure | qsy/quantum_register.py:28-29 | the result and new state are exactly the backend's `measure` |
| QuantumRegisters.QuantumRegister.MeasureAll | qsy/quantum_register.py:25-26 | the result and new state are exactly the backend's `measure_all` |
| QuantumRegisters.QuantumRegister.Repr | qsy/register.py:9-11 | the text starts with "QuantumRegister<" and the name, and the size reads back from it |
| Environment.Env.constructor | qsyasm/env.py:6-8 | both tables are empty |
| Environment.Env.Qr | qsyasm/env.py:10-14 | `qr(name)` succeeds iff the name is bound, returning the bound register; otherwise it fails with the undefined-register error |
| Environment.Env.Cr | qsyasm/env.py:16-20 | the same over the classical table |
| Environment.Env.CreateQr | qsyasm/env.py:22-23 | binds the name to a fresh register of that size, name and backend. Any earlier binding is replaced and the other entries and `crs` are kept. `qr(name)` then succeeds |
| Environment.Env.CreateCr | qsyasm/env.py:25-26 | binds the name to a fresh all-zero register of that size and name, keeping `qrs`; `cr(name)` then succeeds |
| Program.LastIndexBelow | qsyasm/program.py:108 | the rfind result is -1 iff no newline precedes the end; otherwise it is a newline with none after it before the end |
| Program.FindColumn | qsyasm/program.py:107-109 | for 0 <= lexpos <= len: the column is at least 1; on the first line it is lexpos + 1; otherwise the character `column` places back is a newline and none lies between it and lexpos |
| Program.ErrorMessage | qsyasm/program.py:103-105 | the message starts with the file name and ':', and ends with ": error: " and the message text |
| Program.ErrorMessageRoundTrip | qsyasm/program.py:103-105 | the message reads back to the token's line, its column and the message, whatever the message contains |
| Program.BindAllFacts | qsyasm/program.py:63-73 | binding names in order adds exactly those names, keeps every other binding, and leaves each name bound to the value of its last occurrence |
| Program.NewUnnamedQr | qsyasm/program.py:67 | `QuantumRegister(size)` gives a fresh register of that size with no name, on the dense backend in its initial state |
| Program.QsyASMProgram.constructor | qsyasm/program.py:26-33 | both register tables start empty |
| Program.QsyASMProgram.EvalQr | qsyasm/program.py:63-67 | each name is bound, in order, to its own fresh dense register of the given size, valid and in the initial state, so BindAllFacts applies; `crs` is untouched |
| Program.QsyASMProgram.EvalCr | qsyasm/program.py:69-73 | each name is bound, in order, to its own fresh all-zero classical register of the given size; `qrs` is untouched |

## Divergences from the published algorithm

The stabilizer backend is modelled as the code does it. These lemmas show
where that differs from the algorithm of Aaronson and Gottesman ("Improved
simulation of stabilizer circuits", section III).

- **CNOT phase** (chp.py:140-141). The code ANDs the whole phase with
  x_t ^ z_c ^ 1. The published rule XORs in x_c z_t (x_t ^ z_c ^ 1).
  - `Divergences.CnotPhaseAgreement`: the two agree exactly when the old
    phase is 0 or that factor is 1.
  - `Divergences.CnotDropsSign`: the code turns -X_1 into +X_1.
  - `Divergences.PaperCnotInvolution`: the published rule is its own
    inverse.
  - `Divergences.CnotSignChangesOutcome`: H(1), Z(1), CNOT(0, 1), H(1) on
    |00> is X on qubit 1, yet measuring qubit 1 gives 0, where the code's
    own `_x(1)` gives 1.
- **Phase of `_rowsum`** (chp.py:188-191). The total is compared with 0 and
  2 without reduction mod 4, and any other total keeps the old phase.
  - `Divergences.CodePhaseIsNotPeriodic` and
    `Divergences.PaperPhaseIsPeriodic` contrast this with the mod-4 rule.
  - `Divergences.RowsumSignChangesOutcome`: after CNOT(0, 1), H(0), Z(0) on
    |00>, measuring the untouched qubit 1 gives 1. It gives 0 without the
    CNOT.
- **Missing checks.**
  - `Chp.ControlEqualsTargetAccepted` and
    `Chp.ControlEqualsTargetClearsColumn`: a CNOT or CZ whose control is its
    target is accepted, and it erases that qubit's column.
  - `Chp.NegativeTargetAliases`: `measure` has no range check, so a negative
    target silently measures another qubit.

## Left out

- Floating-point numerics of the dense backend are left out. This covers
  the Kronecker products and the NaN resolution of controls, `np.dot`, the
  probabilities, normalisation (`_normalize`), `yield_state` and
  `to_dirac`. Amplitudes are opaque values compared only with zero. The
  product of the operator list with the state is a supplied
  length-preserving `Evolution`.
- Statevector.StatevectorBackend.Measure: the model does not renormalise
  after the collapse.
- Randomness becomes parameters: the bit of `np.random.randint(2)` in
  `CHPBackend.measure`, one bit per qubit for `measure_all`, and the index
  drawn by `np.random.choice` in the dense backend. The model does not
  constrain that index by the probabilities, only by the vector's length.
- Stabilizer.PhaseExponent: numpy's `int8` arithmetic is modelled with
  unbounded integers. The sum cannot exceed ±(n+4), so this matters only
  for registers of more than about 120 qubits.
- Statevector.CheckMaskTarget: the different Python exceptions from the
  mask arithmetic on a bad target are merged into one `MaskError`. These
  are a division by zero (target >= size), a float size (target <= -2),
  masks of the wrong length for the product at line 56 (target -1 with
  size >= 1), and an empty probability vector (size 0).
- Environment.Env.Qr: Python's `IndexError` for an unbound name
  (qsyasm/env.py:12) is modelled as its own error kind, the
  undefined-register error, carrying the name.
- Environment.Env.Cr: likewise for qsyasm/env.py:18.
- Only the range guard's exception text is modelled (Backend.RangeMessage).
  The other exceptions are values carrying their data, without message
  text.
- Registers.NewRegister: `Register.__init__` takes only a size, yet
  `QuantumRegister` and `Env.create_cr` pass a name, and `__repr__` reads a
  name that is never stored. The model gives registers an explicit name
  field with the evidently intended meaning.
- Program.NewUnnamedQr: `_eval_qr` and `_eval_cr` pass no name, so the
  model names such registers "None", Python's rendering of the default.
- Gate descriptors carry a matrix tag instead of complex matrices. Equality
  of descriptors is structural, as namedtuple equality is when the names
  differ. The gate constants of pauli.py, clifford.py and non_clifford.py
  are not part of this model; their matrices are tags.
- qsy/qubit_state.py is not part of this model. Its masks are those of the
  dense backend.
- The lexer, the parser and its tables, and the instruction module are not
  part of this model.
- The rest of program.py is not part of this model: file reading, `run`,
  `eval`, the empty `_eval_gate` and `_eval_measure`. The constructor takes
  the file's text as a parameter.
- Console output (`print_info`, log.py) and command-line handling are not
  part of this model.
- Negative register sizes are excluded by using `nat` sizes.
