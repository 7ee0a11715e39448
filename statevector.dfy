/** The index logic of the dense backend (qsy/backends/statevector.py):
    the initial basis state, the decoding of gate parameters, the per-qubit
    operator list, the measurement masks and the collapse of the state.
    Amplitudes are kept as values that are only compared with zero; the
    Kronecker and matrix products are a supplied `Evolution`. */
module Statevector {
  import opened Errors
  import opened Bits
  import opened Arith
  import Gates
  import Backend

  /** An amplitude. */
  datatype Complex = Complex(re: real, im: real)

  const Zero := Complex(0.0, 0.0)
  const One := Complex(1.0, 0.0)

  /** The basis state |k> over `len` amplitudes. */
  function OneHot(len: nat, k: nat): (s: seq<Complex>)
    requires k < len
    ensures |s| == len && s[k] == One
    ensures forall i :: 0 <= i < len && i != k ==> s[i] == Zero
  {
    seq(len, i => if i == k then One else Zero)
  }

  /** `__init__`: 2^size amplitudes, the basis state |0...0>. */
  function InitialState(size: nat): (s: seq<Complex>)
    ensures s == OneHot(Pow2(size), 0)
  {
    seq(Pow2(size), i => if i == 0 then One else Zero)
  }

  // ------------------------------------------------------ operator layout

  /** One entry of the per-qubit operator list that the Kronecker product is
      taken over: the identity, the control marker (the matrix with a NaN
      "don't care" corner), or the gate's operation. */
  datatype Factor = Identity | ControlMarker | Operator(matrix: Gates.Matrix)

  /** Lines 86 and 101: the adjoint matrix when `adjoint` is set. */
  function Operation(gate: Gates.Gate, adjoint: bool): (m: Gates.Matrix)
    ensures !adjoint ==> m == gate.matrix
    ensures adjoint ==> m == gate.adjointMatrix
    ensures adjoint && gate == Gates.S ==> m == Gates.Sdag.matrix
  {
    if adjoint then gate.adjointMatrix else gate.matrix
  }

  /** `_apply_single_qubit_gate`, lines 88-89: the identity everywhere but
      the target. */
  function SingleLayout(size: nat, target: nat, op: Gates.Matrix): (l: seq<Factor>)
    requires target < size
    ensures |l| == size && l[target] == Operator(op)
    ensures forall i :: 0 <= i < size && i != target ==> l[i] == Identity
  {
    seq(size, i => if i == target then Operator(op) else Identity)
  }

  /** `_apply_controlled_gate`, lines 106-112: a position listed among the
      controls gets the marker (even if it is also the target), the target
      the operation, every other position the identity. */
  function ControlledLayout(size: nat, controls: seq<int>, target: nat, op: Gates.Matrix): (l: seq<Factor>)
    ensures |l| == size
    ensures forall i :: 0 <= i < size ==>
      (l[i] == ControlMarker <==> i in controls) &&
      (l[i] == Operator(op) <==> i !in controls && i == target)
  {
    seq(size, i => if i in controls then ControlMarker else if i == target then Operator(op) else Identity)
  }

  /** A controlled gate without controls lays out like a single-qubit gate. */
  lemma NoControlsIsSingle(size: nat, target: nat, op: Gates.Matrix)
    requires target < size
    ensures ControlledLayout(size, [], target, op) == SingleLayout(size, target, op)
  {
  }

  /** Lines 96-99 as a value: the target is checked first (by the caller),
      then the controls in order; the first out-of-range one is reported. */
  function ControlsInRange(name: string, size: nat, controls: seq<int>): (res: Result<()>)
    ensures res.Ok? <==> forall k :: 0 <= k < |controls| ==> 0 <= controls[k] < size
    ensures res.Err? ==>
      exists k :: 0 <= k < |controls| && !(0 <= controls[k] < size) &&
        (forall j :: 0 <= j < k ==> 0 <= controls[j] < size) &&
        res.error == RangeError(name, controls[k], size)
  {
    if |controls| == 0 then Ok(())
    else match Backend.CheckInRange(name, size, controls[0])
      case Err(e) => Err(e)
      case Ok(_) =>
        var rest := ControlsInRange(name, size, controls[1..]);
        if rest.Err? then
          ghost var k :| 0 <= k < |controls[1..]| && !(0 <= controls[1..][k] < size) &&
            (forall j :: 0 <= j < k ==> 0 <= controls[1..][j] < size) &&
            rest.error == RangeError(name, controls[1..][k], size);
          assert controls[k + 1] == controls[1..][k];
          rest
        else rest
  }

  /** `apply_gate` (lines 26-32) with the range checks of the two helpers:
      the operator list the state is transformed with, or the failure.
      Arity 1 takes `params[0]` as target; otherwise the last parameter is
      the target and the others are controls. No gate is refused. */
  function DecodeGate(gate: Gates.Gate, params: seq<int>, adjoint: bool, name: string, size: nat): (res: Result<seq<Factor>>)
    ensures |params| == 0 ==> res == Err(if gate.arity == 1 then IndexError else UnpackError)
    ensures gate.arity == 1 && |params| > 0 ==>
      (res.Ok? <==> 0 <= params[0] < size) &&
      (res.Ok? ==> res.value == SingleLayout(size, params[0], Operation(gate, adjoint)))
    ensures gate.arity != 1 && |params| > 0 ==>
      var target := params[|params| - 1];
      var controls := params[..|params| - 1];
      (res.Ok? <==> 0 <= target < size && forall k :: 0 <= k < |controls| ==> 0 <= controls[k] < size) &&
      (res.Ok? ==> res.value == ControlledLayout(size, controls, target, Operation(gate, adjoint))) &&
      (!(0 <= target < size) ==> res == Err(RangeError(name, target, size)))
    ensures res.Ok? ==> |res.value| == size
  {
    if gate.arity == 1 then
      if |params| == 0 then Err(IndexError)
      else
        var target := params[0];
        match Backend.CheckInRange(name, size, target)
        case Err(e) => Err(e)
        case Ok(_) => Ok(SingleLayout(size, target, Operation(gate, adjoint)))
    else
      if |params| == 0 then Err(UnpackError)
      else
        var target := params[|params| - 1];
        var controls := params[..|params| - 1];
        match Backend.CheckInRange(name, size, target)
        case Err(e) => Err(e)
        case Ok(_) =>
          match ControlsInRange(name, size, controls)
          case Err(e) => Err(e)
          case Ok(_) => Ok(ControlledLayout(size, controls, target, Operation(gate, adjoint)))
  }

  /** The product of the operator list applied to the amplitudes (`np.kron`
      folded over the list, then `np.dot`): supplied, and only required to
      keep the number of amplitudes. */
  type Evolution = f: (seq<Factor>, seq<Complex>) -> seq<Complex> | forall l, s :: |f(l, s)| == |s|
    witness (l: seq<Factor>, s: seq<Complex>) => s

  // ---------------------------------------------------------------- masks

  /** `np.tile(block, n)`: n copies of the block, one after the other. */
  function Tile(block: seq<Bit>, n: nat): (t: seq<Bit>)
    requires |block| > 0
    ensures |t| == n * |block|
  {
    seq(n * |block|, i requires 0 <= i < n * |block| => block[i % |block|])
  }

  function Ones(n: nat): (s: seq<Bit>)
    ensures |s| == n && forall i :: 0 <= i < n ==> s[i] == 1
  {
    seq(n, _ => 1)
  }

  function Zeros(n: nat): (s: seq<Bit>)
    ensures |s| == n && forall i :: 0 <= i < n ==> s[i] == 0
  {
    seq(n, _ => 0)
  }

  /** Line 45: `state_size // 2**(target+1)`. */
  function StepSize(size: nat, target: nat): int
  {
    Pow2(size) / Pow2(target + 1)
  }

  /** Line 46: `(state.size // step_size) // 2`. */
  function NSteps(size: nat, target: nat): nat
    requires target < size
  {
    MaskArithmetic(size, target);
    (Pow2(size) / StepSize(size, target)) / 2
  }

  /** Lines 49-51: ones over the first half of each block of 2*step. */
  function ZerosMask(size: nat, target: nat): (m: seq<Bit>)
    requires target < size
    ensures |m| == Pow2(size)
  {
    MaskArithmetic(size, target);
    assert NSteps(size, target) * (2 * StepSize(size, target)) == Pow2(size);
    Tile(Ones(StepSize(size, target)) + Zeros(StepSize(size, target)), NSteps(size, target))
  }

  /** Lines 52-54: ones over the second half of each block of 2*step. */
  function OnesMask(size: nat, target: nat): (m: seq<Bit>)
    requires target < size
    ensures |m| == Pow2(size)
  {
    MaskArithmetic(size, target);
    assert NSteps(size, target) * (2 * StepSize(size, target)) == Pow2(size);
    Tile(Zeros(StepSize(size, target)) + Ones(StepSize(size, target)), NSteps(size, target))
  }

  /** The step is 2^(size-target-1), the number of blocks 2^target, and
      the blocks exactly cover the 2^size amplitudes. */
  lemma MaskArithmetic(size: nat, target: nat)
    requires target < size
    ensures StepSize(size, target) == Pow2(size - target - 1)
    ensures Pow2(size) / StepSize(size, target) / 2 == Pow2(target)
    ensures 2 * Pow2(target) * StepSize(size, target) == Pow2(size)
  {
    var step := Pow2(size - target - 1);
    Pow2Add(target + 1, size - target - 1);
    DivModUnique(Pow2(size), Pow2(target + 1), step, 0);
    DivModUnique(Pow2(size), step, Pow2(target + 1), 0);
    DivModUnique(Pow2(target + 1), 2, Pow2(target), 0);
  }

  /** One entry of n tiled blocks of 2s: the second half of each block is
      bit (i / s) % 2, the first half its complement. */
  lemma TiledBlockEntry(s: nat, n: nat, i: nat)
    requires s > 0 && i < |Tile(Zeros(s) + Ones(s), n)|
    ensures Tile(Zeros(s) + Ones(s), n)[i] == (i / s) % 2
    ensures Tile(Ones(s) + Zeros(s), n)[i] == 1 - (i / s) % 2
  {
    var r := i % (2 * s);
    assert Tile(Zeros(s) + Ones(s), n)[i] == (Zeros(s) + Ones(s))[r];
    assert Tile(Ones(s) + Zeros(s), n)[i] == (Ones(s) + Zeros(s))[r];
    HalfOfBlock(i, s);
  }

  /** One entry of the masks: they are complementary, and the ones mask
      at i is bit size-1-target of i. */
  lemma MaskEntry(size: nat, target: nat, i: nat)
    requires target < size && i < Pow2(size)
    ensures ZerosMask(size, target)[i] + OnesMask(size, target)[i] == 1
    ensures OnesMask(size, target)[i] == BitOf(i, size - 1 - target)
  {
    MaskArithmetic(size, target);
    var step := StepSize(size, target);
    var n := NSteps(size, target);
    assert OnesMask(size, target) == Tile(Zeros(step) + Ones(step), n);
    assert ZerosMask(size, target) == Tile(Ones(step) + Zeros(step), n);
    TiledBlockEntry(step, n, i);
  }

  /** Qubit 0 is the most significant bit: the masks have 2^size entries,
      are complementary, and the ones mask at i is bit size-1-target of i. */
  lemma MaskLayout(size: nat, target: nat)
    requires target < size
    ensures |ZerosMask(size, target)| == Pow2(size) && |OnesMask(size, target)| == Pow2(size)
    ensures forall i :: 0 <= i < Pow2(size) ==>
      ZerosMask(size, target)[i] + OnesMask(size, target)[i] == 1 &&
      OnesMask(size, target)[i] == BitOf(i, size - 1 - target)
  {
    forall i | 0 <= i < Pow2(size)
      ensures ZerosMask(size, target)[i] + OnesMask(size, target)[i] == 1
      ensures OnesMask(size, target)[i] == BitOf(i, size - 1 - target)
    {
      MaskEntry(size, target, i);
    }
  }

  // ---------------------------------------------------------- measurement

  /** Lines 45-55 fail for a target outside 0..size-1 (division by zero,
      masks of the wrong length or fractional sizes); one exception here. */
  function CheckMaskTarget(size: nat, target: int): (res: Result<nat>)
    ensures res.Ok? <==> 0 <= target < size
    ensures res.Ok? ==> res.value == target
    ensures res.Err? ==> res.error == MaskError
  {
    if 0 <= target < size then Ok(target) else Err(MaskError)
  }

  /** Line 61: 1 exactly when the sampled amplitude survives the ones mask. */
  function MeasuredValue(state: seq<Complex>, size: nat, target: nat, sampled: nat): (b: Bit)
    requires target < size && |state| == Pow2(size) && sampled < |state|
    ensures b == 1 <==> BitOf(sampled, size - 1 - target) == 1 && state[sampled] != Zero
  {
    MaskLayout(size, target);
    if OnesMask(size, target)[sampled] == 1 && state[sampled] != Zero then 1 else 0
  }

  /** The state after lines 63-68: every amplitude whose target bit differs
      from the outcome is zero, the others are kept. */
  function Collapse(state: seq<Complex>, size: nat, target: nat, outcome: Bit): (s: seq<Complex>)
    requires target < size && |state| == Pow2(size)
    ensures |s| == |state|
    ensures forall i :: 0 <= i < |s| ==>
      s[i] == (if BitOf(i, size - 1 - target) == outcome then state[i] else Zero)
  {
    seq(|state|, i requires 0 <= i < |state| =>
      if BitOf(i, size - 1 - target) == outcome then state[i] else Zero)
  }

  /** The outcome is the target bit of the sampled index whenever that
      amplitude is non-zero (as the sampling guarantees), and the sampled
      amplitude survives the collapse. */
  lemma OutcomeIsSampledBit(state: seq<Complex>, size: nat, target: nat, sampled: nat)
    requires target < size && |state| == Pow2(size) && sampled < |state|
    requires state[sampled] != Zero
    ensures MeasuredValue(state, size, target, sampled) == BitOf(sampled, size - 1 - target)
    ensures Collapse(state, size, target, MeasuredValue(state, size, target, sampled))[sampled] == state[sampled]
  {
    MaskLayout(size, target);
  }

  /** Measuring the same qubit again, at any index the collapsed state can
      sample, repeats the outcome and leaves the state as it is. */
  lemma RepeatedMeasurementAgrees(state: seq<Complex>, size: nat, target: nat, first: nat, second: nat)
    requires target < size && |state| == Pow2(size) && first < |state| && second < |state|
    requires state[first] != Zero
    ensures var b := MeasuredValue(state, size, target, first);
      var s := Collapse(state, size, target, b);
      s[second] != Zero ==>
        MeasuredValue(s, size, target, second) == b && Collapse(s, size, target, b) == s
  {
    var b := MeasuredValue(state, size, target, first);
    var s := Collapse(state, size, target, b);
    OutcomeIsSampledBit(state, size, target, first);
    if s[second] != Zero {
      OutcomeIsSampledBit(s, size, target, second);
    }
  }

  // -------------------------------------------------------- binary output

  /** Python's `format(m, 'b')`: the binary digits of m, most significant
      first, "0" for zero. */
  function BinaryDigits(m: nat): (d: seq<Bit>)
    ensures |d| >= 1
  {
    if m < 2 then [m] else BinaryDigits(m / 2) + [m % 2]
  }

  /** `format(m, '0{w}b')`: the digits padded with zeros on the left to
      width w (a narrower width does not truncate). */
  function FormatBits(m: nat, w: nat): (bits: seq<Bit>)
    ensures FromBits(bits) == m
    ensures |bits| >= w
    ensures w >= 1 && m < Pow2(w) ==> |bits| == w
  {
    var d := BinaryDigits(m);
    FromBitsOfDigits(m);
    if |d| < w then
      FromBitsIgnoresLeadingZeros(w - |d|, d);
      Zeros(w - |d|) + d
    else
      assert w >= 1 && m < Pow2(w) ==> |d| <= w by {
        if w >= 1 && m < Pow2(w) {
          DigitsFit(m, w);
        }
      }
      d
  }

  /** The value of a bit string, most significant bit first. */
  function FromBits(b: seq<Bit>): nat
  {
    if |b| == 0 then 0 else 2 * FromBits(b[..|b| - 1]) + b[|b| - 1]
  }

  lemma {:induction false} FromBitsOfDigits(m: nat)
    ensures FromBits(BinaryDigits(m)) == m
  {
    if m >= 2 {
      var d := BinaryDigits(m);
      assert d[..|d| - 1] == BinaryDigits(m / 2);
      FromBitsOfDigits(m / 2);
    }
  }

  lemma {:induction false} FromBitsIgnoresLeadingZeros(z: nat, b: seq<Bit>)
    ensures FromBits(Zeros(z) + b) == FromBits(b)
    decreases |b|
  {
    if |b| == 0 {
      assert Zeros(z) + b == Zeros(z);
      ZerosAreZero(z);
    } else {
      assert (Zeros(z) + b)[..|Zeros(z) + b| - 1] == Zeros(z) + b[..|b| - 1];
      FromBitsIgnoresLeadingZeros(z, b[..|b| - 1]);
    }
  }

  lemma {:induction false} ZerosAreZero(z: nat)
    ensures FromBits(Zeros(z)) == 0
  {
    if z > 0 {
      assert Zeros(z)[..z - 1] == Zeros(z - 1);
      ZerosAreZero(z - 1);
    }
  }

  lemma {:induction false} DigitsFit(m: nat, w: nat)
    requires w >= 1 && m < Pow2(w)
    ensures |BinaryDigits(m)| <= w
  {
    if m >= 2 {
      DigitsFit(m / 2, w - 1);
    }
  }

  /** Bit k of a string, counted from the right, is bit k of its value. */
  lemma {:induction false} BitOfFromBits(b: seq<Bit>, k: nat)
    requires k < |b|
    ensures BitOf(FromBits(b), |b| - 1 - k) == b[k]
    decreases |b|
  {
    var init := b[..|b| - 1];
    var v, l := FromBits(init), b[|b| - 1];
    assert FromBits(b) == 2 * v + l;
    if k == |b| - 1 {
      DivModUnique(2 * v + l, 2, v, l);
      DivModUnique(2 * v + l, Pow2(0), 2 * v + l, 0);
    } else {
      BitOfFromBits(init, k);
      BitOfShift(v, l, |init| - 1 - k);
    }
  }

  /** `measure_all`'s decoding: the bits read back to the sampled index;
      for 1 <= size there are exactly `size` of them, and bit k is the
      outcome the ones mask of qubit k gives at that index. With no qubits
      Python's formatting still yields the single bit "0". */
  lemma MeasureAllBits(m: nat, size: nat)
    requires m < Pow2(size)
    ensures FromBits(FormatBits(m, size)) == m
    ensures size >= 1 ==> |FormatBits(m, size)| == size
    ensures size == 0 ==> FormatBits(m, size) == [0]
    ensures forall k :: 0 <= k < size ==> FormatBits(m, size)[k] == BitOf(m, size - 1 - k)
  {
    var d := BinaryDigits(m);
    FromBitsOfDigits(m);
    if |d| < size {
      FromBitsIgnoresLeadingZeros(size - |d|, d);
    }
    if size >= 1 {
      DigitsFit(m, size);
      forall k | 0 <= k < size ensures FormatBits(m, size)[k] == BitOf(m, size - 1 - k) {
        BitOfFromBits(FormatBits(m, size), k);
      }
    }
  }

  // --------------------------------------------------------------- class

  /** `apply_gate` on an amplitude vector: the failure with the state kept,
      or success and the evolved state. */
  function ApplyGateResult(state: seq<Complex>, size: nat, name: string, gate: Gates.Gate, params: seq<int>,
                           adjoint: bool, evolve: Evolution): (res: (Result<()>, seq<Complex>))
    ensures |res.1| == |state|
    ensures res.0.Ok? <==> DecodeGate(gate, params, adjoint, name, size).Ok?
    ensures res.0.Err? ==> res.1 == state && res.0 == Err(DecodeGate(gate, params, adjoint, name, size).error)
  {
    match DecodeGate(gate, params, adjoint, name, size)
    case Err(e) => (Err(e), state)
    case Ok(layout) => (Ok(()), evolve(layout, state))
  }

  /** `measure` on an amplitude vector with the sampled index supplied. */
  function MeasureResult(state: seq<Complex>, size: nat, target: int, sampled: nat): (res: (Result<Bit>, seq<Complex>))
    requires |state| == Pow2(size) && sampled < |state|
    ensures |res.1| == |state|
    ensures res.0.Err? <==> !(0 <= target < size)
    ensures res.0.Err? ==> res.0.error == MaskError && res.1 == state
    ensures res.0.Ok? ==> 0 <= target < size
    ensures res.0.Ok? ==> res.0.value == MeasuredValue(state, size, target, sampled)
    ensures res.0.Ok? ==> res.1 == Collapse(state, size, target, res.0.value)
  {
    match CheckMaskTarget(size, target)
    case Err(e) => (Err(e), state)
    case Ok(t) =>
      var b := MeasuredValue(state, size, t, sampled);
      (Ok(b), Collapse(state, size, t, b))
  }

  class StatevectorBackend {
    const name: string
    const size: nat
    /** The 2^size amplitudes; index i is the basis state whose qubit q is
        bit size-1-q of i. */
    var state: seq<Complex>

    ghost predicate Valid()
      reads this
    {
      |state| == Pow2(size)
    }

    constructor (size: nat, name: string)
      ensures Valid() && this.size == size && this.name == name
      ensures state == InitialState(size)
    {
      this.name := name;
      this.size := size;
      state := InitialState(size);
    }

    /** `apply_gate`: the arguments are decoded and range-checked, controls
        one by one, before the state is transformed with the operator list. */
    method ApplyGate(gate: Gates.Gate, params: seq<int>, adjoint: bool, evolve: Evolution) returns (res: Result<()>)
      requires Valid()
      modifies this
      ensures Valid()
      ensures (res, state) == ApplyGateResult(old(state), size, name, gate, params, adjoint, evolve)
    {
      var layout: seq<Factor>;
      if gate.arity == 1 {
        if |params| == 0 {
          return Err(IndexError);
        }
        var target := params[0];
        var check := Backend.CheckInRange(name, size, target);
        if check.Err? {
          return Err(check.error);
        }
        layout := SingleLayout(size, target, Operation(gate, adjoint));
      } else {
        if |params| == 0 {
          return Err(UnpackError);
        }
        var target := params[|params| - 1];
        var controls := params[..|params| - 1];
        var check := Backend.CheckInRange(name, size, target);
        if check.Err? {
          return Err(check.error);
        }
        var i := 0;
        while i < |controls|
          invariant 0 <= i <= |controls|
          invariant ControlsInRange(name, size, controls) == ControlsInRange(name, size, controls[i..])
          invariant forall k :: 0 <= k < i ==> 0 <= controls[k] < size
        {
          var c := Backend.CheckInRange(name, size, controls[i]);
          if c.Err? {
            return Err(c.error);
          }
          assert controls[i..][1..] == controls[i + 1..];
          i := i + 1;
        }
        layout := ControlledLayout(size, controls, target, Operation(gate, adjoint));
      }
      state := evolve(layout, state);
      res := Ok(());
    }

    /** `measure(target)` with the index drawn by `np.random.choice` supplied
        as `sampled`; the final renormalisation is not modelled. */
    method Measure(target: int, sampled: nat) returns (res: Result<Bit>)
      requires Valid() && sampled < |state|
      modifies this
      ensures Valid()
      ensures (res, state) == MeasureResult(old(state), size, target, sampled)
    {
      var t := CheckMaskTarget(size, target);
      if t.Err? {
        return Err(MaskError);
      }
      MaskLayout(size, target);
      var zerosMask := ZerosMask(size, target);
      var onesMask := OnesMask(size, target);
      var measured: Bit := if onesMask[sampled] == 1 && state[sampled] != Zero then 1 else 0;
      var drop := if measured == 1 then zerosMask else onesMask;
      ghost var before := state;
      ZeroWhere(drop);
      assert measured == MeasuredValue(before, size, target, sampled);
      assert state == Collapse(before, size, target, measured);
      res := Ok(measured);
    }

    /** Lines 63-68: every amplitude where `drop` is 1 is set to zero; the
        others are kept. */
    method ZeroWhere(drop: seq<Bit>)
      requires Valid() && |drop| == |state|
      modifies this
      ensures Valid()
      ensures |state| == |old(state)|
      ensures forall k :: 0 <= k < |state| ==> state[k] == (if drop[k] == 1 then Zero else old(state)[k])
    {
      var i := 0;
      while i < |state|
        invariant Valid() && 0 <= i <= |state| == |old(state)|
        invariant forall k :: 0 <= k < i ==> state[k] == (if drop[k] == 1 then Zero else old(state)[k])
        invariant forall k :: i <= k < |state| ==> state[k] == old(state)[k]
      {
        if drop[i] == 1 && state[i] != Zero {
          state := state[i := Zero];
        }
        i := i + 1;
      }
    }

    /** `measure_all` with the index drawn by `np.random.choice` supplied as
        `sampled`: the state becomes that basis state and its binary digits
        are returned. */
    method MeasureAll(sampled: nat) returns (bits: seq<Bit>)
      requires Valid() && sampled < |state|
      modifies this
      ensures Valid()
      ensures state == OneHot(Pow2(size), sampled)
      ensures bits == FormatBits(sampled, size)
    {
      state := seq(|state|, _ => Zero);
      state := state[sampled := One];
      bits := FormatBits(sampled, size);
    }
  }
}
