/** The stabilizer-tableau backend of qsy/backends/chp.py (the
    Aaronson-Gottesman CHP algorithm), as a class that updates three arrays
    in place. Every operation is proved to leave the tableau equal to the
    value-level update of module Stabilizer applied to the old tableau. */
module Chp {
  import opened Errors
  import opened Bits
  import opened Stabilizer
  import Gates
  import Backend

  /** `SUPPORTED_GATES`, in the source's order. */
  const Supported: seq<Gates.Gate> := [Gates.CX, Gates.H, Gates.S, Gates.X, Gates.Z, Gates.CZ]

  /** The six supported gates, in that order; only CX and CZ take two qubits. */
  lemma SupportedGateFacts()
    ensures |Supported| == 6
    ensures Supported[0].name == "CX" && Supported[1].name == "H" && Supported[2].name == "S"
    ensures Supported[3].name == "X" && Supported[4].name == "Z" && Supported[5].name == "CZ"
    ensures forall g :: g in Supported ==> g.arity == 1 || g.arity == 2
    ensures forall g :: g in Supported && g.arity == 2 ==> g == Gates.CX || g == Gates.CZ
  {
  }

  /** The descriptor each update is performed for: always a supported one. */
  function GateOf(u: Update): (g: Gates.Gate)
    ensures g in Supported
    ensures g.arity == 2 <==> u.Cnot? || u.ControlledZ?
  {
    match u
    case Hadamard(_) => Gates.H
    case Phase(_) => Gates.S
    case PhaseDagger(_) => Gates.S
    case PauliX(_) => Gates.X
    case PauliZ(_) => Gates.Z
    case Cnot(_, _) => Gates.CX
    case ControlledZ(_, _) => Gates.CZ
  }

  /** The argument handling of `apply_gate` (chp.py:46-60): the support test,
      the unpacking of the qubit parameters, the range checks of control and
      target, and the choice of update. Nothing here touches the tableau. */
  function DecodeGate(gate: Gates.Gate, params: seq<int>, adjoint: bool, name: string, size: nat): (res: Result<Update>)
    ensures gate !in Supported ==> res == Err(UnsupportedGate(gate.name))
    ensures res.Ok? <==>
      gate in Supported &&
      if gate.arity == 1 then |params| >= 1 && 0 <= params[0] < size
      else |params| == 2 && 0 <= params[0] < size && 0 <= params[1] < size
    ensures res.Ok? ==> UpdateWithin(res.value, size) && GateOf(res.value) == gate
    ensures res.Ok? ==> (res.value.PhaseDagger? <==> gate == Gates.S && adjoint)
    ensures res.Ok? && gate.arity == 1 ==> res.value.target == params[0]
    ensures res.Ok? && gate.arity != 1 ==> res.value.control == params[0] && res.value.target == params[1]
  {
    if gate !in Supported then Err(UnsupportedGate(gate.name))
    else if gate.arity == 1 then
      if |params| == 0 then Err(IndexError)
      else
        var target := params[0];
        match Backend.CheckInRange(name, size, target)
        case Err(e) => Err(e)
        case Ok(_) =>
          if gate == Gates.H then Ok(Hadamard(target))
          else if gate == Gates.S then (if adjoint then Ok(PhaseDagger(target)) else Ok(Phase(target)))
          else if gate == Gates.X then Ok(PauliX(target))
          else Ok(PauliZ(target))
    else if |params| != 2 then Err(UnpackError)
    else
      var control, target := params[0], params[1];
      match Backend.CheckInRange(name, size, control)
      case Err(e) => Err(e)
      case Ok(_) =>
        match Backend.CheckInRange(name, size, target)
        case Err(e) => Err(e)
        case Ok(_) =>
          if gate == Gates.CX then Ok(Cnot(control, target)) else Ok(ControlledZ(control, target))
  }

  /** The column `measure` reads: Python subscripting lets a negative target
      count from the end; with no qubits the target is never read. */
  function MeasureColumn(n: nat, target: int): (res: Result<nat>)
    ensures res.Err? <==> n > 0 && !(-(n as int) <= target < n)
    ensures res.Err? ==> res.error == IndexError
    ensures res.Ok? && n > 0 ==> res.value < n && (res.value == target || res.value == target + n)
  {
    if n == 0 then Ok(0)
    else match PyIndex(target, n)
      case None => Err(IndexError)
      case Some(t) => Ok(t)
  }

  /** `apply_gate` on a tableau value: the failure, or success and the
      updated tableau; a failure leaves the tableau as it was. */
  function ApplyGateResult(T: Tableau, n: nat, name: string, gate: Gates.Gate, params: seq<int>, adjoint: bool): (res: (Result<()>, Tableau))
    requires Shaped(T, n)
    ensures Shaped(res.1, n)
    ensures res.0.Ok? <==> DecodeGate(gate, params, adjoint, name, n).Ok?
    ensures res.0.Err? ==> res.1 == T && res.0 == Err(DecodeGate(gate, params, adjoint, name, n).error)
  {
    match DecodeGate(gate, params, adjoint, name, n)
    case Err(e) => (Err(e), T)
    case Ok(u) => (Ok(()), ApplyUpdate(T, n, u))
  }

  /** `measure` on a tableau value, with the random bit supplied: a bad
      subscript fails with the tableau unchanged. */
  function MeasureResult(T: Tableau, n: nat, target: int, bit: Bit): (res: (Result<Bit>, Tableau))
    requires Shaped(T, n)
    ensures Shaped(res.1, n)
    ensures res.0.Err? <==> n > 0 && !(-(n as int) <= target < n)
    ensures res.0.Err? ==> res.0.error == IndexError && res.1 == T
    ensures res.0.Ok? ==> MeasureColumn(n, target).Ok?
    ensures res.0.Ok? ==> (res.0.value, res.1) == MeasureSpec(T, n, MeasureColumn(n, target).value, bit)
  {
    match MeasureColumn(n, target)
    case Err(e) => (Err(e), T)
    case Ok(t) =>
      var m := MeasureSpec(T, n, t, bit);
      (Ok(m.0), m.1)
  }

  class CHPBackend {
    const name: string
    const size: nat
    /** x and z bits of the 2n+1 rows; row 2n is scratch space. */
    const x: array2<Bit>
    const z: array2<Bit>
    /** Phase bit of each row. */
    const r: array<Bit>

    ghost predicate Valid()
      reads this
    {
      x.Length0 == 2 * size + 1 && x.Length1 == size &&
      z.Length0 == 2 * size + 1 && z.Length1 == size &&
      r.Length == 2 * size + 1 && x != z
    }

    ghost function RowAt(k: nat): Row
      reads this, x, z, r
      requires Valid() && k < 2 * size + 1
    {
      Row(seq(size, j requires 0 <= j < size reads x => x[k, j]),
          seq(size, j requires 0 <= j < size reads z => z[k, j]),
          r[k])
    }

    /** The tableau the three arrays hold. */
    ghost function Rows(): (T: Tableau)
      reads this, x, z, r
      requires Valid()
      ensures Shaped(T, size)
    {
      seq(2 * size + 1, k requires 0 <= k < 2 * size + 1 reads this, x, z, r => RowAt(k))
    }

    constructor (size: nat, name: string)
      ensures Valid() && fresh(x) && fresh(z) && fresh(r)
      ensures this.size == size && this.name == name
      ensures Rows() == Initial(size)
    {
      this.name := name;
      this.size := size;
      x := new Bit[2 * size + 1, size]((i, j) => if i < size && i == j then 1 else 0);
      z := new Bit[2 * size + 1, size]((i, j) => if size <= i < 2 * size && j + size == i then 1 else 0);
      r := new Bit[2 * size + 1](_ => 0);
      new;
      forall k | 0 <= k < 2 * size + 1 ensures Rows()[k] == Initial(size)[k] {
        assert RowAt(k).xs == Initial(size)[k].xs;
        assert RowAt(k).zs == Initial(size)[k].zs;
      }
    }

    /** `_h(t)`: for rows 0..2n-1, r ^= x&z at t, then x and z swap at t. */
    method H(t: nat)
      requires Valid() && t < size
      modifies x, z, r
      ensures Rows() == ApplyH(old(Rows()), size, t)
    {
      ghost var T := Rows();
      var i := 0;
      while i < 2 * size
        invariant 0 <= i <= 2 * size
        invariant forall k, j :: 0 <= k < 2 * size + 1 && 0 <= j < size ==>
          x[k, j] == (if k < i && j == t then T[k].zs[j] else T[k].xs[j]) &&
          z[k, j] == (if k < i && j == t then T[k].xs[j] else T[k].zs[j])
        invariant forall k :: 0 <= k < 2 * size + 1 ==>
          r[k] == (if k < i then HRow(T[k], t).r else T[k].r)
      {
        r[i] := Xor(r[i], And(x[i, t], z[i, t]));
        x[i, t], z[i, t] := z[i, t], x[i, t];
        i := i + 1;
      }
      forall k | 0 <= k < 2 * size + 1 ensures Rows()[k] == ApplyH(T, size, t)[k] {
        assert RowAt(k).xs == ApplyH(T, size, t)[k].xs;
        assert RowAt(k).zs == ApplyH(T, size, t)[k].zs;
      }
    }

    /** `_s(t)`: for rows 0..2n-1, r ^= x&z at t, then z ^= x at t. */
    method S(t: nat)
      requires Valid() && t < size
      modifies x, z, r
      ensures Rows() == ApplyS(old(Rows()), size, t)
    {
      ghost var T := Rows();
      var i := 0;
      while i < 2 * size
        invariant 0 <= i <= 2 * size
        invariant forall k, j :: 0 <= k < 2 * size + 1 && 0 <= j < size ==>
          x[k, j] == T[k].xs[j] &&
          z[k, j] == (if k < i && j == t then Xor(T[k].zs[j], T[k].xs[j]) else T[k].zs[j])
        invariant forall k :: 0 <= k < 2 * size + 1 ==>
          r[k] == (if k < i then SRow(T[k], t).r else T[k].r)
      {
        r[i] := Xor(r[i], And(x[i, t], z[i, t]));
        z[i, t] := Xor(z[i, t], x[i, t]);
        i := i + 1;
      }
      forall k | 0 <= k < 2 * size + 1 ensures Rows()[k] == ApplyS(T, size, t)[k] {
        assert RowAt(k).xs == ApplyS(T, size, t)[k].xs;
        assert RowAt(k).zs == ApplyS(T, size, t)[k].zs;
      }
    }

    /** `_cnot(c, t)`: for rows 0..2n-1, with the values before the row is
        updated: r := (r ^ x_c&z_t) & (x_t ^ z_c ^ 1), x_t ^= x_c, z_c ^= z_t.
        Control and target may coincide. */
    method Cnot(c: nat, t: nat)
      requires Valid() && c < size && t < size
      modifies x, z, r
      ensures Rows() == ApplyCnot(old(Rows()), size, c, t)
    {
      ghost var T := Rows();
      CnotBits(c, t);
      forall k | 0 <= k < 2 * size + 1 ensures Rows()[k] == ApplyCnot(T, size, c, t)[k] {
        assert RowAt(k).xs == ApplyCnot(T, size, c, t)[k].xs;
        assert RowAt(k).zs == ApplyCnot(T, size, c, t)[k].zs;
      }
    }

    /** The loop of `_cnot`, bit by bit: in rows 0..2n-1 column t of x and
        column c of z change and the phase is recomputed; nothing else does. */
    method CnotBits(c: nat, t: nat)
      requires Valid() && c < size && t < size
      modifies x, z, r
      ensures forall k, j :: 0 <= k < 2 * size + 1 && 0 <= j < size ==>
        x[k, j] == (if k < 2 * size && j == t then Xor(old(x[k, t]), old(x[k, c])) else old(x[k, j]))
      ensures forall k, j :: 0 <= k < 2 * size + 1 && 0 <= j < size ==>
        z[k, j] == (if k < 2 * size && j == c then Xor(old(z[k, c]), old(z[k, t])) else old(z[k, j]))
      ensures forall k :: 0 <= k < 2 * size + 1 ==>
        r[k] == (if k < 2 * size then CnotPhase(old(r[k]), old(x[k, c]), old(z[k, t]), old(x[k, t]), old(z[k, c])) else old(r[k]))
    {
      var i := 0;
      while i < 2 * size
        invariant 0 <= i <= 2 * size
        invariant forall k, j :: 0 <= k < 2 * size + 1 && 0 <= j < size ==>
          x[k, j] == (if k < i && j == t then Xor(old(x[k, t]), old(x[k, c])) else old(x[k, j]))
        invariant forall k, j :: 0 <= k < 2 * size + 1 && 0 <= j < size ==>
          z[k, j] == (if k < i && j == c then Xor(old(z[k, c]), old(z[k, t])) else old(z[k, j]))
        invariant forall k :: 0 <= k < 2 * size + 1 ==>
          r[k] == (if k < i then CnotPhase(old(r[k]), old(x[k, c]), old(z[k, t]), old(x[k, t]), old(z[k, c])) else old(r[k]))
      {
        r[i] := Xor(r[i], And(x[i, c], z[i, t]));
        r[i] := And(r[i], Xor(Xor(x[i, t], z[i, c]), 1));
        x[i, t] := Xor(x[i, t], x[i, c]);
        z[i, c] := Xor(z[i, c], z[i, t]);
        i := i + 1;
      }
    }

    /** `_z(t)`: `_s` twice. */
    method Z(t: nat)
      requires Valid() && t < size
      modifies x, z, r
      ensures Rows() == ApplyZ(old(Rows()), size, t)
    {
      S(t);
      S(t);
    }

    /** `_x(t)`: `_h; _z; _h`. */
    method X(t: nat)
      requires Valid() && t < size
      modifies x, z, r
      ensures Rows() == ApplyX(old(Rows()), size, t)
    {
      H(t);
      Z(t);
      H(t);
    }

    /** `_cz(c, t)`: `_h(t); _cnot(c, t); _h(t)`. */
    method Cz(c: nat, t: nat)
      requires Valid() && c < size && t < size
      modifies x, z, r
      ensures Rows() == ApplyCz(old(Rows()), size, c, t)
    {
      H(t);
      Cnot(c, t);
      H(t);
    }

    /** Lines 184-186 of `_rowsum`: the sum of `g` over the columns plus
        twice both phases, read without changing anything. */
    method PhaseSum(h: nat, i: nat) returns (total: int)
      requires Valid() && h < 2 * size + 1 && i < 2 * size + 1
      ensures total == PhaseTotal(Rows()[h], Rows()[i], size)
    {
      ghost var T := Rows();
      var sum: int := 0;
      var j := 0;
      while j < size
        invariant 0 <= j <= size
        invariant sum == PhaseExponent(T[h], T[i], j)
      {
        sum := sum + G(x[i, j], z[i, j], x[h, j], z[h, j]);
        j := j + 1;
      }
      total := sum + 2 * (r[h] as int) + 2 * (r[i] as int);
    }

    /** `_rowsum(h, i)`: row h becomes the product of rows h and i, with the
        phase decided by the unreduced total of `PhaseTotal`. */
    method Rowsum(h: nat, i: nat)
      requires Valid() && h < 2 * size + 1 && i < 2 * size + 1
      modifies x, z, r
      ensures Rows() == Stabilizer.Rowsum(old(Rows()), size, h, i)
    {
      ghost var T := Rows();
      var total := PhaseSum(h, i);
      if total == 0 {
        r[h] := 0;
      } else if total == 2 {
        r[h] := 1;
      }
      assert forall k :: 0 <= k < 2 * size + 1 ==>
        r[k] == (if k == h then RowsumRow(T[h], T[i], size).r else T[k].r);
      XorRowInto(h, i);
      forall k | 0 <= k < 2 * size + 1 ensures Rows()[k] == Stabilizer.Rowsum(T, size, h, i)[k] {
        assert RowAt(k).xs == Stabilizer.Rowsum(T, size, h, i)[k].xs;
        assert RowAt(k).zs == Stabilizer.Rowsum(T, size, h, i)[k].zs;
      }
    }

    /** Lines 193-195 of `_rowsum`: the x and z bits of row h are XORed with
        those of row i; no other bit changes. */
    method XorRowInto(h: nat, i: nat)
      requires Valid() && h < 2 * size + 1 && i < 2 * size + 1
      modifies x, z
      ensures forall k, m :: 0 <= k < 2 * size + 1 && 0 <= m < size ==>
        x[k, m] == (if k == h then Xor(old(x[h, m]), old(x[i, m])) else old(x[k, m]))
      ensures forall k, m :: 0 <= k < 2 * size + 1 && 0 <= m < size ==>
        z[k, m] == (if k == h then Xor(old(z[h, m]), old(z[i, m])) else old(z[k, m]))
    {
      var j := 0;
      while j < size
        invariant 0 <= j <= size
        invariant forall k, m :: 0 <= k < 2 * size + 1 && 0 <= m < size ==>
          x[k, m] == (if k == h && m < j then Xor(old(x[h, m]), old(x[i, m])) else old(x[k, m]))
        invariant forall k, m :: 0 <= k < 2 * size + 1 && 0 <= m < size ==>
          z[k, m] == (if k == h && m < j then Xor(old(z[h, m]), old(z[i, m])) else old(z[k, m]))
      {
        x[h, j] := Xor(x[h, j], x[i, j]);
        z[h, j] := Xor(z[h, j], z[i, j]);
        j := j + 1;
      }
    }

    /** `measure(target)`, with the outcome of `np.random.randint(2)` supplied
        as `bit`. There is no range check: a target outside -n..n-1 fails
        with Python's IndexError before anything changes, a negative one
        measures counting from the end. */
    method Measure(target: int, bit: Bit) returns (res: Result<Bit>)
      requires Valid()
      modifies x, z, r
      ensures (res, Rows()) == MeasureResult(old(Rows()), size, target, bit)
    {
      var column := MeasureColumn(size, target);
      if column.Err? {
        return Err(IndexError);
      }
      var t := column.value;
      var p := FindPivot(t);
      if p.Some? {
        CollapseOnPivot(t, p.value, bit);
        res := Ok(bit);
      } else {
        var outcome := ReadDeterministic(t);
        res := Ok(outcome);
      }
    }

    /** Lines 81-85: the first stabilizer row whose x bit at t is set. */
    method FindPivot(t: nat) returns (p: Option<nat>)
      requires Valid() && (t < size || size == 0)
      ensures p == Pivot(Rows(), size, t)
    {
      p := None;
      var i := size;
      while i < 2 * size
        invariant size <= i <= 2 * size
        invariant p.None?
        invariant forall q :: size <= q < i ==> x[q, t] == 0
      {
        if x[i, t] == 1 {
          p := Some(i);
          break;
        }
        i := i + 1;
      }
      ghost var T := Rows();
      assert forall q :: 0 <= q < 2 * size + 1 && t < size ==> T[q].xs[t] == x[q, t];
      PivotIsFirst(T, size, t, p);
    }

    /** Random branch, lines 87-106: clear column t with the pivot row, copy
        the pivot row into its destabilizer, and make it Z_t with sign `bit`. */
    method CollapseOnPivot(t: nat, pivot: nat, bit: Bit)
      requires Valid() && t < size && size <= pivot < 2 * size
      modifies x, z, r
      ensures Rows() == RandomBranch(old(Rows()), size, t, pivot, bit)
    {
      ghost var T := Rows();
      var i := 0;
      while i < 2 * size
        invariant 0 <= i <= 2 * size
        invariant Rows() == ClearColumn(T, size, t, pivot, i)
      {
        assert Rows()[i] == T[i];
        assert x[i, t] == RowAt(i).xs[t];
        if i != pivot && x[i, t] == 1 {
          Rowsum(i, pivot);
        }
        assert Rows() == ClearColumn(T, size, t, pivot, i + 1);
        i := i + 1;
      }
      ReplacePivotRow(t, pivot, bit);
    }

    /** Lines 94-104: row p-n := row p; row p := x 0, z the unit vector at t,
        phase `bit`. */
    method ReplacePivotRow(t: nat, pivot: nat, bit: Bit)
      requires Valid() && t < size && size <= pivot < 2 * size
      modifies x, z, r
      ensures Rows() == old(Rows())[pivot - size := old(Rows())[pivot]][pivot := Row(Zeros(size), Unit(size, t), bit)]
    {
      ghost var C := Rows();
      forall j | 0 <= j < size {
        x[pivot - size, j] := x[pivot, j];
      }
      forall j | 0 <= j < size {
        z[pivot - size, j] := z[pivot, j];
      }
      r[pivot - size] := r[pivot];
      forall j | 0 <= j < size {
        x[pivot, j] := 0;
      }
      forall j | 0 <= j < size {
        z[pivot, j] := 0;
      }
      r[pivot] := bit;
      z[pivot, t] := 1;
      ghost var E := C[pivot - size := C[pivot]][pivot := Row(Zeros(size), Unit(size, t), bit)];
      forall k | 0 <= k < 2 * size + 1 ensures Rows()[k] == E[k] {
        assert RowAt(k).xs == E[k].xs;
        assert RowAt(k).zs == E[k].zs;
      }
    }

    /** Deterministic branch, lines 109-117: reset the scratch row, multiply
        into it the stabilizer partner of every destabilizer with x_t = 1, and
        read its phase. */
    method ReadDeterministic(t: nat) returns (outcome: Bit)
      requires Valid() && (t < size || size == 0)
      modifies x, z, r
      ensures var s := Scratch(old(Rows()), size, t, size);
        outcome == s.r && Rows() == old(Rows())[2 * size := s]
    {
      ghost var T := Rows();
      ClearScratch();
      AccumulateScratch(t, T);
      assert r[2 * size] == Rows()[2 * size].r;
      outcome := r[2 * size];
    }

    /** Lines 113-115: for each destabilizer i with x_t = 1, the scratch
        row is multiplied by stabilizer i+n. Starting from the cleared
        scratch row of T, it ends as the scratch row of T. */
    method AccumulateScratch(t: nat, ghost T: Tableau)
      requires Valid() && (t < size || size == 0) && Shaped(T, size)
      requires Rows() == T[2 * size := Scratch(T, size, t, 0)]
      modifies x, z, r
      ensures Rows() == T[2 * size := Scratch(T, size, t, size)]
    {
      var i := 0;
      while i < size
        invariant 0 <= i <= size
        invariant Rows() == T[2 * size := Scratch(T, size, t, i)]
      {
        assert Rows()[i] == T[i];
        assert x[i, t] == RowAt(i).xs[t];
        ScratchStep(T, size, t, i);
        if x[i, t] == 1 {
          Rowsum(2 * size, i + size);
        }
        i := i + 1;
      }
    }

    /** Lines 109-111: the scratch row becomes the identity with phase 0;
        no other row changes. */
    method ClearScratch()
      requires Valid()
      modifies x, z, r
      ensures Rows() == old(Rows())[2 * size := Row(Zeros(size), Zeros(size), 0)]
    {
      ghost var T := Rows();
      forall j | 0 <= j < size {
        x[2 * size, j] := 0;
      }
      forall j | 0 <= j < size {
        z[2 * size, j] := 0;
      }
      r[2 * size] := 0;
      forall k | 0 <= k < 2 * size + 1
        ensures Rows()[k] == T[2 * size := Row(Zeros(size), Zeros(size), 0)][k]
      {
        assert RowAt(k).xs == T[2 * size := Row(Zeros(size), Zeros(size), 0)][k].xs;
        assert RowAt(k).zs == T[2 * size := Row(Zeros(size), Zeros(size), 0)][k].zs;
      }
    }

    /** `measure_all`: qubits 0..n-1 measured in turn; the draw for qubit q
        is `bits[q]` (only used when that measurement is random). */
    method MeasureAll(bits: seq<Bit>) returns (results: seq<Bit>)
      requires Valid() && |bits| == size
      modifies x, z, r
      ensures (results, Rows()) == MeasureAllSpec(old(Rows()), size, bits, size)
    {
      ghost var T := Rows();
      results := [];
      var i := 0;
      while i < size
        invariant 0 <= i <= size
        invariant (results, Rows()) == MeasureAllSpec(T, size, bits, i)
      {
        var m := Measure(i, bits[i]);
        results := results + [m.value];
        i := i + 1;
      }
    }

    /** `apply_gate`: every argument is checked before the tableau is touched;
        then the update of the chosen gate runs (S with `adjoint` is `_s`
        three times). */
    method ApplyGate(gate: Gates.Gate, params: seq<int>, adjoint: bool) returns (res: Result<()>)
      requires Valid()
      modifies x, z, r
      ensures (res, Rows()) == ApplyGateResult(old(Rows()), size, name, gate, params, adjoint)
    {
      var decoded := DecodeGate(gate, params, adjoint, name, size);
      if decoded.Err? {
        return Err(decoded.error);
      }
      match decoded.value {
        case Hadamard(t) => H(t);
        case Phase(t) => S(t);
        case PhaseDagger(t) =>
          S(t);
          S(t);
          S(t);
        case PauliX(t) => X(t);
        case PauliZ(t) => Z(t);
        case Cnot(c, t) => Cnot(c, t);
        case ControlledZ(c, t) => Cz(c, t);
      }
      res := Ok(());
    }
  }

  /** Nothing rejects a CNOT whose control is its target. */
  lemma ControlEqualsTargetAccepted(q: nat, size: nat, name: string, adjoint: bool)
    requires q < size
    ensures DecodeGate(Gates.CX, [q, q], adjoint, name, size) == Ok(Cnot(q, q))
    ensures DecodeGate(Gates.CZ, [q, q], adjoint, name, size) == Ok(ControlledZ(q, q))
  {
  }

  /** Such a CNOT clears both bits of column q in every generator row:
      rows become the identity on qubit q, which no Clifford gate does. */
  lemma ControlEqualsTargetClearsColumn(T: Tableau, n: nat, q: nat)
    requires Shaped(T, n) && q < n
    ensures forall k :: 0 <= k < 2 * n ==> ApplyCnot(T, n, q, q)[k].xs[q] == 0 && ApplyCnot(T, n, q, q)[k].zs[q] == 0
  {
  }

  /** `measure` has no range check of its own: a negative target within
      -n..-1 measures qubit target + n. */
  lemma NegativeTargetAliases(n: nat, target: int)
    requires -(n as int) <= target < 0
    ensures MeasureColumn(n, target) == Ok(target + n)
    ensures MeasureColumn(n, target) == MeasureColumn(n, target + n)
  {
  }

  /** `adjoint` only matters for S; every other supported gate is decoded
      alike with and without it, and S with it is the only route to S^dagger. */
  lemma AdjointOnlyAffectsS(gate: Gates.Gate, params: seq<int>, name: string, size: nat)
    requires gate != Gates.S
    ensures DecodeGate(gate, params, true, name, size) == DecodeGate(gate, params, false, name, size)
    ensures DecodeGate(gate, params, true, name, size).Ok? ==> !DecodeGate(gate, params, true, name, size).value.PhaseDagger?
  {
  }

  /** The gates the backend refuses include Y, T and the Toffoli gate. */
  lemma UnsupportedGates(params: seq<int>, adjoint: bool, name: string, size: nat)
    ensures DecodeGate(Gates.Y, params, adjoint, name, size) == Err(UnsupportedGate("Y"))
    ensures DecodeGate(Gates.T, params, adjoint, name, size) == Err(UnsupportedGate("T"))
    ensures DecodeGate(Gates.CCX, params, adjoint, name, size) == Err(UnsupportedGate("CCX"))
  {
    assert Gates.CCX.arity == 3;
    assert Gates.CCX.name == "CCX";
  }
}
