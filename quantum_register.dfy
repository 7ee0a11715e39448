/** The qubit register (qsy/quantum_register.py): it owns one backend,
    checks the number of qubit parameters against the gate's arity, and
    forwards gates and measurements to the backend unchanged. The two
    backend classes provide the same three operations (`apply_gate`,
    `measure`, `measure_all`) of qsy/backends/backend.py. */
module QuantumRegisters {
  import opened Errors
  import opened Bits
  import opened Arith
  import Gates
  import Registers
  import Stabilizer
  import Chp
  import Statevector

  /** The backend class a register is built with. */
  datatype BackendKind = StabilizerBackend | DenseBackend

  /** The backend object a register owns. */
  datatype BackendRef =
    | ChpRef(chp: Chp.CHPBackend)
    | DenseRef(dense: Statevector.StatevectorBackend)

  /** The exception `apply_gate` raises on a parameter count mismatch, or
      nothing. */
  function CheckArity(gate: Gates.Gate, count: nat): (res: Result<()>)
    ensures res.Err? <==> count != gate.arity
    ensures res.Err? ==> res.error == ArityError(gate.name, gate.arity, count)
  {
    if count != gate.arity then Err(ArityError(gate.name, gate.arity, count)) else Ok(())
  }

  /** The class name `__repr__` prints. */
  const ClassName: string := "QuantumRegister"

  class QuantumRegister {
    const name: string
    const size: nat
    /** Built once by the constructor and never replaced. */
    const backend: BackendRef

    /** The objects the backend updates. */
    ghost function Objects(): set<object>
      reads this
    {
      match backend
      case ChpRef(c) => {c, c.x, c.z, c.r}
      case DenseRef(d) => {d}
    }

    ghost predicate Valid()
      reads this, Objects()
    {
      match backend
      case ChpRef(c) => c.Valid() && c.size == size && c.name == name
      case DenseRef(d) => d.Valid() && d.size == size && d.name == name
    }

    /** `__init__`: the backend is made from this register's size and name. */
    constructor (size: nat, name: string, kind: BackendKind)
      ensures Valid() && this.size == size && this.name == name
      ensures fresh(Objects())
      ensures kind == StabilizerBackend ==> backend.ChpRef? && backend.chp.Rows() == Stabilizer.Initial(size)
      ensures kind == DenseBackend ==> backend.DenseRef? && backend.dense.state == Statevector.InitialState(size)
    {
      this.name := name;
      this.size := size;
      if kind == StabilizerBackend {
        var c := new Chp.CHPBackend(size, name);
        backend := ChpRef(c);
      } else {
        var d := new Statevector.StatevectorBackend(size, name);
        backend := DenseRef(d);
      }
    }

    /** The `Register` view of this object, for `__len__` and `__repr__`
        (the base-class state list of a qubit register stays empty). */
    function AsRegister(): Registers.Register
    {
      Registers.NewRegister(size, name)
    }

    /** `__repr__`: `QuantumRegister<name[size]>`, from which the size
        reads back. */
    function Repr(): (s: string)
      ensures |s| > |ClassName| + 1 + |name| && s[..|ClassName| + 1] == ClassName + "<"
      ensures s[|ClassName| + 1..|ClassName| + 1 + |name|] == name
      ensures Registers.ReprSize(s) == Some(size as int)
    {
      var reg := AsRegister();
      assert reg.name == name && reg.size == size;
      Registers.ReprSizeRoundTrip(ClassName, reg);
      var s := Registers.Repr(ClassName, reg);
      s
    }

    /** `apply_gate`: a parameter count other than the gate's arity fails
        before the backend is reached; otherwise the backend gets the same
        gate, parameters and `adjoint` flag. `evolve` is only used by the
        dense backend. */
    method ApplyGate(gate: Gates.Gate, params: seq<int>, adjoint: bool, evolve: Statevector.Evolution) returns (res: Result<()>)
      requires Valid()
      modifies Objects()
      ensures Valid()
      ensures |params| != gate.arity ==>
        res == Err(ArityError(gate.name, gate.arity, |params|)) &&
        (backend.ChpRef? ==> backend.chp.Rows() == old(backend.chp.Rows())) &&
        (backend.DenseRef? ==> backend.dense.state == old(backend.dense.state))
      ensures |params| == gate.arity && backend.ChpRef? ==>
        (res, backend.chp.Rows()) == Chp.ApplyGateResult(old(backend.chp.Rows()), size, name, gate, params, adjoint)
      ensures |params| == gate.arity && backend.DenseRef? ==>
        (res, backend.dense.state) ==
          Statevector.ApplyGateResult(old(backend.dense.state), size, name, gate, params, adjoint, evolve)
    {
      var arity := CheckArity(gate, |params|);
      if arity.Err? {
        return arity;
      }
      match backend {
        case ChpRef(c) => res := c.ApplyGate(gate, params, adjoint);
        case DenseRef(d) => res := d.ApplyGate(gate, params, adjoint, evolve);
      }
    }

    /** `measure(target)`: the backend's result. The stabilizer backend uses
        the random bit `bit`, the dense one the sampled index `sampled`. */
    method Measure(target: int, bit: Bit, sampled: nat) returns (res: Result<Bit>)
      requires Valid()
      requires backend.DenseRef? ==> sampled < Pow2(size)
      modifies Objects()
      ensures Valid()
      ensures backend.ChpRef? ==>
        (res, backend.chp.Rows()) == Chp.MeasureResult(old(backend.chp.Rows()), size, target, bit)
      ensures backend.DenseRef? ==>
        (res, backend.dense.state) == Statevector.MeasureResult(old(backend.dense.state), size, target, sampled)
    {
      match backend {
        case ChpRef(c) => res := c.Measure(target, bit);
        case DenseRef(d) => res := d.Measure(target, sampled);
      }
    }

    /** `measure_all()`: the backend's result. The stabilizer backend draws
        `bits[q]` for qubit q, the dense one the index `sampled`. */
    method MeasureAll(bits: seq<Bit>, sampled: nat) returns (res: seq<Bit>)
      requires Valid()
      requires backend.ChpRef? ==> |bits| == size
      requires backend.DenseRef? ==> sampled < Pow2(size)
      modifies Objects()
      ensures Valid()
      ensures backend.ChpRef? ==>
        (res, backend.chp.Rows()) == Stabilizer.MeasureAllSpec(old(backend.chp.Rows()), size, bits, size)
      ensures backend.DenseRef? ==>
        res == Statevector.FormatBits(sampled, size) &&
        backend.dense.state == Statevector.OneHot(Pow2(size), sampled)
    {
      match backend {
        case ChpRef(c) => res := c.MeasureAll(bits);
        case DenseRef(d) => res := d.MeasureAll(sampled);
      }
    }
  }
}
