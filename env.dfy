/** The interpreter's symbol table (qsyasm/env.py): register names bound
    to quantum and classical registers. */
module Environment {
  import opened Errors
  import QuantumRegisters
  import ClassicalRegisters

  class Env {
    var qrs: map<string, QuantumRegisters.QuantumRegister>
    var crs: map<string, ClassicalRegisters.ClassicalRegister>

    constructor ()
      ensures qrs == map[] && crs == map[]
    {
      qrs := map[];
      crs := map[];
    }

    /** `qr(name)`: the bound register, or, for an unbound name, the
        undefined-register error naming it (an `IndexError` in Python). */
    function Qr(name: string): (res: Result<QuantumRegisters.QuantumRegister>)
      reads this
      ensures res.Ok? <==> name in qrs
      ensures res.Ok? ==> res.value == qrs[name]
      ensures res.Err? ==> res.error == UndefinedRegister(name)
    {
      if name !in qrs then Err(UndefinedRegister(name)) else Ok(qrs[name])
    }

    /** `cr(name)`: the same over the classical registers. */
    function Cr(name: string): (res: Result<ClassicalRegisters.ClassicalRegister>)
      reads this
      ensures res.Ok? <==> name in crs
      ensures res.Ok? ==> res.value == crs[name]
      ensures res.Err? ==> res.error == UndefinedRegister(name)
    {
      if name !in crs then Err(UndefinedRegister(name)) else Ok(crs[name])
    }

    /** `create_qr`: binds the name to a new register of that size, name and
        backend, replacing an earlier binding; nothing else changes, and
        `qr(name)` then finds it. */
    method CreateQr(name: string, size: nat, kind: QuantumRegisters.BackendKind)
      modifies this
      ensures name in qrs && fresh(qrs[name]) && qrs[name].Valid()
      ensures qrs[name].size == size && qrs[name].name == name
      ensures (kind == QuantumRegisters.StabilizerBackend) == qrs[name].backend.ChpRef?
      ensures qrs == old(qrs)[name := qrs[name]] && crs == old(crs)
      ensures Qr(name) == Ok(qrs[name])
    {
      var reg := new QuantumRegisters.QuantumRegister(size, name, kind);
      qrs := qrs[name := reg];
    }

    /** `create_cr`: the same for classical registers, leaving `qrs` alone. */
    method CreateCr(name: string, size: nat)
      modifies this
      ensures name in crs && fresh(crs[name])
      ensures crs[name].size == size && crs[name].name == name && crs[name].state == seq(size, _ => 0)
      ensures crs == old(crs)[name := crs[name]] && qrs == old(qrs)
      ensures Cr(name) == Ok(crs[name])
    {
      var reg := new ClassicalRegisters.ClassicalRegister(size, name);
      crs := crs[name := reg];
    }
  }
}
