/** Gate descriptors (qsy/gates/gate.py): an immutable four-field record.
    The unitary matrices are kept abstract: a `Matrix` is only a tag, since
    nothing in the modelled core computes with matrix entries. */
module Gates {

  /** Stand-in for a complex matrix; equal tags mean the same matrix. */
  datatype Matrix = Matrix(tag: string)

  /** The `Gate` named tuple: name, matrix, adjoint matrix, arity. */
  datatype Gate = Gate(name: string, matrix: Matrix, adjointMatrix: Matrix, arity: int)

  /** Controlled-U: a new descriptor that keeps U's matrices; the control is
      applied structurally by the backends, so only name and arity change. */
  function C(g: Gate): (c: Gate)
    ensures c.arity == 2
    ensures c.matrix == g.matrix && c.adjointMatrix == g.adjointMatrix
    ensures |c.name| == |g.name| + 1 && c.name[0] == 'C' && c.name[1..] == g.name
  {
    Gate("C" + g.name, g.matrix, g.adjointMatrix, 2)
  }

  /** Controlled-controlled-U. */
  function CC(g: Gate): (c: Gate)
    ensures c.arity == 3
    ensures c.matrix == g.matrix && c.adjointMatrix == g.adjointMatrix
    ensures |c.name| == |g.name| + 2 && c.name[..2] == "CC" && c.name[2..] == g.name
  {
    Gate("CC" + g.name, g.matrix, g.adjointMatrix, 3)
  }

  /** `C` always yields arity 2, so nesting it does not add a control:
      `C(C(g))` carries the same name and matrices as `CC(g)` yet is a
      different descriptor, because its arity stays 2. */
  lemma NestedControlIsNotDoubleControl(g: Gate)
    ensures C(C(g)).arity == 2
    ensures C(C(g)).name == CC(g).name
    ensures C(C(g)).matrix == CC(g).matrix && C(C(g)).adjointMatrix == CC(g).adjointMatrix
    ensures C(C(g)) != CC(g)
  {
    assert C(C(g)).name == "C" + ("C" + g.name) == CC(g).name;
  }

  // Built-in descriptors used by the backends (qsy/gates/pauli.py, clifford.py,
  // non_clifford.py). Their matrices are tags here.
  const I := Gate("I", Matrix("I"), Matrix("I"), 1)
  const X := Gate("X", Matrix("X"), Matrix("X"), 1)
  const Y := Gate("Y", Matrix("Y"), Matrix("Y"), 1)
  const Z := Gate("Z", Matrix("Z"), Matrix("Z"), 1)
  const H := Gate("H", Matrix("H"), Matrix("H"), 1)
  const S := Gate("S", Matrix("S"), Matrix("Sd"), 1)
  const Sdag := Gate("Sd", Matrix("Sd"), Matrix("S"), 1)
  const T := Gate("T", Matrix("T"), Matrix("Tdag"), 1)
  const Tdag := Gate("Tdag", Matrix("Tdag"), Matrix("T"), 1)
  const CX := C(X)
  const CZ := C(Z)
  const CCX := CC(X)
}
