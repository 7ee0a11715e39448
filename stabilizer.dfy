/** The value-level algebra of the stabilizer tableau that
    qsy/backends/chp.py updates in place: rows, the per-gate row updates,
    `_rowsum` and the two measurement branches, as functions on values.
    The class in module Chp is proved to perform exactly these updates. */
module Stabilizer {
  import opened Errors
  import opened Bits

  /** One tableau row: the x bits, the z bits and the phase bit r. */
  datatype Row = Row(xs: seq<Bit>, zs: seq<Bit>, r: Bit)

  /** Rows 0..n-1 are destabilizers, n..2n-1 stabilizers, row 2n is scratch. */
  type Tableau = seq<Row>

  predicate RowOver(row: Row, n: nat) { |row.xs| == n && |row.zs| == n }

  predicate Shaped(T: Tableau, n: nat)
  {
    |T| == 2 * n + 1 && forall k :: 0 <= k < |T| ==> RowOver(T[k], n)
  }

  function Zeros(n: nat): (s: seq<Bit>)
    ensures |s| == n && forall j :: 0 <= j < n ==> s[j] == 0
  {
    seq(n, _ => 0)
  }

  function Unit(n: nat, t: nat): (s: seq<Bit>)
    ensures |s| == n && forall j :: 0 <= j < n ==> s[j] == (if j == t then 1 else 0)
  {
    seq(n, j => if j == t then 1 else 0)
  }

  /** `CHPBackend.__init__`: x = [I; 0; 0], z = [0; I; 0], r = 0. */
  function Initial(n: nat): (T: Tableau)
    ensures Shaped(T, n)
    ensures forall k :: 0 <= k < n ==> T[k] == Row(Unit(n, k), Zeros(n), 0)
    ensures forall k :: n <= k < 2 * n ==> T[k] == Row(Zeros(n), Unit(n, k - n), 0)
    ensures T[2 * n] == Row(Zeros(n), Zeros(n), 0)
  {
    seq(2 * n + 1, k requires 0 <= k <= 2 * n =>
      Row(if k < n then Unit(n, k) else Zeros(n),
          if n <= k < 2 * n then Unit(n, k - n) else Zeros(n),
          0))
  }

  // ---------------------------------------------------------------- gates

  /** `_h`, on one row: the phase picks up x&z, then x and z swap at t. */
  function HRow(row: Row, t: nat): (h: Row)
    requires t < |row.xs| && t < |row.zs|
    ensures |h.xs| == |row.xs| && |h.zs| == |row.zs|
    ensures h.xs[t] == row.zs[t] && h.zs[t] == row.xs[t]
    ensures forall j :: 0 <= j < |row.xs| && j != t ==> h.xs[j] == row.xs[j]
    ensures forall j :: 0 <= j < |row.zs| && j != t ==> h.zs[j] == row.zs[j]
    ensures h.r != row.r <==> row.xs[t] == 1 && row.zs[t] == 1
  {
    Row(row.xs[t := row.zs[t]], row.zs[t := row.xs[t]], Xor(row.r, And(row.xs[t], row.zs[t])))
  }

  /** `_s`, on one row: the phase picks up x&z, then z ^= x at t. */
  function SRow(row: Row, t: nat): (s: Row)
    requires t < |row.xs| && t < |row.zs|
    ensures s.xs == row.xs && |s.zs| == |row.zs|
    ensures s.zs[t] == Xor(row.zs[t], row.xs[t])
    ensures forall j :: 0 <= j < |row.zs| && j != t ==> s.zs[j] == row.zs[j]
    ensures s.r != row.r <==> row.xs[t] == 1 && row.zs[t] == 1
  {
    Row(row.xs, row.zs[t := Xor(row.zs[t], row.xs[t])], Xor(row.r, And(row.xs[t], row.zs[t])))
  }

  /** `_cnot`, on one row, as written: the phase is ANDed (not XORed) with
      x_t ^ z_c ^ 1; then x_t ^= x_c and z_c ^= z_t. */
  function CnotRow(row: Row, c: nat, t: nat): (cr: Row)
    requires c < |row.xs| && t < |row.xs| && c < |row.zs| && t < |row.zs|
    ensures |cr.xs| == |row.xs| && |cr.zs| == |row.zs|
    ensures cr.xs[t] == Xor(row.xs[t], row.xs[c])
    ensures forall j :: 0 <= j < |row.xs| && j != t ==> cr.xs[j] == row.xs[j]
    ensures cr.zs[c] == Xor(row.zs[c], row.zs[t])
    ensures forall j :: 0 <= j < |row.zs| && j != c ==> cr.zs[j] == row.zs[j]
    ensures cr.r == 1 <==>
      Xor(row.r, And(row.xs[c], row.zs[t])) == 1 && Xor(row.xs[t], row.zs[c]) == 0
  {
    Row(row.xs[t := Xor(row.xs[t], row.xs[c])],
        row.zs[c := Xor(row.zs[c], row.zs[t])],
        CnotPhase(row.r, row.xs[c], row.zs[t], row.xs[t], row.zs[c]))
  }

  /** The phase `_cnot` computes from the old bits of a row, ANDing as the
      code does. */
  function CnotPhase(r: Bit, xc: Bit, zt: Bit, xt: Bit, zc: Bit): Bit
  {
    And(Xor(r, And(xc, zt)), Xor(Xor(xt, zc), 1))
  }

  /** The gate loops run over rows 0..2n-1; the scratch row is left alone. */
  function ApplyH(T: Tableau, n: nat, t: nat): (T': Tableau)
    requires Shaped(T, n) && t < n
    ensures Shaped(T', n)
    ensures forall k :: 0 <= k < 2 * n ==> T'[k] == HRow(T[k], t)
    ensures T'[2 * n] == T[2 * n]
  {
    seq(|T|, k requires 0 <= k < |T| => if k < 2 * n then HRow(T[k], t) else T[k])
  }

  function ApplyS(T: Tableau, n: nat, t: nat): (T': Tableau)
    requires Shaped(T, n) && t < n
    ensures Shaped(T', n)
    ensures forall k :: 0 <= k < 2 * n ==> T'[k] == SRow(T[k], t)
    ensures T'[2 * n] == T[2 * n]
  {
    seq(|T|, k requires 0 <= k < |T| => if k < 2 * n then SRow(T[k], t) else T[k])
  }

  function ApplyCnot(T: Tableau, n: nat, c: nat, t: nat): (T': Tableau)
    requires Shaped(T, n) && c < n && t < n
    ensures Shaped(T', n)
    ensures forall k :: 0 <= k < 2 * n ==> T'[k] == CnotRow(T[k], c, t)
    ensures T'[2 * n] == T[2 * n]
  {
    seq(|T|, k requires 0 <= k < |T| => if k < 2 * n then CnotRow(T[k], c, t) else T[k])
  }

  /** `_z` is `_s` twice. */
  function ApplyZ(T: Tableau, n: nat, t: nat): (T': Tableau)
    requires Shaped(T, n) && t < n
    ensures Shaped(T', n)
  {
    ApplyS(ApplyS(T, n, t), n, t)
  }

  /** `apply_gate` with S and `adjoint`: `_s` three times. */
  function ApplySdag(T: Tableau, n: nat, t: nat): (T': Tableau)
    requires Shaped(T, n) && t < n
    ensures Shaped(T', n)
  {
    ApplyS(ApplyS(ApplyS(T, n, t), n, t), n, t)
  }

  /** `_x` is `_h; _z; _h`. */
  function ApplyX(T: Tableau, n: nat, t: nat): (T': Tableau)
    requires Shaped(T, n) && t < n
    ensures Shaped(T', n)
  {
    ApplyH(ApplyZ(ApplyH(T, n, t), n, t), n, t)
  }

  /** `_cz` is `_h(t); _cnot(c, t); _h(t)`. */
  function ApplyCz(T: Tableau, n: nat, c: nat, t: nat): (T': Tableau)
    requires Shaped(T, n) && c < n && t < n
    ensures Shaped(T', n)
  {
    ApplyH(ApplyCnot(ApplyH(T, n, t), n, c, t), n, t)
  }

  /** A Clifford update the stabilizer backend knows how to perform. */
  datatype Update =
    | Hadamard(target: nat)
    | Phase(target: nat)
    | PhaseDagger(target: nat)
    | PauliX(target: nat)
    | PauliZ(target: nat)
    | Cnot(control: nat, target: nat)
    | ControlledZ(control: nat, target: nat)

  predicate UpdateWithin(u: Update, n: nat)
  {
    u.target < n && ((u.Cnot? || u.ControlledZ?) ==> u.control < n)
  }

  function ApplyUpdate(T: Tableau, n: nat, u: Update): (T': Tableau)
    requires Shaped(T, n) && UpdateWithin(u, n)
    ensures Shaped(T', n)
  {
    match u
    case Hadamard(t) => ApplyH(T, n, t)
    case Phase(t) => ApplyS(T, n, t)
    case PhaseDagger(t) => ApplySdag(T, n, t)
    case PauliX(t) => ApplyX(T, n, t)
    case PauliZ(t) => ApplyZ(T, n, t)
    case Cnot(c, t) => ApplyCnot(T, n, c, t)
    case ControlledZ(c, t) => ApplyCz(T, n, c, t)
  }

  // --------------------------------------------------------------- rowsum

  /** The inner `g` of `_rowsum`: the power of i produced when the Pauli
      encoded by (x1, z1) is multiplied by the one encoded by (x2, z2). */
  function G(x1: Bit, z1: Bit, x2: Bit, z2: Bit): (e: int)
    ensures -1 <= e <= 1
    ensures (x1 == 0 && z1 == 0) || (x2 == 0 && z2 == 0) || (x1 == x2 && z1 == z2) ==> e == 0
  {
    if x1 == 0 && z1 == 0 then 0
    else if x1 == 1 && z1 == 1 then z2 - x2
    else if x1 == 1 && z1 == 0 then z2 * (2 * x2 - 1)
    else x2 * (1 - 2 * z2)
  }

  /** Sum of `g` over the first k columns, with row i's Pauli on the left. */
  function PhaseExponent(h: Row, i: Row, k: nat): (e: int)
    requires k <= |h.xs| && k <= |h.zs| && k <= |i.xs| && k <= |i.zs|
    ensures -(k as int) <= e <= k
  {
    if k == 0 then 0
    else PhaseExponent(h, i, k - 1) + G(i.xs[k - 1], i.zs[k - 1], h.xs[k - 1], h.zs[k - 1])
  }

  /** The total `_rowsum` tests: the g sum plus 2*r_h + 2*r_i, not reduced. */
  function PhaseTotal(h: Row, i: Row, n: nat): (total: int)
    requires RowOver(h, n) && RowOver(i, n)
    ensures -(n as int) <= total <= n + 4
    ensures h.r == 0 && i.r == 0 ==> total == PhaseExponent(h, i, n)
  {
    PhaseExponent(h, i, n) + 2 * h.r + 2 * i.r
  }

  /** The phase update of `_rowsum` as written: exactly 0 gives 0, exactly 2
      gives 1, any other total keeps the old phase. */
  function NewPhase(total: int, previous: Bit): (r: Bit)
    ensures total == 0 || total == 2 ==> r == total / 2
    ensures total != 0 && total != 2 ==> r == previous
  {
    if total == 0 then 0 else if total == 2 then 1 else previous
  }

  function XorSeq(a: seq<Bit>, b: seq<Bit>): (c: seq<Bit>)
    requires |a| == |b|
    ensures |c| == |a| && forall j :: 0 <= j < |a| ==> c[j] == Xor(a[j], b[j])
  {
    seq(|a|, j requires 0 <= j < |a| => Xor(a[j], b[j]))
  }

  /** Row h multiplied by row i (`h := h * i`). */
  function RowsumRow(h: Row, i: Row, n: nat): (row: Row)
    requires RowOver(h, n) && RowOver(i, n)
    ensures RowOver(row, n)
  {
    Row(XorSeq(h.xs, i.xs), XorSeq(h.zs, i.zs), NewPhase(PhaseTotal(h, i, n), h.r))
  }

  /** `_rowsum(h, i)` on the whole tableau: only row h changes. */
  function Rowsum(T: Tableau, n: nat, h: nat, i: nat): (T': Tableau)
    requires Shaped(T, n) && h < |T| && i < |T|
    ensures Shaped(T', n)
  {
    T[h := RowsumRow(T[h], T[i], n)]
  }

  // ---------------------------------------------------------- measurement

  /** The first stabilizer row at or after `from` whose x bit at t is set. */
  function PivotFrom(T: Tableau, n: nat, t: nat, from: nat): (p: Option<nat>)
    requires Shaped(T, n) && t < n && n <= from
    ensures p.Some? ==> from <= p.value < 2 * n && T[p.value].xs[t] == 1
    ensures p.Some? ==> forall q :: from <= q < p.value ==> T[q].xs[t] == 0
    ensures p.None? ==> forall q :: from <= q < 2 * n ==> T[q].xs[t] == 0
    decreases 2 * n - from
  {
    if from >= 2 * n then None
    else if T[from].xs[t] == 1 then Some(from)
    else PivotFrom(T, n, t, from + 1)
  }

  /** Lines 82-85 of chp.py: the pivot row p of a measurement of qubit t. */
  function Pivot(T: Tableau, n: nat, t: nat): (p: Option<nat>)
    requires Shaped(T, n) && (t < n || n == 0)
    ensures p.Some? ==> n <= p.value < 2 * n && T[p.value].xs[t] == 1
    ensures p.Some? ==> forall q :: n <= q < p.value ==> T[q].xs[t] == 0
    ensures p.None? ==> forall q :: n <= q < 2 * n ==> T[q].xs[t] == 0
  {
    if n == 0 then None else PivotFrom(T, n, t, n)
  }

  /** The pivot is characterised by being the first stabilizer row with x_t = 1. */
  lemma PivotIsFirst(T: Tableau, n: nat, t: nat, p: Option<nat>)
    requires Shaped(T, n) && (t < n || n == 0)
    requires p.None? ==> forall q :: n <= q < 2 * n ==> T[q].xs[t] == 0
    requires p.Some? ==> n <= p.value < 2 * n && T[p.value].xs[t] == 1 &&
                         forall q :: n <= q < p.value ==> T[q].xs[t] == 0
    ensures Pivot(T, n, t) == p
  {
  }

  /** Lines 89-91, after rows 0..m-1 have been visited: every visited row
      other than p with x_t = 1 has been multiplied by row p. */
  function ClearColumn(T: Tableau, n: nat, t: nat, p: nat, m: nat): (T': Tableau)
    requires Shaped(T, n) && t < n && p < 2 * n && m <= 2 * n
    ensures Shaped(T', n)
  {
    seq(|T|, k requires 0 <= k < |T| =>
      if k < m && k != p && T[k].xs[t] == 1 then RowsumRow(T[k], T[p], n) else T[k])
  }

  /** Random branch (lines 87-106): clear column t, copy row p to row p-n,
      then row p becomes Z_t with the drawn sign. */
  function RandomBranch(T: Tableau, n: nat, t: nat, p: nat, bit: Bit): (T': Tableau)
    requires Shaped(T, n) && t < n && n <= p < 2 * n
    ensures Shaped(T', n)
  {
    var cleared := ClearColumn(T, n, t, p, 2 * n);
    cleared[p - n := cleared[p]][p := Row(Zeros(n), Unit(n, t), bit)]
  }

  /** Deterministic branch (lines 109-115): the scratch row after the
      destabilizers 0..k-1 have been inspected. */
  function Scratch(T: Tableau, n: nat, t: nat, k: nat): (row: Row)
    requires Shaped(T, n) && (t < n || k == 0) && k <= n
    ensures RowOver(row, n)
  {
    if k == 0 then Row(Zeros(n), Zeros(n), 0)
    else
      var s := Scratch(T, n, t, k - 1);
      if T[k - 1].xs[t] == 1 then RowsumRow(s, T[k - 1 + n], n) else s
  }

  /** One step of the deterministic branch: inspecting destabilizer k
      either multiplies the scratch row by stabilizer k+n or leaves it. */
  lemma ScratchStep(T: Tableau, n: nat, t: nat, k: nat)
    requires Shaped(T, n) && t < n && k < n
    ensures T[k].xs[t] == 1 ==>
      Rowsum(T[2 * n := Scratch(T, n, t, k)], n, 2 * n, k + n) == T[2 * n := Scratch(T, n, t, k + 1)]
    ensures T[k].xs[t] != 1 ==> Scratch(T, n, t, k + 1) == Scratch(T, n, t, k)
  {
    var U := T[2 * n := Scratch(T, n, t, k)];
    assert U[k + n] == T[k + n];
  }

  /** `measure(t)` with the random draw supplied: the outcome and the new tableau. */
  function MeasureSpec(T: Tableau, n: nat, t: nat, bit: Bit): (res: (Bit, Tableau))
    requires Shaped(T, n) && (t < n || n == 0)
    ensures Shaped(res.1, n)
  {
    match Pivot(T, n, t)
    case Some(p) => (bit, RandomBranch(T, n, t, p, bit))
    case None =>
      var s := Scratch(T, n, t, n);
      (s.r, T[2 * n := s])
  }

  /** `measure_all`: qubits 0..k-1 measured in order, drawing bits[q] for qubit q. */
  function MeasureAllSpec(T: Tableau, n: nat, bits: seq<Bit>, k: nat): (res: (seq<Bit>, Tableau))
    requires Shaped(T, n) && k <= n && k <= |bits|
    ensures |res.0| == k && Shaped(res.1, n)
  {
    if k == 0 then ([], T)
    else
      var prev := MeasureAllSpec(T, n, bits, k - 1);
      var m := MeasureSpec(prev.1, n, k - 1, bits[k - 1]);
      (prev.0 + [m.0], m.1)
  }
}
