/** Properties of the tableau updates of module Stabilizer: what the
    composite gates amount to, the Pauli-product meaning of `g`, and the
    facts about the two measurement branches that qsy/backends/chp.py
    relies on. */
module StabilizerFacts {
  import opened Errors
  import opened Bits
  import opened Stabilizer

  // ------------------------------------------------------------ Pauli table

  /** Single-qubit Pauli operators, and the encoding (x, z) of each. */
  datatype Pauli = PI | PX | PY | PZ

  function PauliOf(x: Bit, z: Bit): Pauli
  {
    if x == 0 && z == 0 then PI else if x == 1 && z == 0 then PX else if x == 1 then PY else PZ
  }

  /** The power of i in the product p*q: XY = iZ, YZ = iX, ZX = iY, and the
      reversed products carry -i. */
  function ProductPhase(p: Pauli, q: Pauli): int
  {
    match (p, q)
    case (PX, PY) => 1
    case (PY, PZ) => 1
    case (PZ, PX) => 1
    case (PY, PX) => -1
    case (PZ, PY) => -1
    case (PX, PZ) => -1
    case _ => 0
  }

  /** The Pauli part of p*q. */
  function ProductPauli(p: Pauli, q: Pauli): Pauli
  {
    if p == PI then q
    else if q == PI then p
    else if p == q then PI
    else if {p, q} == {PX, PY} then PZ
    else if {p, q} == {PY, PZ} then PX
    else PY
  }

  /** `g` is the phase exponent of the Pauli product, and XOR of the
      encodings is the Pauli part of the product. */
  lemma GIsProductPhase(x1: Bit, z1: Bit, x2: Bit, z2: Bit)
    ensures G(x1, z1, x2, z2) == ProductPhase(PauliOf(x1, z1), PauliOf(x2, z2))
    ensures PauliOf(Xor(x1, x2), Xor(z1, z2)) == ProductPauli(PauliOf(x1, z1), PauliOf(x2, z2))
  {
  }

  /** Each column of the new row h of `_rowsum` encodes the product of the
      two old Paulis in that column. */
  lemma RowsumMultipliesPaulis(h: Row, i: Row, n: nat, j: nat)
    requires RowOver(h, n) && RowOver(i, n) && j < n
    ensures var row := RowsumRow(h, i, n);
      PauliOf(row.xs[j], row.zs[j]) == ProductPauli(PauliOf(h.xs[j], h.zs[j]), PauliOf(i.xs[j], i.zs[j]))
  {
    GIsProductPhase(h.xs[j], h.zs[j], i.xs[j], i.zs[j]);
  }

  /** `_rowsum(h, i)` changes row h only: row i and every other row keep
      their value, and the phase of row h stays a bit. */
  lemma {:induction false} RowsumFrame(T: Tableau, n: nat, h: nat, i: nat)
    requires Shaped(T, n) && h < |T| && i < |T| && h != i
    ensures var T' := Rowsum(T, n, h, i);
      T'[i] == T[i] && (forall k :: 0 <= k < |T| && k != h ==> T'[k] == T[k]) &&
      (forall j :: 0 <= j < n ==> T'[h].xs[j] == Xor(T[h].xs[j], T[i].xs[j]) && T'[h].zs[j] == Xor(T[h].zs[j], T[i].zs[j]))
  {
  }

  // ------------------------------------------------------ composite gates

  /** `_h` undoes itself on every row. */
  lemma HInvolution(row: Row, t: nat)
    requires t < |row.xs| && t < |row.zs|
    ensures HRow(HRow(row, t), t) == row
  {
    assert HRow(HRow(row, t), t).xs == row.xs;
    assert HRow(HRow(row, t), t).zs == row.zs;
  }

  /** `_z` (`_s` twice) flips the sign of every generator row with an x bit
      at t, i.e. the rows holding X or Y there, and changes no bit. */
  lemma {:induction false} ZFlipsSignsOfXAndY(T: Tableau, n: nat, t: nat)
    requires Shaped(T, n) && t < n
    ensures forall k :: 0 <= k < 2 * n ==> ApplyZ(T, n, t)[k] == T[k].(r := Xor(T[k].r, T[k].xs[t]))
    ensures ApplyZ(T, n, t)[2 * n] == T[2 * n]
  {
    forall k | 0 <= k < 2 * n ensures ApplyZ(T, n, t)[k] == T[k].(r := Xor(T[k].r, T[k].xs[t])) {
      var once := ApplyS(T, n, t);
      assert once[k] == SRow(T[k], t);
      assert ApplyS(once, n, t)[k] == SRow(once[k], t);
      assert SRow(SRow(T[k], t), t).zs == T[k].zs;
    }
  }

  /** `_x` (`_h; _z; _h`) flips the sign of every generator row with a z
      bit at t, i.e. the rows holding Z or Y there, and changes no bit. */
  lemma {:induction false} XFlipsSignsOfZAndY(T: Tableau, n: nat, t: nat)
    requires Shaped(T, n) && t < n
    ensures forall k :: 0 <= k < 2 * n ==> ApplyX(T, n, t)[k] == T[k].(r := Xor(T[k].r, T[k].zs[t]))
    ensures ApplyX(T, n, t)[2 * n] == T[2 * n]
  {
    var T1 := ApplyH(T, n, t);
    ZFlipsSignsOfXAndY(T1, n, t);
    var T2 := ApplyZ(T1, n, t);
    forall k | 0 <= k < 2 * n ensures ApplyX(T, n, t)[k] == T[k].(r := Xor(T[k].r, T[k].zs[t])) {
      assert T1[k] == HRow(T[k], t);
      assert T2[k] == T1[k].(r := Xor(T1[k].r, T1[k].xs[t]));
      var row := ApplyH(T2, n, t)[k];
      assert row == HRow(T2[k], t);
      assert row.xs == T[k].xs;
      assert row.zs == T[k].zs;
    }
  }

  /** S with `adjoint` (`_s` three times): z ^= x at t, and the sign flips
      exactly on rows holding X at t (X goes to -Y, Y goes to X). */
  lemma {:induction false} SdagEffect(T: Tableau, n: nat, t: nat)
    requires Shaped(T, n) && t < n
    ensures forall k :: 0 <= k < 2 * n ==>
      ApplySdag(T, n, t)[k] ==
        Row(T[k].xs, T[k].zs[t := Xor(T[k].zs[t], T[k].xs[t])],
            Xor(T[k].r, And(T[k].xs[t], Xor(T[k].zs[t], 1))))
    ensures ApplySdag(T, n, t)[2 * n] == T[2 * n]
  {
    var T1 := ApplyS(T, n, t);
    var T2 := ApplyS(T1, n, t);
    var T3 := ApplyS(T2, n, t);
    forall k | 0 <= k < 2 * n
      ensures T3[k] == Row(T[k].xs, T[k].zs[t := Xor(T[k].zs[t], T[k].xs[t])],
                           Xor(T[k].r, And(T[k].xs[t], Xor(T[k].zs[t], 1))))
    {
      assert T3[k] == SRow(SRow(SRow(T[k], t), t), t);
      assert T3[k].zs == T[k].zs[t := Xor(T[k].zs[t], T[k].xs[t])];
    }
  }

  /** `_cz` (`_h; _cnot; _h`) leaves every x bit alone and, for distinct
      control and target, sets z_c ^= x_t and z_t ^= x_c: the bit action of
      controlled-Z. */
  lemma {:induction false} CzBitAction(T: Tableau, n: nat, c: nat, t: nat)
    requires Shaped(T, n) && c < n && t < n && c != t
    ensures forall k :: 0 <= k < 2 * n ==>
      ApplyCz(T, n, c, t)[k].xs == T[k].xs &&
      ApplyCz(T, n, c, t)[k].zs == T[k].zs[c := Xor(T[k].zs[c], T[k].xs[t])][t := Xor(T[k].zs[t], T[k].xs[c])]
    ensures ApplyCz(T, n, c, t)[2 * n] == T[2 * n]
  {
    var T1 := ApplyH(T, n, t);
    var T2 := ApplyCnot(T1, n, c, t);
    var T3 := ApplyH(T2, n, t);
    forall k | 0 <= k < 2 * n
      ensures T3[k].xs == T[k].xs
      ensures T3[k].zs == T[k].zs[c := Xor(T[k].zs[c], T[k].xs[t])][t := Xor(T[k].zs[t], T[k].xs[c])]
    {
      assert T3[k] == HRow(CnotRow(HRow(T[k], t), c, t), t);
    }
  }

  /** For distinct control and target, the x and z bits of `_cnot` undo
      themselves (the sign need not, see module Divergences). */
  lemma CnotBitsInvolution(row: Row, c: nat, t: nat)
    requires c < |row.xs| && t < |row.xs| && c < |row.zs| && t < |row.zs| && c != t
    ensures CnotRow(CnotRow(row, c, t), c, t).xs == row.xs
    ensures CnotRow(CnotRow(row, c, t), c, t).zs == row.zs
  {
  }

  // ----------------------------------------------------------- measurement

  /** Random branch: the outcome is the drawn bit; afterwards row p is Z_t
      with that sign, row p-n holds the old row p, no other generator row
      has an x bit at t, and the scratch row is untouched. */
  lemma {:induction false} RandomBranchFacts(T: Tableau, n: nat, t: nat, bit: Bit)
    requires Shaped(T, n) && t < n && Pivot(T, n, t).Some?
    ensures var p := Pivot(T, n, t).value;
      var m := MeasureSpec(T, n, t, bit);
      && n <= p < 2 * n && T[p].xs[t] == 1
      && (forall q :: n <= q < p ==> T[q].xs[t] == 0)
      && m.0 == bit
      && m.1[p] == Row(Zeros(n), Unit(n, t), bit)
      && m.1[p - n] == T[p]
      && (forall k :: 0 <= k < 2 * n && k != p && k != p - n ==> m.1[k].xs[t] == 0)
      && m.1[2 * n] == T[2 * n]
  {
    var p := Pivot(T, n, t).value;
    var cleared := ClearColumn(T, n, t, p, 2 * n);
    assert cleared[p] == T[p];
    forall k | 0 <= k < 2 * n && k != p
      ensures cleared[k].xs[t] == 0
    {
      if T[k].xs[t] == 1 {
        assert cleared[k] == RowsumRow(T[k], T[p], n);
      }
    }
  }

  /** Deterministic branch: no randomness is used, and only the scratch row
      changes; the outcome is the scratch row's phase. */
  lemma DeterministicBranchFacts(T: Tableau, n: nat, t: nat, b1: Bit, b2: Bit)
    requires Shaped(T, n) && (t < n || n == 0) && Pivot(T, n, t).None?
    ensures MeasureSpec(T, n, t, b1) == MeasureSpec(T, n, t, b2)
    ensures forall k :: 0 <= k < 2 * n ==> MeasureSpec(T, n, t, b1).1[k] == T[k]
    ensures MeasureSpec(T, n, t, b1).0 == MeasureSpec(T, n, t, b1).1[2 * n].r
  {
  }

  /** An entry of `measure_all`'s result is fixed once its qubit has been measured. */
  lemma {:induction false} MeasureAllPrefixStable(T: Tableau, n: nat, bits: seq<Bit>, i: nat, k: nat)
    requires Shaped(T, n) && i < k <= n && |bits| == n
    ensures MeasureAllSpec(T, n, bits, k).0[i] == MeasureAllSpec(T, n, bits, i + 1).0[i]
    decreases k
  {
    if k > i + 1 {
      MeasureAllPrefixStable(T, n, bits, i, k - 1);
    }
  }

  /** `measure_all` returns n bits, the i-th being the outcome of measuring
      qubit i after qubits 0..i-1 have been measured in order. */
  lemma MeasureAllInOrder(T: Tableau, n: nat, bits: seq<Bit>, i: nat)
    requires Shaped(T, n) && i < n && |bits| == n
    ensures |MeasureAllSpec(T, n, bits, n).0| == n
    ensures MeasureAllSpec(T, n, bits, n).0[i] ==
      MeasureSpec(MeasureAllSpec(T, n, bits, i).1, n, i, bits[i]).0
  {
    MeasureAllPrefixStable(T, n, bits, i, n);
  }

  // ------------------------------------------------- the initial state |0..0>

  /** When row h is the identity, the g sum is zero. */
  lemma {:induction false} PhaseExponentOfIdentity(h: Row, i: Row, k: nat)
    requires k <= |h.xs| && k <= |h.zs| && k <= |i.xs| && k <= |i.zs|
    requires forall j :: 0 <= j < k ==> h.xs[j] == 0 && h.zs[j] == 0
    ensures PhaseExponent(h, i, k) == 0
  {
    if k > 0 {
      PhaseExponentOfIdentity(h, i, k - 1);
    }
  }

  /** Scratch computation over the initial tableau: only destabilizer t
      has x_t set, so the scratch row is the identity until row t is
      reached and +Z_t afterwards. */
  lemma {:induction false} InitialScratch(n: nat, t: nat, k: nat)
    requires t < n && k <= n
    ensures Scratch(Initial(n), n, t, k) ==
      (if k <= t then Row(Zeros(n), Zeros(n), 0) else Row(Zeros(n), Unit(n, t), 0))
  {
    var T := Initial(n);
    if k > 0 {
      InitialScratch(n, t, k - 1);
      if k - 1 == t {
        var s := Row(Zeros(n), Zeros(n), 0);
        var zt := T[t + n];
        assert zt == Row(Zeros(n), Unit(n, t), 0);
        PhaseExponentOfIdentity(s, zt, n);
        assert XorSeq(s.xs, zt.xs) == Zeros(n);
        assert XorSeq(s.zs, zt.zs) == Unit(n, t);
      } else {
        assert T[k - 1].xs[t] == 0;
      }
    }
  }

  /** Measuring any qubit of a fresh backend (the state |0...0>) is
      deterministic and yields 0, whatever the random draw; only the
      scratch row changes. */
  lemma InitialMeasuresZero(n: nat, t: nat, bit: Bit)
    requires t < n
    ensures MeasureSpec(Initial(n), n, t, bit) ==
      (0, Initial(n)[2 * n := Row(Zeros(n), Unit(n, t), 0)])
  {
    var T := Initial(n);
    PivotIsFirst(T, n, t, None);
    InitialScratch(n, t, n);
  }
}
