/** Where qsy/backends/chp.py departs from the CHP algorithm as published
    by Aaronson and Gottesman ("Improved simulation of stabilizer
    circuits", 2004). The model of module Stabilizer follows the code; this
    module states the published rules beside it, proves the properties
    that make them right, and exhibits inputs on which the code differs,
    down to a measurement outcome. */
module Divergences {
  import opened Errors
  import opened Bits
  import opened Stabilizer
  import opened StabilizerFacts

  // ----------------------------------------------------- CNOT phase update

  /** The published CNOT rule: r ^= x_c z_t (x_t ^ z_c ^ 1), one XOR. */
  function PaperCnotRow(row: Row, c: nat, t: nat): Row
    requires c < |row.xs| && t < |row.xs| && c < |row.zs| && t < |row.zs|
  {
    Row(row.xs[t := Xor(row.xs[t], row.xs[c])],
        row.zs[c := Xor(row.zs[c], row.zs[t])],
        Xor(row.r, And(And(row.xs[c], row.zs[t]), Xor(Xor(row.xs[t], row.zs[c]), 1))))
  }

  /** CNOT is its own inverse, and the published rule respects that,
      phase included. */
  lemma PaperCnotInvolution(row: Row, c: nat, t: nat)
    requires c < |row.xs| && t < |row.xs| && c < |row.zs| && t < |row.zs| && c != t
    ensures PaperCnotRow(PaperCnotRow(row, c, t), c, t) == row
  {
    var once := PaperCnotRow(row, c, t);
    assert PaperCnotRow(once, c, t).xs == row.xs;
    assert PaperCnotRow(once, c, t).zs == row.zs;
  }

  /** The code's two-step update (XOR, then AND) agrees with the published
      one on the bits, and on the phase exactly when the phase was 0 or the
      AND mask x_t ^ z_c ^ 1 is 1. */
  lemma CnotPhaseAgreement(row: Row, c: nat, t: nat)
    requires c < |row.xs| && t < |row.xs| && c < |row.zs| && t < |row.zs|
    ensures CnotRow(row, c, t).xs == PaperCnotRow(row, c, t).xs
    ensures CnotRow(row, c, t).zs == PaperCnotRow(row, c, t).zs
    ensures CnotRow(row, c, t).r == PaperCnotRow(row, c, t).r <==>
      row.r == 0 || Xor(Xor(row.xs[t], row.zs[c]), 1) == 1
  {
  }

  /** The generator -X_1 on two qubits: CNOT(0, 1) should keep it (X on
      the target commutes with CNOT), but the code turns it into +X_1, and
      so applying the gate twice is not the identity. */
  lemma CnotDropsSign()
    ensures CnotRow(Row([0, 1], [0, 0], 1), 0, 1) == Row([0, 1], [0, 0], 0)
    ensures PaperCnotRow(Row([0, 1], [0, 0], 1), 0, 1) == Row([0, 1], [0, 0], 1)
    ensures CnotRow(CnotRow(Row([0, 1], [0, 0], 1), 0, 1), 0, 1) != Row([0, 1], [0, 0], 1)
  {
    var row := Row([0, 1], [0, 0], 1);
    assert CnotRow(row, 0, 1).xs == [0, 1];
    assert CnotRow(row, 0, 1).zs == [0, 0];
    assert PaperCnotRow(row, 0, 1).xs == [0, 1];
    assert PaperCnotRow(row, 0, 1).zs == [0, 0];
  }

  // ---------------------------------------------------- rowsum phase update

  /** The published rule: the total is taken modulo 4 (it is always even
      for commuting generators); 0 gives +, 2 gives -. */
  function PaperNewPhase(total: int, previous: Bit): Bit
  {
    if total % 4 == 0 then 0 else if total % 4 == 2 then 1 else previous
  }

  /** The sign of i^total is all that matters, so the published rule only
      depends on the total modulo 4; it agrees with the code where the code
      tests, at totals 0 and 2. */
  lemma PaperPhaseIsPeriodic(total: int, k: int, previous: Bit)
    ensures PaperNewPhase(total + 4 * k, previous) == PaperNewPhase(total, previous)
    ensures total == 0 || total == 2 ==> NewPhase(total, previous) == PaperNewPhase(total, previous)
  {
    assert (total + 4 * k) % 4 == total % 4;
  }

  /** The code's rule is not periodic: a total of 4 (i^4 = +1) or -2
      (i^-2 = -1) leaves the previous sign in place. */
  lemma CodePhaseIsNotPeriodic()
    ensures NewPhase(4, 1) == 1 && PaperNewPhase(4, 1) == 0
    ensures NewPhase(-2, 0) == 0 && PaperNewPhase(-2, 0) == 1
  {
  }

  // ------------------------------------------------- observable consequences

  /** The initial tableau of two qubits, written out. */
  lemma InitialTwo()
    ensures Initial(2) == [Row([1, 0], [0, 0], 0), Row([0, 1], [0, 0], 0),
                           Row([0, 0], [1, 0], 0), Row([0, 0], [0, 1], 0),
                           Row([0, 0], [0, 0], 0)]
  {
    var T := Initial(2);
    assert T[0].xs == [1, 0] && T[0].zs == [0, 0];
    assert T[1].xs == [0, 1] && T[1].zs == [0, 0];
    assert T[2].xs == [0, 0] && T[2].zs == [1, 0];
    assert T[3].xs == [0, 0] && T[3].zs == [0, 1];
    assert T[4].xs == [0, 0] && T[4].zs == [0, 0];
  }

  /** From |00>: CNOT(0, 1), which leaves |00> alone, then H and Z on
      qubit 0, as the code computes it. */
  lemma CnotHZTableau()
    ensures ApplyZ(ApplyH(ApplyCnot(Initial(2), 2, 0, 1), 2, 0), 2, 0) ==
      [Row([0, 1], [1, 0], 0), Row([0, 1], [0, 0], 0),
       Row([1, 0], [0, 0], 1), Row([1, 0], [0, 1], 1),
       Row([0, 0], [0, 0], 0)]
  {
    CnotOnInitialTableau();
    var T1 := [Row([1, 1], [0, 0], 0), Row([0, 1], [0, 0], 0),
               Row([0, 0], [1, 0], 0), Row([0, 0], [1, 1], 0),
               Row([0, 0], [0, 0], 0)];
    var T2 := ApplyH(T1, 2, 0);
    assert T2[0].xs == [0, 1] && T2[0].zs == [1, 0];
    assert T2[1].xs == [0, 1] && T2[1].zs == [0, 0];
    assert T2[2].xs == [1, 0] && T2[2].zs == [0, 0];
    assert T2[3].xs == [1, 0] && T2[3].zs == [0, 1];
    ZFlipsSignsOfXAndY(T2, 2, 0);
  }

  /** CNOT(0, 1) on |00>: X_0 becomes X_0 X_1 and Z_1 becomes Z_0 Z_1. */
  lemma CnotOnInitialTableau()
    ensures ApplyCnot(Initial(2), 2, 0, 1) ==
      [Row([1, 1], [0, 0], 0), Row([0, 1], [0, 0], 0),
       Row([0, 0], [1, 0], 0), Row([0, 0], [1, 1], 0),
       Row([0, 0], [0, 0], 0)]
  {
    InitialTwo();
    var T1 := ApplyCnot(Initial(2), 2, 0, 1);
    assert T1[0].xs == [1, 1] && T1[0].zs == [0, 0];
    assert T1[1].xs == [0, 1] && T1[1].zs == [0, 0];
    assert T1[2].xs == [0, 0] && T1[2].zs == [1, 0];
    assert T1[3].xs == [0, 0] && T1[3].zs == [1, 1];
  }

  /** The same without the CNOT. */
  lemma HZTableau()
    ensures ApplyZ(ApplyH(Initial(2), 2, 0), 2, 0) ==
      [Row([0, 0], [1, 0], 0), Row([0, 1], [0, 0], 0),
       Row([1, 0], [0, 0], 1), Row([0, 0], [0, 1], 0),
       Row([0, 0], [0, 0], 0)]
  {
    InitialTwo();
    var U1 := ApplyH(Initial(2), 2, 0);
    assert U1[0].xs == [0, 0] && U1[0].zs == [1, 0];
    assert U1[1].xs == [0, 1] && U1[1].zs == [0, 0];
    assert U1[2].xs == [1, 0] && U1[2].zs == [0, 0];
    assert U1[3].xs == [0, 0] && U1[3].zs == [0, 1];
    ZFlipsSignsOfXAndY(U1, 2, 0);
  }

  /** Measuring qubit 1 of the first tableau: no stabilizer has X or Y on
      qubit 1, so the outcome is read from the scratch row, whose second
      `_rowsum` meets the total 4 and keeps the stale minus sign. */
  lemma CnotHZScratch(T: Tableau)
    requires T == [Row([0, 1], [1, 0], 0), Row([0, 1], [0, 0], 0),
                   Row([1, 0], [0, 0], 1), Row([1, 0], [0, 1], 1),
                   Row([0, 0], [0, 0], 0)]
    ensures Pivot(T, 2, 1).None? && Scratch(T, 2, 1, 2) == Row([0, 0], [0, 1], 1)
  {
    PivotIsFirst(T, 2, 1, None);
    var s0 := Scratch(T, 2, 1, 0);
    assert XorSeq(s0.zs, T[2].zs) == [0, 0];
    assert XorSeq(s0.xs, T[2].xs) == [1, 0];
    PhaseExponentOfIdentity(s0, T[2], 2);
    assert PhaseTotal(s0, T[2], 2) == 2;
    var s1 := Scratch(T, 2, 1, 1);
    assert s1 == RowsumRow(s0, T[2], 2);
    assert s1 == Row([1, 0], [0, 0], 1);
    assert PhaseTotal(s1, T[3], 2) == 4;
    assert XorSeq(s1.xs, T[3].xs) == [0, 0];
    assert XorSeq(s1.zs, T[3].zs) == [0, 1];
  }

  lemma HZScratch(T: Tableau)
    requires T == [Row([0, 0], [1, 0], 0), Row([0, 1], [0, 0], 0),
                   Row([1, 0], [0, 0], 1), Row([0, 0], [0, 1], 0),
                   Row([0, 0], [0, 0], 0)]
    ensures Pivot(T, 2, 1).None? && Scratch(T, 2, 1, 2) == Row([0, 0], [0, 1], 0)
  {
    PivotIsFirst(T, 2, 1, None);
    var s1 := Scratch(T, 2, 1, 1);
    assert s1 == Scratch(T, 2, 1, 0);
    assert s1.xs == [0, 0] && s1.zs == [0, 0];
    assert XorSeq(s1.xs, T[3].xs) == [0, 0];
    assert XorSeq(s1.zs, T[3].zs) == [0, 1];
  }

  /** Qubit 1 is never touched, so measuring it must give 0; with the code's
      `_rowsum` the deterministic outcome is 1. Without the CNOT (which
      leaves |00> as it is) the same measurement gives 0. */
  lemma RowsumSignChangesOutcome(bit: Bit)
    ensures MeasureSpec(ApplyZ(ApplyH(ApplyCnot(Initial(2), 2, 0, 1), 2, 0), 2, 0), 2, 1, bit).0 == 1
    ensures MeasureSpec(ApplyZ(ApplyH(Initial(2), 2, 0), 2, 0), 2, 1, bit).0 == 0
  {
    CnotHZTableau();
    CnotHZScratch(ApplyZ(ApplyH(ApplyCnot(Initial(2), 2, 0, 1), 2, 0), 2, 0));
    HZTableau();
    HZScratch(ApplyZ(ApplyH(Initial(2), 2, 0), 2, 0));
  }

  /** From |00>: H, Z, CNOT(0, 1), H, where the CNOT's control is |0> and
      so leaves the state alone; the code's CNOT drops the minus sign of
      -X_1. */
  lemma HZCnotHTableau()
    ensures ApplyH(ApplyCnot(ApplyZ(ApplyH(Initial(2), 2, 1), 2, 1), 2, 0, 1), 2, 1) ==
      [Row([1, 0], [0, 1], 0), Row([0, 1], [1, 0], 0),
       Row([0, 0], [1, 0], 0), Row([0, 0], [0, 1], 0),
       Row([0, 0], [0, 0], 0)]
  {
    HZOnQubit1Tableau();
    CnotDropsSignInTableau();
    var T3 := [Row([1, 1], [0, 0], 0), Row([0, 0], [1, 1], 0),
               Row([0, 0], [1, 0], 0), Row([0, 1], [0, 0], 0),
               Row([0, 0], [0, 0], 0)];
    var T4 := ApplyH(T3, 2, 1);
    assert T4[0].xs == [1, 0] && T4[0].zs == [0, 1];
    assert T4[1].xs == [0, 1] && T4[1].zs == [1, 0];
    assert T4[2].xs == [0, 0] && T4[2].zs == [1, 0];
    assert T4[3].xs == [0, 0] && T4[3].zs == [0, 1];
  }

  /** H then Z on qubit 1 of |00>: the stabilizer becomes -X_1. */
  lemma HZOnQubit1Tableau()
    ensures ApplyZ(ApplyH(Initial(2), 2, 1), 2, 1) ==
      [Row([1, 0], [0, 0], 0), Row([0, 0], [0, 1], 0),
       Row([0, 0], [1, 0], 0), Row([0, 1], [0, 0], 1),
       Row([0, 0], [0, 0], 0)]
  {
    InitialTwo();
    var T1 := ApplyH(Initial(2), 2, 1);
    assert T1[0].xs == [1, 0] && T1[0].zs == [0, 0];
    assert T1[1].xs == [0, 0] && T1[1].zs == [0, 1];
    assert T1[2].xs == [0, 0] && T1[2].zs == [1, 0];
    assert T1[3].xs == [0, 1] && T1[3].zs == [0, 0];
    ZFlipsSignsOfXAndY(T1, 2, 1);
  }

  /** CNOT(0, 1) on that tableau: -X_1 loses its sign. */
  lemma CnotDropsSignInTableau()
    ensures ApplyCnot([Row([1, 0], [0, 0], 0), Row([0, 0], [0, 1], 0),
                       Row([0, 0], [1, 0], 0), Row([0, 1], [0, 0], 1),
                       Row([0, 0], [0, 0], 0)], 2, 0, 1) ==
      [Row([1, 1], [0, 0], 0), Row([0, 0], [1, 1], 0),
       Row([0, 0], [1, 0], 0), Row([0, 1], [0, 0], 0),
       Row([0, 0], [0, 0], 0)]
  {
    var T2 := [Row([1, 0], [0, 0], 0), Row([0, 0], [0, 1], 0),
               Row([0, 0], [1, 0], 0), Row([0, 1], [0, 0], 1),
               Row([0, 0], [0, 0], 0)];
    var T3 := ApplyCnot(T2, 2, 0, 1);
    assert T3[0].xs == [1, 1] && T3[0].zs == [0, 0];
    assert T3[1].xs == [0, 0] && T3[1].zs == [1, 1];
    assert T3[2].xs == [0, 0] && T3[2].zs == [1, 0];
    assert T3[3].xs == [0, 1] && T3[3].zs == [0, 0] && T3[3].r == 0;
  }

  /** The code's `_x` on qubit 1 of |00>. */
  lemma XTableau()
    ensures ApplyX(Initial(2), 2, 1) ==
      [Row([1, 0], [0, 0], 0), Row([0, 1], [0, 0], 0),
       Row([0, 0], [1, 0], 0), Row([0, 0], [0, 1], 1),
       Row([0, 0], [0, 0], 0)]
  {
    InitialTwo();
    XFlipsSignsOfZAndY(Initial(2), 2, 1);
  }

  /** Measuring qubit 1 after a +Z_1 or a -Z_1 stabilizer: the outcome is
      the sign of that stabilizer. */
  lemma ReadsSignOfZ1(T: Tableau, sign: Bit)
    requires Shaped(T, 2)
    requires T[0].xs == [1, 0] && T[1].xs == [0, 1]
    requires T[2] == Row([0, 0], [1, 0], 0) && T[3] == Row([0, 0], [0, 1], sign)
    ensures MeasureSpec(T, 2, 1, 0) == MeasureSpec(T, 2, 1, 1)
    ensures MeasureSpec(T, 2, 1, 0).0 == sign
  {
    PivotIsFirst(T, 2, 1, None);
    var s1 := Scratch(T, 2, 1, 1);
    assert s1 == Scratch(T, 2, 1, 0);
    assert s1 == Row(Zeros(2), Zeros(2), 0);
    PhaseExponentOfIdentity(s1, T[3], 2);
    assert PhaseTotal(s1, T[3], 2) == 2 * sign;
  }

  /** CNOT with a |0> control must not change what qubit 1 measures: after
      H, Z, H (the code's own `_x`) qubit 1 is |1> and measures 1; inserting
      the CNOT before the last H makes the code measure 0. */
  lemma CnotSignChangesOutcome(bit: Bit)
    ensures MeasureSpec(ApplyH(ApplyCnot(ApplyZ(ApplyH(Initial(2), 2, 1), 2, 1), 2, 0, 1), 2, 1), 2, 1, bit).0 == 0
    ensures MeasureSpec(ApplyX(Initial(2), 2, 1), 2, 1, bit).0 == 1
  {
    HZCnotHTableau();
    ReadsSignOfZ1(ApplyH(ApplyCnot(ApplyZ(ApplyH(Initial(2), 2, 1), 2, 1), 2, 0, 1), 2, 1), 0);
    XTableau();
    ReadsSignOfZ1(ApplyX(Initial(2), 2, 1), 1);
  }
}
