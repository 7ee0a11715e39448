/** The parts of the assembler's program object (qsyasm/program.py) that
    do not depend on the parser: locating a token's column, formatting an
    error message, and binding register names for `qreg`/`creg`
    instructions. */
module Program {
  import opened Errors
  import opened Text
  import QuantumRegisters
  import ClassicalRegisters
  import Statevector

  /** The position fields of a lexer token. */
  datatype Token = Token(lineno: int, lexpos: int)

  /** Python's clamping of a slice end against a string of length `len`. */
  function SliceEnd(end: int, len: nat): (e: nat)
    ensures e <= len
    ensures 0 <= end <= len ==> e == end
  {
    if end < 0 then (if end + len < 0 then 0 else end + len) else if end > len then len else end
  }

  /** The last index below `e` holding c, or -1. */
  function LastIndexBelow(s: string, c: char, e: nat): (k: int)
    requires e <= |s|
    ensures -1 <= k < e
    ensures k == -1 <==> forall j :: 0 <= j < e ==> s[j] != c
    ensures k >= 0 ==> s[k] == c && forall j :: k < j < e ==> s[j] != c
  {
    if e == 0 then -1 else if s[e - 1] == c then e - 1 else LastIndexBelow(s, c, e - 1)
  }

  /** `s.rfind(c, 0, end)`. */
  function RFind(s: string, c: char, end: int): int
  {
    LastIndexBelow(s, c, SliceEnd(end, |s|))
  }

  /** `_find_column`: one plus the distance from the start of the token's
      line, the line starting after the last newline before the token. For
      a position inside the input the column is at least 1; on the first
      line it is lexpos + 1; otherwise the character `column` places back
      is the newline that ends the previous line, and none lies between. */
  function FindColumn(input: string, lexpos: int): (col: int)
    ensures 0 <= lexpos <= |input| ==> col >= 1
    ensures 0 <= lexpos <= |input| && (forall j :: 0 <= j < lexpos ==> input[j] != '\n') ==>
      col == lexpos + 1
    ensures 0 <= lexpos <= |input| && (exists j :: 0 <= j < lexpos && input[j] == '\n') ==>
      col <= lexpos && input[lexpos - col] == '\n' &&
      forall j :: lexpos - col < j < lexpos ==> input[j] != '\n'
  {
    var lineStart := RFind(input, '\n', lexpos) + 1;
    (lexpos - lineStart) + 1
  }

  /** `_error_message`: "file:line:column: error: message". */
  function ErrorMessage(filename: string, input: string, token: Token, msg: string): (text: string)
    ensures |text| > |filename| + |msg| + 8
    ensures text[..|filename| + 1] == filename + ":"
    ensures text[|text| - |msg| - 9..] == ": error: " + msg
  {
    var head := filename + ":";
    var position := IntToString(token.lineno) + ":" + IntToString(FindColumn(input, token.lexpos));
    var tail := ": error: " + msg;
    assert (head + position + tail)[..|head|] == head;
    assert (head + position + tail)[|head| + |position|..] == tail;
    head + position + tail
  }

  /** The text before and after the first ':' of s. */
  function SplitAtColon(s: string): (res: Option<(string, string)>)
    ensures res.Some? ==> s == res.value.0 + ":" + res.value.1 && ':' !in res.value.0
    ensures res.None? ==> ':' !in s
  {
    if |s| == 0 then None
    else if s[0] == ':' then Some(("", s[1..]))
    else match SplitAtColon(s[1..])
      case None => None
      case Some((a, b)) => Some(([s[0]] + a, b))
  }

  /** Reads an error message of the given file back into line, column and
      message. */
  function ParseErrorMessage(filename: string, text: string): Option<(int, int, string)>
  {
    var prefix := filename + ":";
    if |text| < |prefix| || text[..|prefix|] != prefix then None
    else match SplitAtColon(text[|prefix|..])
      case None => None
      case Some((line, rest)) =>
        match SplitAtColon(rest)
        case None => None
        case Some((column, tail)) =>
          if |tail| < 8 || tail[..8] != " error: " then None
          else match (ParseInt(line), ParseInt(column))
            case (Some(l), Some(c)) => Some((l, c, tail[8..]))
            case _ => None
  }

  lemma SplitAtFirstColon(a: string, b: string)
    requires ':' !in a
    ensures SplitAtColon(a + ":" + b) == Some((a, b))
  {
    if |a| > 0 {
      assert (a + ":" + b)[1..] == a[1..] + ":" + b;
      SplitAtFirstColon(a[1..], b);
      assert [a[0]] + a[1..] == a;
    }
  }

  lemma NoColonInDecimal(n: int)
    ensures ':' !in IntToString(n)
  {
  }

  /** The message always reads back into the token's line, its column and
      the original message, whatever the message says. */
  lemma ErrorMessageRoundTrip(filename: string, input: string, token: Token, msg: string)
    ensures ParseErrorMessage(filename, ErrorMessage(filename, input, token, msg)) ==
      Some((token.lineno, FindColumn(input, token.lexpos), msg))
  {
    var line := IntToString(token.lineno);
    var column := IntToString(FindColumn(input, token.lexpos));
    var text := ErrorMessage(filename, input, token, msg);
    var prefix := filename + ":";
    assert text == prefix + (line + ":" + (column + ":" + (" error: " + msg)));
    assert text[|prefix|..] == line + ":" + (column + ":" + (" error: " + msg));
    NoColonInDecimal(token.lineno);
    NoColonInDecimal(FindColumn(input, token.lexpos));
    SplitAtFirstColon(line, column + ":" + (" error: " + msg));
    SplitAtFirstColon(column, " error: " + msg);
    IntToStringRoundTrip(token.lineno);
    IntToStringRoundTrip(FindColumn(input, token.lexpos));
  }

  /** The name a register made without one carries: Python renders the
      default `None` as "None". */
  const Unnamed := "None"

  /** The bindings after assigning `vals[i]` to `names[i]` in order. */
  function BindAll<V>(m: map<string, V>, names: seq<string>, vals: seq<V>): map<string, V>
    requires |names| == |vals|
  {
    if |names| == 0 then m
    else BindAll(m, names[..|names| - 1], vals[..|vals| - 1])[names[|names| - 1] := vals[|vals| - 1]]
  }

  /** Binding in order adds exactly the listed names, keeps every other
      binding, and leaves each name bound to the value of its last
      occurrence. */
  lemma {:induction false} BindAllFacts<V>(m: map<string, V>, names: seq<string>, vals: seq<V>)
    requires |names| == |vals|
    ensures forall n :: n in BindAll(m, names, vals) <==> n in m || n in names
    ensures forall n :: n in m && n !in names ==> BindAll(m, names, vals)[n] == m[n]
    ensures forall i :: 0 <= i < |names| && (forall j :: i < j < |names| ==> names[j] != names[i]) ==>
      BindAll(m, names, vals)[names[i]] == vals[i]
  {
    if |names| > 0 {
      var last := |names| - 1;
      BindAllFacts(m, names[..last], vals[..last]);
      assert names == names[..last] + [names[last]];
    }
  }

  /** `QuantumRegister(size)` as `_eval_qr` calls it: no name, and the
      default dense backend. */
  method NewUnnamedQr(size: nat) returns (reg: QuantumRegisters.QuantumRegister)
    ensures fresh(reg) && reg.size == size && reg.name == Unnamed
    ensures reg.backend.DenseRef? && fresh(reg.backend.dense)
    ensures reg.backend.dense.state == Statevector.InitialState(size)
    ensures reg.Valid()
  {
    reg := new QuantumRegisters.QuantumRegister(size, Unnamed, QuantumRegisters.DenseBackend);
  }

  class QsyASMProgram {
    const filename: string
    const input: string
    /** `env['qrs']` and `env['crs']`. */
    var qrs: map<string, QuantumRegisters.QuantumRegister>
    var crs: map<string, ClassicalRegisters.ClassicalRegister>

    constructor (filename: string, input: string)
      ensures this.filename == filename && this.input == input
      ensures qrs == map[] && crs == map[]
    {
      this.filename := filename;
      this.input := input;
      qrs := map[];
      crs := map[];
    }

    /** `_eval_qr`: every listed name is bound, in order, to a new register
        of the given size on the default dense backend, so the last
        occurrence of a repeated name wins (see BindAllFacts); `crs` is
        untouched. */
    method EvalQr(size: nat, names: seq<string>) returns (ghost created: seq<QuantumRegisters.QuantumRegister>)
      modifies this
      ensures |created| == |names|
      ensures forall i :: 0 <= i < |names| ==>
        fresh(created[i]) && created[i].size == size && created[i].name == Unnamed &&
        created[i].Valid() && created[i].backend.DenseRef? &&
        created[i].backend.dense.state == Statevector.InitialState(size)
      ensures forall i, j :: 0 <= i < j < |names| ==> created[i] != created[j]
      ensures qrs == BindAll(old(qrs), names, created)
      ensures crs == old(crs)
    {
      created := [];
      var k := 0;
      while k < |names|
        invariant 0 <= k <= |names| && |created| == k
        invariant forall i :: 0 <= i < k ==>
          fresh(created[i]) && created[i].size == size && created[i].name == Unnamed &&
          created[i].Valid() && created[i].backend.DenseRef? &&
          created[i].backend.dense.state == Statevector.InitialState(size)
        invariant forall i, j :: 0 <= i < j < k ==> created[i] != created[j]
        invariant qrs == BindAll(old(qrs), names[..k], created)
        invariant crs == old(crs)
      {
        var reg := NewUnnamedQr(size);
        assert names[..k + 1][..k] == names[..k];
        assert (created + [reg])[..k] == created;
        qrs := qrs[names[k] := reg];
        created := created + [reg];
        k := k + 1;
      }
      assert names[..k] == names;
    }

    /** `_eval_cr`: the mirror image over `crs`, with registers of zeros. */
    method EvalCr(size: nat, names: seq<string>) returns (ghost created: seq<ClassicalRegisters.ClassicalRegister>)
      modifies this
      ensures |created| == |names|
      ensures forall i :: 0 <= i < |names| ==>
        fresh(created[i]) && created[i].size == size && created[i].name == Unnamed &&
        created[i].state == seq(size, _ => 0)
      ensures forall i, j :: 0 <= i < j < |names| ==> created[i] != created[j]
      ensures crs == BindAll(old(crs), names, created)
      ensures qrs == old(qrs)
    {
      created := [];
      var k := 0;
      while k < |names|
        invariant 0 <= k <= |names| && |created| == k
        invariant forall i :: 0 <= i < k ==>
          fresh(created[i]) && created[i].size == size && created[i].name == Unnamed &&
          created[i].state == seq(size, _ => 0)
        invariant forall i, j :: 0 <= i < j < k ==> created[i] != created[j]
        invariant crs == BindAll(old(crs), names[..k], created)
        invariant qrs == old(qrs)
      {
        var reg := new ClassicalRegisters.ClassicalRegister(size, Unnamed);
        assert names[..k + 1][..k] == names[..k];
        assert (created + [reg])[..k] == created;
        crs := crs[names[k] := reg];
        created := created + [reg];
        k := k + 1;
      }
      assert names[..k] == names;
    }
  }
}
