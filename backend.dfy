/** The shared qubit-index guard of both backends (qsy/backends/backend.py).
    The five-operation backend interface is realised by the two backend
    classes having the same operations; see module QuantumRegisters. */
module Backend {
  import opened Errors
  import opened Text

  /** `_check_in_range`: fails exactly when the index is negative or not below
      the register size; it reads only the register's name and size. */
  function CheckInRange(name: string, size: int, target: int): (res: Result<()>)
    ensures res.Err? <==> target < 0 || target >= size
    ensures res.Err? ==> res.error == RangeError(name, target, size)
  {
    if target < 0 || target >= size then Err(RangeError(name, target, size)) else Ok(())
  }

  /** Every valid index passes and the two nearest invalid ones, -1 and
      `size`, are rejected. */
  lemma CheckInRangeBoundaries(name: string, size: nat)
    ensures forall t :: 0 <= t < size ==> CheckInRange(name, size, t).Ok?
    ensures CheckInRange(name, size, -1) == Err(RangeError(name, -1, size))
    ensures CheckInRange(name, size, size) == Err(RangeError(name, size, size))
  {
  }

  /** The text of the exception raised by the guard. */
  function RangeMessage(name: string, index: int, size: int): (msg: string)
    ensures Contains(msg, name)
    ensures Contains(msg, IntToString(index))
    ensures Contains(msg, IntToString(size))
  {
    var head := "Can't access " + name + "[";
    var middle := "]: register index out of range (register size ";
    var msg := head + IntToString(index) + middle + IntToString(size) + ")";
    ContainsMiddle("Can't access ", name, "[" + IntToString(index) + middle + IntToString(size) + ")");
    assert msg == "Can't access " + name + ("[" + IntToString(index) + middle + IntToString(size) + ")");
    ContainsMiddle(head, IntToString(index), middle + IntToString(size) + ")");
    assert msg == head + IntToString(index) + (middle + IntToString(size) + ")");
    ContainsMiddle(head + IntToString(index) + middle, IntToString(size), ")");
    msg
  }
}
