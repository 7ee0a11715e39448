/** The classical bit array (qsy/classical_register.py): a list of values
    read and written with Python subscripting. */
module ClassicalRegisters {
  import opened Errors
  import Registers

  /** The class name `__repr__` prints. */
  const ClassName: string := "ClassicalRegister"

  class ClassicalRegister {
    const name: string
    const size: nat
    var state: seq<int>

    /** `__init__`: `size` zeros. */
    constructor (size: nat, name: string)
      ensures this.size == size && this.name == name
      ensures |state| == size && forall i :: 0 <= i < size ==> state[i] == 0
    {
      this.name := name;
      this.size := size;
      state := seq(size, _ => 0);
    }

    /** The `Register` view of this object, for `__len__` and `__repr__`. */
    function AsRegister(): Registers.Register
      reads this
    {
      Registers.Register(name, size, state)
    }

    /** `__repr__`: `ClassicalRegister<name[size]>`, from which the size
        reads back. */
    function Repr(): (s: string)
      reads this
      ensures |s| > |ClassName| + 1 + |name| && s[..|ClassName| + 1] == ClassName + "<"
      ensures s[|ClassName| + 1..|ClassName| + 1 + |name|] == name
      ensures Registers.ReprSize(s) == Some(size as int)
    {
      var reg := AsRegister();
      assert reg.name == name && reg.size == size;
      Registers.ReprSizeRoundTrip(ClassName, reg);
      var s := Registers.Repr(ClassName, reg);
      s
    }

    /** `__getitem__`: Python subscripting, so -len..-1 count from the end
        and anything else is an IndexError. */
    function Get(index: int): (res: Result<int>)
      reads this
      ensures res.Ok? <==> -|state| <= index < |state|
      ensures res.Ok? ==> res.value == state[if index < 0 then index + |state| else index]
      ensures res.Err? ==> res.error == IndexError
    {
      match PyIndex(index, |state|)
      case None => Err(IndexError)
      case Some(k) => Ok(state[k])
    }

    /** `__setitem__`: only the addressed position changes, the length never
        does, and reading the same index afterwards yields the value. */
    method Set(index: int, value: int) returns (res: Result<()>)
      modifies this
      ensures |state| == |old(state)|
      ensures res.Ok? <==> -|state| <= index < |state|
      ensures res.Err? ==> res.error == IndexError && state == old(state)
      ensures res.Ok? ==> state == old(state)[(if index < 0 then index + |state| else index) := value]
      ensures res.Ok? ==> Get(index) == Ok(value)
    {
      var k := PyIndex(index, |state|);
      if k.None? {
        return Err(IndexError);
      }
      state := state[k.value := value];
      res := Ok(());
    }
  }
}
