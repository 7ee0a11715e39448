/** The `Register` base (qsy/register.py): a size, a state list and the
    textual form `ClassName<name[size]>`. The name is an explicit field:
    `Register.__init__` itself takes only the size, although both
    subclasses and `__repr__` use a name. */
module Registers {
  import opened Errors
  import opened Text

  datatype Register = Register(name: string, size: nat, state: seq<int>)

  /** `Register.__init__`: the given size and an empty state. */
  function NewRegister(size: nat, name: string): (r: Register)
    ensures r.size == size && r.name == name && r.state == []
  {
    Register(name, size, [])
  }

  /** `__len__`: the size, whatever the name and the state list hold. */
  function Len(r: Register): (n: nat)
    ensures n == r.size
  {
    r.size
  }

  /** `len` of a new register is the size it was made with, whatever its name. */
  lemma LenOfNew(size: nat, name: string)
    ensures Len(NewRegister(size, name)) == size
  {
  }

  /** `__repr__`: class name, '<', name, '[', decimal size, "]>". */
  function Repr(className: string, r: Register): (s: string)
    ensures |s| >= |className| + |r.name| + 4
    ensures s[..|className| + 1] == className + "<"
    ensures s[|className| + 1..|className| + 1 + |r.name|] == r.name
    ensures s[|className| + 1 + |r.name|] == '['
    ensures s[|s| - 2..] == "]>"
  {
    className + "<" + r.name + "[" + IntToString(r.size) + "]>"
  }

  /** The size read back from a `__repr__` text: the digits between the
      last '[' and the closing "]>". */
  function ReprSize(s: string): Option<int>
  {
    if |s| < 3 || s[|s| - 2..] != "]>" then None
    else match LastOpenBracket(s[..|s| - 2])
      case None => None
      case Some(k) => ParseInt(s[k + 1..|s| - 2])
  }

  /** The index of the last '[' in s. */
  function LastOpenBracket(s: string): (k: Option<nat>)
    ensures k.Some? ==> k.value < |s| && s[k.value] == '[' && forall j :: k.value < j < |s| ==> s[j] != '['
    ensures k.None? ==> forall j :: 0 <= j < |s| ==> s[j] != '['
  {
    if |s| == 0 then None
    else if s[|s| - 1] == '[' then Some(|s| - 1)
    else LastOpenBracket(s[..|s| - 1])
  }

  /** Whatever the class name and register name, the size can be read
      back from the end of `__repr__`'s text. */
  lemma ReprSizeRoundTrip(className: string, r: Register)
    ensures ReprSize(Repr(className, r)) == Some(r.size as int)
  {
    var digits := IntToString(r.size);
    var head := className + "<" + r.name + "[";
    var s := Repr(className, r);
    assert s == head + digits + "]>";
    assert s[..|s| - 2] == head + digits;
    var k := |head| - 1;
    assert (head + digits)[k] == '[';
    assert forall j :: k < j < |head + digits| ==> (head + digits)[j] == digits[j - |head|];
    assert LastOpenBracket(head + digits) == Some(k);
    assert s[k + 1..|s| - 2] == digits;
    IntToStringRoundTrip(r.size);
  }
}
