// Machine-word arithmetic and the option type shared by every component.

module SizeT {

  // Largest value of a 64-bit std::size_t / std::uintptr_t.
  const SIZE_MAX: nat := 0xFFFF_FFFF_FFFF_FFFF

  datatype Option<+T> = None | Some(value: T) {
    predicate IsFailure() { None? }
    function PropagateFailure<U>(): Option<U>
      requires None?
    {
      None
    }
    function Extract(): T
      requires Some?
    {
      value
    }
  }

  // checked_add: None stands for the overflow exception.
  function CheckedAdd(a: nat, b: nat): Option<nat> {
    if a > SIZE_MAX || b > SIZE_MAX - a then None else Some(a + b)
  }

  // checked_mul, with the source's division test written as the product bound.
  function CheckedMul(a: nat, b: nat): Option<nat> {
    if a * b > SIZE_MAX then None else Some(a * b)
  }
}
