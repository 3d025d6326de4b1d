/** Fixed-width register cells (emulator/register.py). */
module Register {

  /** `value & 0xFF`: the unique residue of `v` modulo 2^8, also for negative `v`. */
  function Mask8(v: int): (r: int)
    ensures 0 <= r < 0x100
    ensures (v - r) % 0x100 == 0
    ensures 0 <= v < 0x100 ==> r == v
  {
    v % 0x100
  }

  /** `value & 0xFFFF`: the unique residue of `v` modulo 2^16, also for negative `v`. */
  function Mask16(v: int): (r: int)
    ensures 0 <= r < 0x10000
    ensures (v - r) % 0x10000 == 0
    ensures 0 <= v < 0x10000 ==> r == v
  {
    v % 0x10000
  }

  /** An 8-bit register: one unsigned value, masked on every write. */
  class Register8 {
    var value: int

    ghost predicate Valid()
      reads this
    {
      0 <= value < 0x100
    }

    constructor ()
      ensures Valid() && value == 0
    {
      value := 0;
    }

    method Get() returns (v: int)
      requires Valid()
      ensures v == value && 0 <= v < 0x100
    {
      v := value;
    }

    /** Stores the low 8 bits of `v`; storing what `Get` returned changes nothing. */
    method Set(v: int)
      modifies this
      ensures Valid()
      ensures value == Mask8(v)
      ensures old(Valid()) && v == old(value) ==> value == old(value)
    {
      value := Mask8(v);
    }
  }

  /** A 16-bit register: one unsigned value, masked on every write. */
  class Register16 {
    var value: int

    ghost predicate Valid()
      reads this
    {
      0 <= value < 0x10000
    }

    constructor ()
      ensures Valid() && value == 0
    {
      value := 0;
    }

    method Get() returns (v: int)
      requires Valid()
      ensures v == value && 0 <= v < 0x10000
    {
      v := value;
    }

    /** Stores the low 16 bits of `v`; storing what `Get` returned changes nothing. */
    method Set(v: int)
      modifies this
      ensures Valid()
      ensures value == Mask16(v)
      ensures old(Valid()) && v == old(value) ==> value == old(value)
    {
      value := Mask16(v);
    }
  }

  /** The wrap-around cases of tests/test_register.py. */
  lemma WrapExamples()
    ensures Mask8(0x2C) == 0x2C && Mask8(0x100) == 0 && Mask8(0x101) == 1
    ensures Mask16(-1) == 0xFFFF && Mask16(0x10000) == 0
  {
  }
}
