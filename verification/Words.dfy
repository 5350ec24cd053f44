// Machine words of 64 bits.
module Words {
  const TWO_63: int := 0x8000_0000_0000_0000
  const TWO_64: int := 0x1_0000_0000_0000_0000

  function Wrap64(x: int): nat { x % TWO_64 }
}
