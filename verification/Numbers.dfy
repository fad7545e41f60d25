/** The smaller and the larger of two quantities, and of two whole numbers. */
module Numbers {

  function Min(x: real, y: real): real {
    if x < y then x else y
  }

  function Max(x: real, y: real): real {
    if x < y then y else x
  }

  function Smaller(x: int, y: int): int {
    if x < y then x else y
  }

  function Larger(x: int, y: int): int {
    if x < y then y else x
  }
}
