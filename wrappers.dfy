/** Definitions shared by the other modules: the optional value
    (std::optional, and a nullable pointer used as "maybe a table entry")
    and C++'s `unsigned`. */
module Wrappers {

  datatype Option<+T> = None | Some(value: T)

  const U32_LIMIT: int := 0x1_0000_0000

  /** The values of C++'s `unsigned` on the platforms the program targets. */
  type u32 = x: int | 0 <= x < U32_LIMIT

}
