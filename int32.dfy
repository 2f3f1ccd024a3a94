/** Rust's fixed-width integers as they are used by the game: `i32` for geometry,
    velocities and scores, `u32` for the multiplayer ids. */
module Int32 {
  const I32_MIN: int := -0x8000_0000
  const I32_MAX: int := 0x7fff_ffff
  const U32_MAX: int := 0xffff_ffff

  predicate IsI32(x: int) { I32_MIN <= x <= I32_MAX }

  /** A Rust `i32`. Assigning a value outside the range is what overflow would be. */
  type i32 = x: int | -0x8000_0000 <= x <= 0x7fff_ffff
  /** A Rust `u32`; `U32_MAX` doubles as the protocol's "no player" sentinel. */
  type u32 = x: int | 0 <= x <= U32_MAX

  function Abs(x: int): nat { if x < 0 then -x else x }

  /** Rust's `x / 2` on a signed integer, which truncates toward zero (Dafny's `/`
      is Euclidean and would round a negative odd `x` down instead). */
  function Half(x: int): (r: int)
    ensures x >= 0 ==> 0 <= x - 2 * r <= 1
    ensures x < 0 ==> -1 <= x - 2 * r <= 0
  {
    if x >= 0 then x / 2 else -((-x) / 2)
  }
}

/** The one optional type the game needs (Rust's `Option`). */
module Wrappers {
  datatype Option<T> = None | Some(value: T)
}

/** The part of raylib's keyboard the game queries. A frame's keyboard is the set
    of keys held down (`is_key_down`) and the set pressed this frame (`is_key_pressed`). */
module Keyboard {
  datatype Key = Q | A | P | L | Up | Down | Enter | N | Y | Space

  datatype Keys = Keys(down: set<Key>, pressed: set<Key>)
}
