/** Kotlin's `Int`: a 32-bit two's-complement integer whose `+`, `-` and `*`
    wrap around silently. Every piece of Int arithmetic in the model goes
    through `Wrap`. */
module Int32 {

  const MIN: int := -0x8000_0000
  const MAX: int := 0x7fff_ffff
  const MODULUS: int := 0x1_0000_0000

  newtype int32 = x: int | -0x8000_0000 <= x < 0x8000_0000

  /** The 32-bit value congruent to `x` modulo 2^32. */
  function Wrap(x: int): (r: int32)
    ensures MIN <= x <= MAX ==> r as int == x
    ensures (x - r as int) % MODULUS == 0
  {
    ((x - MIN) % MODULUS + MIN) as int32
  }

  /** Two integers congruent modulo 2^32 wrap to the same value. */
  lemma WrapCongruent(x: int, y: int)
    requires (x - y) % MODULUS == 0
    ensures Wrap(x) == Wrap(y)
  {
    var k := (x - y) / MODULUS;
    assert x - MIN == (y - MIN) + k * MODULUS;
    assert (x - MIN) % MODULUS == (y - MIN) % MODULUS by {
      ModShift(y - MIN, k);
    }
  }

  lemma ModShift(a: int, k: int)
    ensures (a + k * MODULUS) % MODULUS == a % MODULUS
  {
    var q := a / MODULUS;
    var r := a % MODULUS;
    assert a + k * MODULUS == (q + k) * MODULUS + r;
  }

  /** Congruence modulo 2^32 survives multiplication by any factor. */
  lemma CongruentTimes(x: int, y: int, c: int)
    requires (x - y) % MODULUS == 0
    ensures (x * c - y * c) % MODULUS == 0
  {
    var k := (x - y) / MODULUS;
    assert x - y == k * MODULUS;
    assert x * c - y * c == (k * c) * MODULUS;
    ModShift(0, k * c);
  }

  /** Kotlin `a + b` on Int. */
  function Plus(a: int32, b: int32): (r: int32)
    ensures MIN <= a as int + b as int <= MAX ==> r as int == a as int + b as int
  {
    Wrap(a as int + b as int)
  }

  /** Kotlin `a - b` on Int. */
  function Minus(a: int32, b: int32): (r: int32)
    ensures MIN <= a as int - b as int <= MAX ==> r as int == a as int - b as int
  {
    Wrap(a as int - b as int)
  }

  /** Kotlin `a * b` on Int. */
  function Times(a: int32, b: int32): (r: int32)
    ensures MIN <= a as int * b as int <= MAX ==> r as int == a as int * b as int
  {
    Wrap(a as int * b as int)
  }

  /** Adding one and then subtracting one (in either order) gives back the
      value, wrap-around included: Int arithmetic is arithmetic modulo 2^32. */
  lemma {:induction false} PlusMinusOne(p: int32)
    ensures Minus(Plus(p, 1), 1) == p
    ensures Plus(Minus(p, 1), 1) == p
  {
    var up := Plus(p, 1);
    assert (p as int + 1 - up as int) % MODULUS == 0;
    WrapCongruent(up as int - 1, p as int);
    var down := Minus(p, 1);
    assert (p as int - 1 - down as int) % MODULUS == 0;
    WrapCongruent(down as int + 1, p as int);
  }
}

/** Kotlin's nullable values. */
module Optional {
  datatype Option<+T> = None | Some(value: T) {
    /** Kotlin's elvis operator `this ?: default`. */
    function OrElse(default: T): T {
      if Some? then value else default
    }
  }
}
