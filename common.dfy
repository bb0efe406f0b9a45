/** Shared vocabulary: optional and fallible results, parameter values with a
    NaN sentinel, bytes, the integer conversions the bridge performs, and
    order-preserving filtering. */
module Common {

  datatype Option<T> = None | Some(value: T)

  datatype Result<T, E> = Ok(value: T) | Err(error: E)

  /** A plugin parameter value (an f32 on both sides of the boundary).
      Only NaN matters to the logic, so it is a constructor of its own and no
      floating-point arithmetic is modelled. */
  datatype Value = Num(x: real) | NaN

  newtype u8 = x: int | 0 <= x < 256

  /** The three bytes of a MIDI 1.0 message: status, data 1, data 2. */
  type MidiBytes = s: seq<u8> | |s| == 3 witness [0, 0, 0]

  const TWO_32: int := 0x1_0000_0000
  const TWO_64: int := 0x1_0000_0000_0000_0000

  /** Two's-complement narrowing to 32 bits (`as i32` in Rust, an int32_t
      assignment in C++). */
  function AsI32(n: int): (r: int)
    ensures -0x8000_0000 <= r < 0x8000_0000
    ensures (n - r) % TWO_32 == 0
    ensures -0x8000_0000 <= n < 0x8000_0000 ==> r == n
  {
    var m := n % TWO_32;
    if m < 0x8000_0000 then m else m - TWO_32
  }

  /** Conversion to an unsigned 32-bit integer (a VST3 ParamID). */
  function AsU32(n: int): (r: nat)
    ensures r < TWO_32
    ensures (n - r) % TWO_32 == 0
    ensures 0 <= n < TWO_32 ==> r == n
  {
    n % TWO_32
  }

  /** Conversion to a 64-bit `usize` / `uintptr_t`. */
  function AsUsize(n: int): (r: nat)
    ensures r < TWO_64
    ensures (n - r) % TWO_64 == 0
    ensures 0 <= n < TWO_64 ==> r == n
  {
    n % TWO_64
  }

  /** Two's-complement narrowing to 64 bits (`as isize` / `as i64`). */
  function AsI64(n: int): (r: int)
    ensures -0x8000_0000_0000_0000 <= r < 0x8000_0000_0000_0000
    ensures (n - r) % TWO_64 == 0
    ensures -0x8000_0000_0000_0000 <= n < 0x8000_0000_0000_0000 ==> r == n
  {
    var m := n % TWO_64;
    if m < 0x8000_0000_0000_0000 then m else m - TWO_64
  }

  /** The elements of `s` that satisfy `p`, in their original order. */
  function Filter<T>(s: seq<T>, p: T -> bool): (r: seq<T>)
    ensures |r| <= |s|
    ensures forall x :: x in r ==> x in s && p(x)
    ensures forall x :: x in s && p(x) ==> x in r
  {
    if s == [] then []
    else if p(s[|s| - 1]) then Filter(s[..|s| - 1], p) + [s[|s| - 1]]
    else Filter(s[..|s| - 1], p)
  }

  /** Filtering a sequence extended by one element. */
  lemma FilterSnoc<T>(s: seq<T>, y: T, p: T -> bool)
    ensures Filter(s + [y], p) == if p(y) then Filter(s, p) + [y] else Filter(s, p)
  {
    assert (s + [y])[..|s + [y]| - 1] == s;
  }

  lemma {:induction false} FilterAppend<T>(a: seq<T>, b: seq<T>, p: T -> bool)
    ensures Filter(a + b, p) == Filter(a, p) + Filter(b, p)
    decreases |b|
  {
    if b == [] {
      assert a + b == a;
    } else {
      var b' := b[..|b| - 1];
      assert (a + b)[..|a + b| - 1] == a + b';
      assert (a + b)[|a + b| - 1] == b[|b| - 1];
      FilterAppend(a, b', p);
    }
  }

  /** Filtering a list none of whose elements is dropped gives it back. */
  lemma {:induction false} FilterKeepsAll<T>(s: seq<T>, p: T -> bool)
    requires forall i :: 0 <= i < |s| ==> p(s[i])
    ensures Filter(s, p) == s
  {
    if s != [] {
      var init := s[..|s| - 1];
      assert forall i :: 0 <= i < |init| ==> init[i] == s[i];
      FilterKeepsAll(init, p);
      assert p(s[|s| - 1]);
      assert s == init + [s[|s| - 1]];
    }
  }

  /** Filtering twice with two predicates does not depend on their order. */
  lemma {:induction false} FilterCommutes<T>(s: seq<T>, p: T -> bool, q: T -> bool)
    ensures Filter(Filter(s, p), q) == Filter(Filter(s, q), p)
  {
    if s != [] {
      var s' := s[..|s| - 1];
      var x := s[|s| - 1];
      FilterCommutes(s', p, q);
      FilterAppend(Filter(s', p), if p(x) then [x] else [], q);
      FilterAppend(Filter(s', q), if q(x) then [x] else [], p);
      assert Filter(s, p) == Filter(s', p) + (if p(x) then [x] else []);
      assert Filter(s, q) == Filter(s', q) + (if q(x) then [x] else []);
    }
  }

  function Last<T>(s: seq<T>): T
    requires s != []
  {
    s[|s| - 1]
  }
}
