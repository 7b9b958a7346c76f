/** The GMP entry points the bindings call (`__gmpz_*`), over a model of the
    native `mpz` record. GMP's arithmetic and its limb layout are foreign: the
    record's number is kept as a `nat`, and its three layout words are an opaque
    `Layout` that every value-changing call may rewrite. */
module Native {
  import opened Text

  /** `c_ulong` (64 bits on the platforms the bindings target) and Rust's `u64`. */
  type ULong = x: int | 0 <= x < 0x1_0000_0000_0000_0000

  /** Where a record is in its life: zeroed but not yet initialised by GMP,
      initialised and usable, or released by `__gmpz_clear`. */
  datatype State = Raw | Live | Cleared

  /** The record's `alloc`, `size` and `d` words; `d == 0` is the null pointer. */
  datatype Layout = Layout(alloc: int, size: int, d: nat)

  /** One `mpz` record, the `#[repr(C)]` struct `MpInt` that each binding declares. */
  class Mpz {
    var rep: Layout
    var value: nat
    var state: State

    /** The struct literal `{ alloc: 0, size: 0, d: null_mut() }`. */
    constructor Zeroed()
      ensures state == Raw && rep == Layout(0, 0, 0)
    {
      rep := Layout(0, 0, 0);
      value := 0;
      state := Raw;
    }
  }

  /** Bookkeeping over every native call the program makes: the records initialised
      and not yet cleared, and the number of `__gmpz_mul` calls. Only the calls that
      acquire or release a record, and `Mul`, touch it. */
  class Ledger {
    ghost var live: set<Mpz>
    ghost var muls: nat

    constructor Empty()
      ensures live == {} && muls == 0
    {
      live := {};
      muls := 0;
    }
  }

  /** `__gmpz_init`: establishes a valid record equal to 0. */
  method Init(ledger: Ledger, dst: Mpz)
    requires dst.state == Raw
    modifies ledger, dst
    ensures dst.state == Live && dst.value == 0
    ensures ledger.live == old(ledger.live) + {dst} && ledger.muls == old(ledger.muls)
  {
    ledger.live := ledger.live + {dst};
    dst.rep := *;
    dst.value := 0;
    dst.state := Live;
  }

  /** `__gmpz_init_set_ui`: initialise and set to a machine word in one call. */
  method InitSetUi(ledger: Ledger, dst: Mpz, ui: ULong)
    requires dst.state == Raw
    modifies ledger, dst
    ensures dst.state == Live && dst.value == ui
    ensures ledger.live == old(ledger.live) + {dst} && ledger.muls == old(ledger.muls)
  {
    ledger.live := ledger.live + {dst};
    dst.rep := *;
    dst.value := ui;
    dst.state := Live;
  }

  /** `__gmpz_init_set`: initialise `dst` as a copy of the live record `src`. */
  method InitSet(ledger: Ledger, dst: Mpz, src: Mpz)
    requires dst.state == Raw && src.state == Live
    modifies ledger, dst
    ensures dst.state == Live && dst.value == src.value
    ensures ledger.live == old(ledger.live) + {dst} && ledger.muls == old(ledger.muls)
  {
    ledger.live := ledger.live + {dst};
    dst.rep := *;
    dst.value := src.value;
    dst.state := Live;
  }

  /** `__gmpz_set_ui`. */
  method SetUi(dst: Mpz, ui: ULong)
    requires dst.state == Live
    modifies dst
    ensures dst.state == Live && dst.value == ui
  {
    dst.rep := *;
    dst.value := ui;
  }

  /** `__gmpz_set`; `dst` and `src` may be the same record. */
  method Set(dst: Mpz, src: Mpz)
    requires dst.state == Live && src.state == Live
    modifies dst
    ensures dst.state == Live && dst.value == old(src.value)
  {
    dst.rep := *;
    dst.value := src.value;
  }

  /** `__gmpz_mul`: `dst := a * b`; GMP lets `dst` be one of the operands. */
  method Mul(ledger: Ledger, dst: Mpz, a: Mpz, b: Mpz)
    requires dst.state == Live && a.state == Live && b.state == Live
    modifies ledger, dst
    ensures dst.state == Live && dst.value == old(a.value) * old(b.value)
    ensures ledger.live == old(ledger.live) && ledger.muls == old(ledger.muls) + 1
  {
    ledger.muls := ledger.muls + 1;
    var product := a.value * b.value;
    dst.rep := *;
    dst.value := product;
  }

  /** `__gmpz_sub_ui`: `dst := a - k`. The model's values are natural numbers, so
      the difference must not be negative; the bindings never ask for one. */
  method SubUi(dst: Mpz, a: Mpz, k: ULong)
    requires dst.state == Live && a.state == Live
    requires a.value >= k
    modifies dst
    ensures dst.state == Live && dst.value == old(a.value) - k
  {
    var diff := a.value - k;
    dst.rep := *;
    dst.value := diff;
  }

  /** `__gmpz_cmp_ui`: negative, zero or positive as `a` is below, equal to or
      above `k`. */
  method CmpUi(a: Mpz, k: ULong) returns (c: int)
    requires a.state == Live
    ensures c < 0 <==> a.value < k
    ensures c == 0 <==> a.value == k
    ensures c > 0 <==> a.value > k
  {
    c := if a.value < k then -1 else if a.value == k then 0 else 1;
  }

  /** `__gmpz_cmp`: the same three-way answer for two records. */
  method Cmp(a: Mpz, b: Mpz) returns (c: int)
    requires a.state == Live && b.state == Live
    ensures c < 0 <==> a.value < b.value
    ensures c == 0 <==> a.value == b.value
    ensures c > 0 <==> a.value > b.value
  {
    c := if a.value < b.value then -1 else if a.value == b.value then 0 else 1;
  }

  /** `__gmpz_swap`: exchanges the whole of two records, layout included. */
  method Swap(a: Mpz, b: Mpz)
    requires a.state == Live && b.state == Live
    modifies a, b
    ensures a.state == Live && b.state == Live
    ensures a.value == old(b.value) && b.value == old(a.value)
    ensures a.rep == old(b.rep) && b.rep == old(a.rep)
  {
    a.rep, b.rep := b.rep, a.rep;
    a.value, b.value := b.value, a.value;
  }

  /** `__gmpz_sizeinbase(a, 10)`: the number of decimal digits of `a`, or one
      more (GMP may overestimate by one for bases that are not powers of 2). */
  method SizeInBase10(a: Mpz) returns (size: nat)
    requires a.state == Live
    ensures size == |Decimal(a.value)| || size == |Decimal(a.value)| + 1
  {
    size := |Decimal(a.value)|;
  }

  /** `__gmpz_get_str(buf, 10, a)`: writes the digits of `a` and a NUL terminator
      at the start of `buf`, which must hold `sizeinbase + 2` bytes; the rest of
      `buf` is left as it was. */
  method GetStr10(buf: array<char>, a: Mpz)
    requires a.state == Live
    requires buf.Length >= |Decimal(a.value)| + 2
    modifies buf
    ensures buf[..] == Decimal(a.value) + [NUL] + old(buf[|Decimal(a.value)| + 1..])
  {
    var digits := Decimal(a.value);
    forall i | 0 <= i < |digits| {
      buf[i] := digits[i];
    }
    buf[|digits|] := NUL;
  }

  /** `__gmpz_clear`: releases the record, which must not be used again. */
  method Clear(ledger: Ledger, x: Mpz)
    requires x.state == Live
    modifies ledger, x
    ensures x.state == Cleared && x.value == old(x.value)
    ensures ledger.live == old(ledger.live) - {x} && ledger.muls == old(ledger.muls)
  {
    ledger.live := ledger.live - {x};
    x.state := Cleared;
  }
}
