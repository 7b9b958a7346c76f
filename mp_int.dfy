/** The `MpInt` handle of rust2c/src/mp_int/: gmp_shared.rs (GMP linked at build
    time) and gmp_dynamic.rs (GMP loaded with dlopen2). Both build a handle from a
    zeroed `raw` record with one combined `__gmpz_init_set*` call, render it by
    decoding the whole `sizeinbase + 2`-byte buffer, and return the bare version
    text. They differ in `factorial`: gmp_shared.rs multiplies in place, while
    gmp_dynamic.rs, whose typed entry points forbid a record being both the
    destination and an operand, routes each step through a spare record `tmp`. */
module MpInt {
  import opened Native
  import opened Factorials
  import opened Text
  import Mp

  /** `MpInt::raw`: the zeroed, not yet initialised record. */
  method Raw() returns (n: Mpz)
    ensures fresh(n) && n.state == State.Raw && n.rep == Layout(0, 0, 0)
  {
    n := new Mpz.Zeroed();
  }

  /** `MpInt::gmp_version`: the same version text that the banner of
      rust2c/src/mp_shared.rs and rust2c/src/mp_dlopen.rs carries, but without the
      "using gmp" prefix and the backend tag, so never equal to that banner. */
  function GmpVersion(ver: string): (r: string)
    ensures forall b: Mp.Backend :: Mp.GmpVersion(b, ver)[10..10 + |ver|] == r
    ensures forall b: Mp.Backend :: r != Mp.GmpVersion(b, ver)
  {
    ver
  }

  /** `impl From<u64> for MpInt`: `raw`, then a single `__gmpz_init_set_ui`. */
  method FromU64(ledger: Ledger, ui: ULong) returns (n: Mpz)
    modifies ledger
    ensures fresh(n) && n.state == Live && n.value == ui
    ensures ledger.live == old(ledger.live) + {n} && ledger.muls == old(ledger.muls)
  {
    n := Raw();
    InitSetUi(ledger, n, ui);
  }

  /** `impl From<&MpInt> for MpInt`: `raw`, then a single `__gmpz_init_set`. */
  method FromRef(ledger: Ledger, src: Mpz) returns (dst: Mpz)
    requires src.state == Live
    modifies ledger
    ensures fresh(dst) && dst.state == Live && dst.value == src.value
    ensures ledger.live == old(ledger.live) + {dst} && ledger.muls == old(ledger.muls)
  {
    dst := Raw();
    InitSet(ledger, dst, src);
  }

  /** `impl Drop for MpInt`: one `__gmpz_clear`. */
  method Drop(ledger: Ledger, self: Mpz)
    requires self.state == Live
    modifies ledger, self
    ensures self.state == Cleared
    ensures ledger.live == old(ledger.live) - {self} && ledger.muls == old(ledger.muls)
  {
    Clear(ledger, self);
  }

  /** `MpInt::factorial` of gmp_shared.rs: the multiply-and-decrement loop working in
      place on `result` and the copy `n`. It makes exactly `input - 1` calls to
      `__gmpz_mul` (none for 0 or 1), and `n` is cleared on both exits, so only
      `result` stays live. */
  method FactorialInPlace(ledger: Ledger, self: Mpz) returns (result: Mpz)
    requires self.state == Live
    modifies ledger
    ensures self.state == Live && self.value == old(self.value)
    ensures fresh(result) && result.state == Live
    ensures result.value == Fact(self.value)
    ensures ledger.live == old(ledger.live) + {result}
    ensures ledger.muls == old(ledger.muls) + if self.value <= 1 then 0 else self.value - 1
  {
    ghost var input := self.value;
    var n := FromRef(ledger, self);
    result := FromU64(ledger, 1);

    var isZero := CmpUi(n, 0);
    if isZero == 0 {
      Drop(ledger, n);
      return;
    }

    var above := CmpUi(n, 1);
    while above > 0
      invariant n.state == Live && result.state == Live
      invariant 1 <= n.value <= input
      invariant result.value * Fact(n.value) == Fact(input)
      invariant ledger.live == old(ledger.live) + {n, result}
      invariant ledger.muls + n.value == old(ledger.muls) + input
      invariant above > 0 <==> n.value > 1
      decreases n.value
    {
      StepKeepsProduct(result.value, n.value, Fact(input));
      Native.Mul(ledger, result, result, n);
      SubUi(n, n, 1);
      above := CmpUi(n, 1);
    }
    Drop(ledger, n);
  }

  /** gmp_dynamic.rs's typed `__gmpz_mul: fn(&mut MpInt, &MpInt, &MpInt)`: Rust's
      borrow rules keep the destination apart from both operands. */
  method Mul(ledger: Ledger, dst: Mpz, a: Mpz, b: Mpz)
    requires dst != a && dst != b
    requires dst.state == Live && a.state == Live && b.state == Live
    modifies ledger, dst
    ensures dst.state == Live && dst.value == a.value * b.value
    ensures ledger.live == old(ledger.live) && ledger.muls == old(ledger.muls) + 1
  {
    Native.Mul(ledger, dst, a, b);
  }

  /** gmp_dynamic.rs's typed `__gmpz_swap: fn(&mut MpInt, &mut MpInt)`: two distinct
      records exchange their values and nothing else changes. */
  method Swap(a: Mpz, b: Mpz)
    requires a != b
    requires a.state == Live && b.state == Live
    modifies a, b
    ensures a.state == Live && b.state == Live
    ensures a.value == old(b.value) && b.value == old(a.value)
  {
    Native.Swap(a, b);
  }

  /** One turn of gmp_dynamic.rs's loop: `tmp := result * n`, swap `result` and
      `tmp`, `tmp := n - 1`, swap `n` and `tmp`. Its net effect on `result` and `n`
      is the in-place step `result := result * n; n := n - 1`. */
  method RotateStep(ledger: Ledger, result: Mpz, n: Mpz, tmp: Mpz)
    requires result != n && result != tmp && n != tmp
    requires result.state == Live && n.state == Live && tmp.state == Live
    requires n.value >= 1
    modifies ledger, result, n, tmp
    ensures result.state == Live && n.state == Live && tmp.state == Live
    ensures result.value == old(result.value) * old(n.value)
    ensures n.value == old(n.value) - 1
    ensures ledger.live == old(ledger.live) && ledger.muls == old(ledger.muls) + 1
  {
    Mul(ledger, tmp, result, n);
    Swap(result, tmp);
    SubUi(tmp, n, 1);
    Swap(n, tmp);
  }

  /** `MpInt::factorial` of gmp_dynamic.rs. For input 0 it returns before `tmp`
      exists and only `n` is cleared; otherwise `n` and `tmp` are both cleared. Either
      way only `result` stays live, and there are `input - 1` calls to `__gmpz_mul`
      (none for 0 or 1). */
  method FactorialRotating(ledger: Ledger, self: Mpz) returns (result: Mpz)
    requires self.state == Live
    modifies ledger
    ensures self.state == Live && self.value == old(self.value)
    ensures fresh(result) && result.state == Live
    ensures result.value == Fact(self.value)
    ensures ledger.live == old(ledger.live) + {result}
    ensures ledger.muls == old(ledger.muls) + if self.value <= 1 then 0 else self.value - 1
  {
    ghost var input := self.value;
    var n := FromRef(ledger, self);
    result := FromU64(ledger, 1);

    var isZero := CmpUi(n, 0);
    if isZero == 0 {
      Drop(ledger, n);
      return;
    }

    var tmp := FromU64(ledger, 0);
    var above := CmpUi(n, 1);
    while above > 0
      invariant n.state == Live && result.state == Live && tmp.state == Live
      invariant 1 <= n.value <= input
      invariant result.value * Fact(n.value) == Fact(input)
      invariant ledger.live == old(ledger.live) + {n, result, tmp}
      invariant ledger.muls + n.value == old(ledger.muls) + input
      invariant above > 0 <==> n.value > 1
      decreases n.value
    {
      StepKeepsProduct(result.value, n.value, Fact(input));
      RotateStep(ledger, result, n, tmp);
      above := CmpUi(n, 1);
    }
    Drop(ledger, tmp);
    Drop(ledger, n);
  }

  /** `impl Display for MpInt`: the whole zero-filled `sizeinbase + 2`-byte buffer
      after `__gmpz_get_str`, decoded as it is. The text is the digits followed by
      two or three NUL bytes; read up to its first NUL it is exactly the digits,
      but as written the NUL bytes are part of the text, so it never equals them. */
  method Display(self: Mpz) returns (s: string)
    requires self.state == Live
    ensures s != Decimal(self.value)
    ensures |Decimal(self.value)| + 2 <= |s| <= |Decimal(self.value)| + 3
    ensures s[..|Decimal(self.value)|] == Decimal(self.value)
    ensures forall i :: |Decimal(self.value)| <= i < |s| ==> s[i] == NUL
    ensures NUL in s && CStr(s) == Decimal(self.value)
  {
    var bufSize := SizeInBase10(self);
    var buf := new char[bufSize + 2](_ => NUL);
    GetStr10(buf, self);
    s := buf[..];
    DecimalHasNoNul(self.value);
    CStrOfTerminated(Decimal(self.value), s[|Decimal(self.value)| + 1..]);
  }

  /** `Display` as evidently intended, the way rust2c/src/mp_shared.rs does it: the
      same buffer, read only up to its first NUL, which leaves exactly the decimal
      digits. */
  method DisplayText(self: Mpz) returns (s: string)
    requires self.state == Live
    ensures s == Decimal(self.value)
    ensures ParseDecimal(s) == self.value
  {
    var whole := Display(self);
    s := CStr(whole);
    DecimalRoundTrip(self.value);
  }
}
