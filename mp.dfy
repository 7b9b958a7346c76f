/** The `MpInt` handle of rust2c/src/mp_shared.rs (GMP linked at build time) and
    rust2c/src/mp_dlopen.rs (GMP loaded at first use). Once the symbol table is
    abstracted away the two files perform the same native calls in the same order;
    they differ only in the backend tag of `gmp_version`, which is a parameter here.
    Rust's implicit drops at scope exit are written out as calls to `Drop`. */
module Mp {
  import opened Native
  import opened Factorials
  import opened Text

  /** Which of the two mutually exclusive build features selected this module. */
  datatype Backend = Shared | Dlopen

  function BackendTag(backend: Backend): string
  {
    match backend
    case Shared => " (shared)"
    case Dlopen => " (dlopen)"
  }

  /** `MpInt::new`: a zeroed record, initialised by `__gmpz_init`. */
  method New(ledger: Ledger) returns (n: Mpz)
    modifies ledger
    ensures fresh(n) && n.state == Live && n.value == 0
    ensures ledger.live == old(ledger.live) + {n} && ledger.muls == old(ledger.muls)
  {
    n := new Mpz.Zeroed();
    Init(ledger, n);
  }

  /** `MpInt::gmp_version`, given the library's version text `ver`. */
  function GmpVersion(backend: Backend, ver: string): (r: string)
    ensures |r| == |ver| + 19
    ensures r[..9] == "using gmp"
    ensures r[10..10 + |ver|] == ver
    ensures r[10 + |ver|..] == BackendTag(backend)
  {
    "using gmp " + ver + BackendTag(backend)
  }

  /** The banner names the library version and the backend unambiguously. */
  lemma GmpVersionInjective(b1: Backend, v1: string, b2: Backend, v2: string)
    requires GmpVersion(b1, v1) == GmpVersion(b2, v2)
    ensures b1 == b2 && v1 == v2
  {
  }

  /** `impl From<u64> for MpInt`: `new`, then `__gmpz_set_ui`. */
  method FromU64(ledger: Ledger, ui: ULong) returns (n: Mpz)
    modifies ledger
    ensures fresh(n) && n.state == Live && n.value == ui
    ensures ledger.live == old(ledger.live) + {n} && ledger.muls == old(ledger.muls)
  {
    n := New(ledger);
    SetUi(n, ui);
  }

  /** `impl From<&MpInt> for MpInt`: `new`, then `__gmpz_set` from `src`. */
  method FromRef(ledger: Ledger, src: Mpz) returns (dst: Mpz)
    requires src.state == Live
    modifies ledger
    ensures fresh(dst) && dst.state == Live && dst.value == src.value
    ensures ledger.live == old(ledger.live) + {dst} && ledger.muls == old(ledger.muls)
  {
    dst := New(ledger);
    Set(dst, src);
  }

  /** `impl Drop for MpInt`: one `__gmpz_clear`. A handle can be dropped once only,
      because `Clear` needs a live record and leaves a cleared one. */
  method Drop(ledger: Ledger, self: Mpz)
    requires self.state == Live
    modifies ledger, self
    ensures self.state == Cleared
    ensures ledger.live == old(ledger.live) - {self} && ledger.muls == old(ledger.muls)
  {
    Clear(ledger, self);
  }

  /** `MpInt::factorial`. `self` is only read (it is copied into `n`); the result is
      a fresh live handle. Over the whole call the program makes exactly `input - 1`
      calls to `__gmpz_mul` (none for 0 or 1), and of the records it initialises only
      `result` is still live when it returns: the working copy `n` is cleared on
      both exits. */
  method Factorial(ledger: Ledger, self: Mpz) returns (result: Mpz)
    requires self.state == Live
    modifies ledger
    ensures self.state == Live && self.value == old(self.value)
    ensures fresh(result) && result.state == Live
    ensures result.value == Fact(self.value)
    ensures ledger.live == old(ledger.live) + {result}
    ensures ledger.muls == old(ledger.muls) + if self.value <= 1 then 0 else self.value - 1
  {
    ghost var input := self.value;
    var n := FromRef(ledger, self);
    result := FromU64(ledger, 1);

    var isZero := CmpUi(n, 0);
    if isZero == 0 {
      Drop(ledger, n);
      return;
    }

    var above := CmpUi(n, 1);
    while above > 0
      invariant n.state == Live && result.state == Live
      invariant 1 <= n.value <= input
      invariant result.value * Fact(n.value) == Fact(input)
      invariant ledger.live == old(ledger.live) + {n, result}
      invariant ledger.muls + n.value == old(ledger.muls) + input
      invariant above > 0 <==> n.value > 1
      decreases n.value
    {
      StepKeepsProduct(result.value, n.value, Fact(input));
      Mul(ledger, result, result, n);
      SubUi(n, n, 1);
      above := CmpUi(n, 1);
    }
    Drop(ledger, n);
  }

  /** `impl PartialEq for MpInt`: true at once when the three record words coincide,
      otherwise whatever `__gmpz_cmp` says. GMP keeps every value in one normal
      form, and under that guarantee the answer is exactly value equality. */
  method Eq(a: Mpz, b: Mpz) returns (r: bool)
    requires a.state == Live && b.state == Live
    ensures a == b ==> r
    ensures a.rep == b.rep ==> r
    ensures a.rep != b.rep ==> (r <==> a.value == b.value)
    ensures (a.rep == b.rep ==> a.value == b.value) ==> (r <==> a.value == b.value)
  {
    if a.rep == b.rep {
      return true;
    }
    var c := Cmp(a, b);
    r := c == 0;
  }

  /** `impl Display for MpInt`: a zero-filled buffer of `sizeinbase + 2` bytes,
      filled by `__gmpz_get_str`, read back up to the first NUL. */
  method Display(self: Mpz) returns (s: string)
    requires self.state == Live
    ensures s == Decimal(self.value)
    ensures ParseDecimal(s) == self.value
  {
    var bufSize := SizeInBase10(self);
    var buf := new char[bufSize + 2](_ => NUL);
    GetStr10(buf, self);
    DecimalHasNoNul(self.value);
    CStrOfTerminated(Decimal(self.value), buf[|Decimal(self.value)| + 1..]);
    s := CStr(buf[..]);
    DecimalRoundTrip(self.value);
  }

  /** The values the crate's own tests check: 0! and 1! render as "1", 5! as "120",
      and 42! as the 52-digit text of rust2c/src/main.rs:63. */
  lemma RenderedFactorials()
    ensures Decimal(Fact(0)) == "1" && Decimal(Fact(1)) == "1"
    ensures Decimal(Fact(5)) == "120"
    ensures Decimal(Fact(42)) == "1405006117752879898543142606244511569936384000000000"
  {
    FactAt42();
    DecimalPrefix52();
  }

  // Step-by-step evaluation of 42! and of its decimal text.

  lemma FactAt10()
    ensures Fact(10) == 3628800
  {
    assert Fact(1) == 1;
    assert Fact(2) == 2;
    assert Fact(3) == 6;
    assert Fact(4) == 24;
    assert Fact(5) == 120;
    assert Fact(6) == 720;
    assert Fact(7) == 5040;
    assert Fact(8) == 40320;
    assert Fact(9) == 362880;
  }

  lemma FactAt20()
    ensures Fact(20) == 2432902008176640000
  {
    FactAt10();
    assert Fact(11) == 39916800;
    assert Fact(12) == 479001600;
    assert Fact(13) == 6227020800;
    assert Fact(14) == 87178291200;
    assert Fact(15) == 1307674368000;
    assert Fact(16) == 20922789888000;
    assert Fact(17) == 355687428096000;
    assert Fact(18) == 6402373705728000;
    assert Fact(19) == 121645100408832000;
  }

  lemma FactAt30()
    ensures Fact(30) == 265252859812191058636308480000000
  {
    FactAt20();
    assert Fact(21) == 51090942171709440000;
    assert Fact(22) == 1124000727777607680000;
    assert Fact(23) == 25852016738884976640000;
    assert Fact(24) == 620448401733239439360000;
    assert Fact(25) == 15511210043330985984000000;
    assert Fact(26) == 403291461126605635584000000;
    assert Fact(27) == 10888869450418352160768000000;
    assert Fact(28) == 304888344611713860501504000000;
    assert Fact(29) == 8841761993739701954543616000000;
  }

  lemma FactAt42()
    ensures Fact(42) == 1405006117752879898543142606244511569936384000000000
  {
    FactAt30();
    assert Fact(31) == 8222838654177922817725562880000000;
    assert Fact(32) == 263130836933693530167218012160000000;
    assert Fact(33) == 8683317618811886495518194401280000000;
    assert Fact(34) == 295232799039604140847618609643520000000;
    assert Fact(35) == 10333147966386144929666651337523200000000;
    assert Fact(36) == 371993326789901217467999448150835200000000;
    assert Fact(37) == 13763753091226345046315979581580902400000000;
    assert Fact(38) == 523022617466601111760007224100074291200000000;
    assert Fact(39) == 20397882081197443358640281739902897356800000000;
    assert Fact(40) == 815915283247897734345611269596115894272000000000;
    assert Fact(41) == 33452526613163807108170062053440751665152000000000;
  }

  lemma DecimalPrefix14()
    ensures Decimal(14050061177528) == "14050061177528"
  {
    assert Decimal(1) == "1";
    assert Decimal(14) == "14";
    assert Decimal(140) == "140";
    assert Decimal(1405) == "1405";
    assert Decimal(14050) == "14050";
    assert Decimal(140500) == "140500";
    assert Decimal(1405006) == "1405006";
    assert Decimal(14050061) == "14050061";
    assert Decimal(140500611) == "140500611";
    assert Decimal(1405006117) == "1405006117";
    assert Decimal(14050061177) == "14050061177";
    assert Decimal(140500611775) == "140500611775";
    assert Decimal(1405006117752) == "1405006117752";
  }

  lemma DecimalPrefix27()
    ensures Decimal(140500611775287989854314260) == "140500611775287989854314260"
  {
    DecimalPrefix14();
    assert Decimal(140500611775287) == "140500611775287";
    assert Decimal(1405006117752879) == "1405006117752879";
    assert Decimal(14050061177528798) == "14050061177528798";
    assert Decimal(140500611775287989) == "140500611775287989";
    assert Decimal(1405006117752879898) == "1405006117752879898";
    assert Decimal(14050061177528798985) == "14050061177528798985";
    assert Decimal(140500611775287989854) == "140500611775287989854";
    assert Decimal(1405006117752879898543) == "1405006117752879898543";
    assert Decimal(14050061177528798985431) == "14050061177528798985431";
    assert Decimal(140500611775287989854314) == "140500611775287989854314";
    assert Decimal(1405006117752879898543142) == "1405006117752879898543142";
    assert Decimal(14050061177528798985431426) == "14050061177528798985431426";
  }

  lemma DecimalPrefix40()
    ensures Decimal(1405006117752879898543142606244511569936) == "1405006117752879898543142606244511569936"
  {
    DecimalPrefix27();
    assert Decimal(1405006117752879898543142606) == "1405006117752879898543142606";
    assert Decimal(14050061177528798985431426062) == "14050061177528798985431426062";
    assert Decimal(140500611775287989854314260624) == "140500611775287989854314260624";
    assert Decimal(1405006117752879898543142606244) == "1405006117752879898543142606244";
    assert Decimal(14050061177528798985431426062445) == "14050061177528798985431426062445";
    assert Decimal(140500611775287989854314260624451) == "140500611775287989854314260624451";
    assert Decimal(1405006117752879898543142606244511) == "1405006117752879898543142606244511";
    assert Decimal(14050061177528798985431426062445115) == "14050061177528798985431426062445115";
    assert Decimal(140500611775287989854314260624451156) == "140500611775287989854314260624451156";
    assert Decimal(1405006117752879898543142606244511569) == "1405006117752879898543142606244511569";
    assert Decimal(14050061177528798985431426062445115699) == "14050061177528798985431426062445115699";
    assert Decimal(140500611775287989854314260624451156993) == "140500611775287989854314260624451156993";
  }

  lemma DecimalPrefix52()
    ensures Decimal(1405006117752879898543142606244511569936384000000000) == "1405006117752879898543142606244511569936384000000000"
  {
    DecimalPrefix40();
    assert Decimal(14050061177528798985431426062445115699363) == "14050061177528798985431426062445115699363";
    assert Decimal(140500611775287989854314260624451156993638) == "140500611775287989854314260624451156993638";
    assert Decimal(1405006117752879898543142606244511569936384) == "1405006117752879898543142606244511569936384";
    assert Decimal(14050061177528798985431426062445115699363840) == "14050061177528798985431426062445115699363840";
    assert Decimal(140500611775287989854314260624451156993638400) == "140500611775287989854314260624451156993638400";
    assert Decimal(1405006117752879898543142606244511569936384000) == "1405006117752879898543142606244511569936384000";
    assert Decimal(14050061177528798985431426062445115699363840000) == "14050061177528798985431426062445115699363840000";
    assert Decimal(140500611775287989854314260624451156993638400000) == "140500611775287989854314260624451156993638400000";
    assert Decimal(1405006117752879898543142606244511569936384000000) == "1405006117752879898543142606244511569936384000000";
    assert Decimal(14050061177528798985431426062445115699363840000000) == "14050061177528798985431426062445115699363840000000";
    assert Decimal(140500611775287989854314260624451156993638400000000) == "140500611775287989854314260624451156993638400000000";
  }
}
