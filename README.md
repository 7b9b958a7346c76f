# libby: GMP handle, factorial and dice roll, in Dafny

This project models two pieces of the `libby` demos.

The first is the Rust `MpInt` handle around a GMP `mpz` record, together with its
`factorial`. The handle exists in four variants. rust2c/src/mp_shared.rs links GMP
at build time. rust2c/src/mp_dlopen.rs loads it at first use. These two files make
the same native calls in the same order. Apart from how `gmp_version` decodes the
version text (see "Left out"), they differ only in its backend tag. One module, `Mp`,
therefore models both, with a `Backend` parameter for the tag. rust2c/src/mp_int/gmp_shared.rs and rust2c/src/mp_int/gmp_dynamic.rs form the
second pair, modelled by the module `MpInt`. This pair constructs each record with
one `__gmpz_init_set*` call and decodes the whole text buffer. Apart from how
`gmp_version` decodes the version text (see "Left out"), the two files differ only in
`factorial`. gmp_dynamic.rs routes every step through a spare record and
`__gmpz_swap`, so the module has two factorials, `FactorialInPlace` and
`FactorialRotating`.

The second piece is the C-callable `roll(count, sides)` of c2rust/src/lib.rs.

Modules:

- `Native` stands for the GMP entry points. The class `Mpz` is the native record,
  with three fields:
  - the number it holds, as a `nat`;
  - its lifecycle `State`: `Raw` (zeroed), `Live` (initialised) or `Cleared`;
  - its three layout words `alloc`, `size` and `d`, as an opaque `Layout`.

  Each `__gmpz_*` function is a method whose contract is GMP's documented effect.
  A ghost `Ledger` records, across all native calls, which records are initialised
  and not yet cleared, and how many times `__gmpz_mul` has been called. The `init*`
  calls add a record to it, `clear` removes it, and `mul` counts itself.
  `init*` needs a `Raw` record. `clear` turns `Live` into `Cleared`. Every other
  call needs `Live` records. No call leads back to `Raw`. So a verified caller
  initialises each record once before using it, never uses it after clearing it,
  and cannot clear it twice.
- `Factorials` holds `Fact` and the arithmetic step the loop invariant needs.
- `Text` holds the decimal rendering that `__gmpz_get_str` produces, a parser that
  inverts it, and the scan up to the first NUL that `CStr::from_ptr` performs.
- `Mp` and `MpInt` hold the handle operations. Rust drops values implicitly at the
  end of a scope. The model writes each such drop as an explicit `Drop` call.
  Each factorial states its effect on the ledger. It adds exactly `input - 1` calls
  to `__gmpz_mul` (none for 0 or 1). The only record it leaves live is `result`, so
  every temporary is cleared on every exit.
- `Dice` is `roll` as a pure function. The random generator is replaced by
  `draws`, the values `gen_range(1..=sides)` would return.

Inputs from outside the program are parameters: the library's version text (`ver`)
and the die values (`draws`).

## Model

| member | source | states |
|---|---|---|
| `Native.Mpz.Zeroed` | rust2c/src/mp_shared.rs:32-36 | the struct literal gives a `Raw` record whose three layout words are 0, 0 and null |
| `Native.Init` | rust2c/src/mp_shared.rs:14 | `__gmpz_init` takes a `Raw` record to `Live` with value 0, and the ledger's live set gains it |
| `Native.InitSetUi` | rust2c/src/mp_int/gmp_shared.rs:20 | `__gmpz_init_set_ui` takes a `Raw` record to `Live` holding `ui`, and the ledger's live set gains it |
| `Native.InitSet` | rust2c/src/mp_int/gmp_shared.rs:19 | `__gmpz_init_set` takes a `Raw` record to `Live` holding the value of the live `src`, and the ledger's live set gains it |
| `Native.SetUi` | rust2c/src/mp_shared.rs:17 | `__gmpz_set_ui` keeps a record `Live` and sets its value to `ui` |
| `Native.Set` | rust2c/src/mp_shared.rs:16 | `__gmpz_set` keeps `dst` `Live` and gives it `src`'s value, even when they are the same record |
| `Native.Mul` | rust2c/src/mp_shared.rs:15 | `__gmpz_mul` sets `dst` to the product of the two operands' old values; `dst` may be one of the operands; the ledger counts one more multiplication |
| `Native.SubUi` | rust2c/src/mp_shared.rs:19 | `__gmpz_sub_ui` sets `dst` to `a - k`; a call with `a < k` fails verification |
| `Native.CmpUi` | rust2c/src/mp_shared.rs:12 | the result is negative, zero or positive exactly when the value is below, equal to or above `k` |
| `Native.Cmp` | rust2c/src/mp_shared.rs:11 | the same three-way answer for two live records |
| `Native.Swap` | rust2c/src/mp_int/gmp_dynamic.rs:25 | `__gmpz_swap` exchanges the values and layouts of two live records, which both stay live |
| `Native.SizeInBase10` | rust2c/src/mp_shared.rs:18 | the size is the number of decimal digits, or one more |
| `Native.GetStr10` | rust2c/src/mp_shared.rs:13 | the buffer must hold digits + 2 bytes; afterwards it starts with the digits and a NUL, and the rest is unchanged |
| `Native.Clear` | rust2c/src/mp_shared.rs:10 | `__gmpz_clear` takes a `Live` record to `Cleared`, and the ledger's live set loses it |
| `Factorials.StepKeepsProduct` | rust2c/src/mp_shared.rs:56-59 | one multiply-and-decrement step keeps `result * Fact(n)` unchanged while `n >= 1` |
| `Text.Decimal` | rust2c/src/mp_shared.rs:71 | GMP's base-10 text is at least one digit, only digits, and has no leading zero |
| `Text.DecimalRoundTrip` | rust2c/src/mp_shared.rs:69-73 | parsing the rendered digits gives back the value |
| `Text.DecimalHasNoNul` | rust2c/src/mp_shared.rs:72 | the rendered digits contain no NUL, so the C-string scan cannot stop inside them |
| `Text.CStr` | rust2c/src/mp_shared.rs:72 | `CStr::from_ptr` yields the longest NUL-free prefix of the buffer, which must contain a NUL |
| `Text.CStrOfTerminated` | rust2c/src/mp_shared.rs:70-72 | a buffer holding text, a NUL and anything after reads back as exactly the text |
| `Mp.New` | rust2c/src/mp_shared.rs:31-39 | `new` returns a fresh record, initialised once by `__gmpz_init`, live with value 0 and added to the ledger (same as mp_dlopen.rs:58-66) |
| `Mp.GmpVersion` | rust2c/src/mp_dlopen.rs:68-72 | the banner starts with "using gmp", carries the version text at offset 10 and ends with " (dlopen)" or, for mp_shared.rs:41-45, " (shared)" |
| `Mp.GmpVersionInjective` | rust2c/src/mp_shared.rs:41-45 | two equal banners have the same version text and the same backend |
| `Mp.FromU64` | rust2c/src/mp_shared.rs:78-84 | `new` then `set_ui` give a fresh live handle holding `ui` (same as mp_dlopen.rs:101-107) |
| `Mp.FromRef` | rust2c/src/mp_shared.rs:86-92 | `new` then `set` give a fresh live handle equal in value to `src`, with `src` untouched (same as mp_dlopen.rs:109-115) |
| `Mp.Drop` | rust2c/src/mp_shared.rs:105-109 | dropping clears a live handle once and removes it from the ledger; a second drop fails verification (same as mp_dlopen.rs:128-132) |
| `Mp.Factorial` | rust2c/src/mp_shared.rs:47-63 | the result is a fresh live handle holding `Fact(self)`, and `self` is unchanged. The ledger records exactly `input - 1` calls to `__gmpz_mul` (none for 0 or 1). Its live set gains `result` and nothing else, so the copy `n` is cleared on both exits. `sub_ui` never sees `n < 1` (same as mp_dlopen.rs:74-88) |
| `Mp.Eq` | rust2c/src/mp_shared.rs:94-101 | true when the three record words coincide, hence reflexive; otherwise true iff the values are equal; under GMP's normal form, true iff the values are equal (same as mp_dlopen.rs:117-124) |
| `Mp.Display` | rust2c/src/mp_shared.rs:66-76 | a `sizeinbase + 2` zero buffer, filled and read up to the first NUL, is exactly the decimal digits, which parse back to the value (same as mp_dlopen.rs:91-99) |
| `Mp.RenderedFactorials` | rust2c/src/main.rs:47-65 | 0! and 1! render as "1", 5! as "120", and 42! as "1405006117752879898543142606244511569936384000000000" |
| `MpInt.Raw` | rust2c/src/mp_int/gmp_shared.rs:59-65 | `raw` gives a fresh `Raw` record with zero layout words |
| `MpInt.GmpVersion` | rust2c/src/mp_int/gmp_shared.rs:53-57 | the result is the same version text that `Mp.GmpVersion` places at offset 10 of its banner, for either backend, but never equals that banner: no "using gmp" prefix and no backend tag (same as gmp_dynamic.rs:65-69) |
| `MpInt.FromU64` | rust2c/src/mp_int/gmp_shared.rs:85-91 | `raw`, then one `init_set_ui`, give a fresh live handle holding `ui`, added to the ledger once (same as gmp_dynamic.rs:95-101) |
| `MpInt.FromRef` | rust2c/src/mp_int/gmp_shared.rs:93-99 | `raw`, then one `init_set`, give a fresh live handle equal in value to `src`, added to the ledger once (same as gmp_dynamic.rs:103-109) |
| `MpInt.Drop` | rust2c/src/mp_int/gmp_shared.rs:79-83 | dropping clears a live handle exactly once and removes it from the ledger (same as gmp_dynamic.rs:89-93) |
| `MpInt.FactorialInPlace` | rust2c/src/mp_int/gmp_shared.rs:35-51 | the result is a fresh live handle holding `Fact(self)`, and `self` is unchanged. 0 gives 1 without entering the loop. The ledger records exactly `input - 1` calls to `__gmpz_mul` (none for 0 or 1). Its live set gains only `result`, so `n` is cleared |
| `MpInt.Mul` | rust2c/src/mp_int/gmp_dynamic.rs:21 | the typed `__gmpz_mul` needs a destination distinct from both operands, sets it to their product, and is counted in the ledger |
| `MpInt.Swap` | rust2c/src/mp_int/gmp_dynamic.rs:25 | the typed `__gmpz_swap` needs two distinct records and exchanges their values |
| `MpInt.RotateStep` | rust2c/src/mp_int/gmp_dynamic.rs:55-60 | one mul/swap/sub/swap turn has the net effect `result := result * n; n := n - 1`, the in-place step, with no record both destination and operand of `mul` |
| `MpInt.FactorialRotating` | rust2c/src/mp_int/gmp_dynamic.rs:43-63 | the result is `Fact(self)` with `self` unchanged. The ledger records exactly `input - 1` calls to `__gmpz_mul` (none for 0 or 1). Its live set gains only `result`, so `n` (and `tmp`, once created) are cleared on every exit |
| `MpInt.Display` | rust2c/src/mp_int/gmp_shared.rs:68-77 | the text is the whole `sizeinbase + 2` buffer: the digits followed by two or three NUL bytes. Read up to its first NUL it is the digits, but as a whole it never equals them (same as gmp_dynamic.rs:80-87) |
| `MpInt.DisplayText` | rust2c/src/mp_int/gmp_shared.rs:71-74 | `Display`'s whole-buffer text, read up to its first NUL, is exactly the decimal digits and parses back to the value |
| `Dice.CheckedAdd` | c2rust/src/lib.rs:17 | `u16::checked_add` gives the sum exactly when it is at most 65535, and nothing otherwise |
| `Dice.TryFoldIsCheckedSum` | c2rust/src/lib.rs:14-19 | the `try_fold` gives `sum + Sum(draws)` when that fits in a `u16`, and `None` otherwise |
| `Dice.SumBounds` | c2rust/src/lib.rs:14-16 | `count` values in `1..=sides` sum to between `count` and `count * sides` |
| `Dice.NoOverflow` | c2rust/src/lib.rs:7 | for all `u8` arguments `count * sides <= 255 * 255 <= 65535` |
| `Dice.Roll` | c2rust/src/lib.rs:7-20 | 0 when `count < 1` or `sides < 2`; otherwise the sum of the draws, which lies in `[count, count * sides]` |
| `Dice.RollZeroIffRejected` | c2rust/src/lib.rs:10-19 | the result is 0 iff the arguments are rejected, because the fold never overflows |

## Left out

- Dynamic loading (`lazy_static`, `dlopen2::Container::load`, the per-platform library paths, `expect("failed to load ...")`) and the once-only resolution of the symbol table under concurrent first use: OS behaviour and concurrency. Both backends are modelled by the same native methods.
- The build-time feature selection (rust2c/src/main.rs:5-17, rust2c/src/mp_int/mod.rs) and rust2c/build.rs: configuration, not behaviour.
- GMP's arithmetic and limb layout: foreign. A record's number is a `nat`. Its layout words are arbitrary after any call that changes the value. `Mp.Eq` assumes nothing about them beyond what its contract states.
- Native.SubUi: negative numbers are not modelled, so it requires `a >= k`. GMP itself would return a negative value. The bindings never call it that way, and the factorials are verified against this requirement.
- Native.SizeInBase10: bases other than 10 are not modelled, and `Native.GetStr10` is fixed to base 10 likewise. The bindings only use base 10.
- Reading `__gmp_version` through a raw pointer: foreign static memory. `GmpVersion` takes the version text as a parameter.
- UTF-8 decoding (`to_str().expect`, `to_string_lossy`, `String::from_utf8(...).expect`): bytes are modelled as `char`s. GMP writes ASCII digits, so the model does not show decoding failures or lossy replacement.
- GmpVersion: the version text is taken as already decoded. So the model does not show that rust2c/src/mp_shared.rs:43 and rust2c/src/mp_int/gmp_shared.rs:55 panic on a version string that is not UTF-8 (`to_str().expect`), while rust2c/src/mp_dlopen.rs:70 and rust2c/src/mp_int/gmp_dynamic.rs:67 replace the bad bytes (`to_string_lossy`). This is the one place where each pair of files differs beyond the backend tag or `factorial`.
- The `fmt::Formatter` plumbing of `Display`: `Display` returns the text it would write.
- The thread-local random generator in `roll`: replaced by the `draws` parameter.
- The ghost `Ledger` has no counterpart in the source. It only records, for the proofs, which native calls were made.
- rust2c/src/main.rs, dyroll/src/main.rs, rustroll/src/main.rs, c2rust/c2rust.c, cdemo/cdemo.c and roll.c: command-line front ends (argument parsing, `dlopen`/`dlsym`, printing, exit codes).

## Findings

| source | as written | input that shows it | evidently intended | confidence | as-written member | corrected member |
|---|---|---|---|---|---|---|
| rust2c/src/mp_int/gmp_shared.rs:74 | `Display` decodes the whole `sizeinbase + 2` buffer with `String::from_utf8`, so the NUL terminator and the spare zero bytes become part of the text. gmp_dynamic.rs:85 does the same | any value: 120 displays as "120" followed by at least two NUL characters, so `to_string()` differs from "120" | the digits only, as the `CStr` reading in rust2c/src/mp_shared.rs:72-73 gives | medium, not executed | `MpInt.Display` | `MpInt.DisplayText` |
