/** Go values the file server passes around: optional values, fixed-width
    integers of a 64-bit platform, and the error values it returns. */
module Base {

  /** A Go pointer or interface value that may be nil. */
  datatype Option<+T> = None | Some(value: T)

  /** A value or the error that replaced it. */
  datatype Result<+T, +E> = Ok(value: T) | Err(error: E)

  newtype byte = x: int | 0 <= x < 0x100
  newtype u32 = x: int | 0 <= x < 0x1_0000_0000
  newtype u64 = x: int | 0 <= x < 0x1_0000_0000_0000_0000
  /** Go's `int` and `int64` on a 64-bit platform. */
  newtype i64 = x: int | -0x8000_0000_0000_0000 <= x < 0x8000_0000_0000_0000

  const TwoTo63: int := 0x8000_0000_0000_0000
  const TwoTo64: int := 0x1_0000_0000_0000_0000

  /** Go's conversion `int(x)` of a `uint64`: the same bits read as two's complement. */
  function IntOfU64(x: u64): (r: i64)
    ensures (r as int - x as int) % TwoTo64 == 0
    ensures x as int < TwoTo63 <==> 0 <= r
    ensures x as int < TwoTo63 ==> r as int == x as int
  {
    if x as int < TwoTo63 then x as int as i64 else (x as int - TwoTo64) as i64
  }

  /** Go's conversion `uint64(x)` of an `int`: the same bits read as unsigned. */
  function U64OfInt(x: i64): (r: u64)
    ensures (r as int - x as int) % TwoTo64 == 0
    ensures 0 <= x ==> r as int == x as int
    ensures x < 0 ==> TwoTo63 <= r as int
  {
    if 0 <= x then x as int as u64 else (x as int + TwoTo64) as u64
  }

  /** The error values the file server returns. */
  datatype Error =
    | Errno(code: nat)          // a `syscall.Errno`, by its Linux number
    | ErrInvalid                // `os.ErrInvalid`, a value distinct from EINVAL
    | Failure(message: string)  // any other Go error, by its `Error()` text

  const EINVAL: Error := Errno(22)
  const ENOSYS: Error := Errno(38)

  /** The text of the error Go's `(*os.File).WriteAt` reports for a file opened with O_APPEND. */
  const AppendModeText: string := "os: invalid use of WriteAt on file opened with O_APPEND"

  /** `strings.Contains(s, t)`. */
  predicate Contains(s: string, t: string)
    decreases |s|
  {
    |t| <= |s| && (s[..|t|] == t || Contains(s[1..], t))
  }

  /** Whether `err.Error()` contains the append-mode text. An errno's text is its
      strerror message and `os.ErrInvalid`'s is "invalid argument": neither contains it. */
  predicate IsAppendModeError(err: Error) {
    err.Failure? && Contains(err.message, AppendModeText)
  }
}
