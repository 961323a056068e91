/** C-level values that cross the interposed libc boundary. */
module CTypes {

  /** `c_int`: a 32-bit signed integer. */
  newtype CInt = x: int | -0x8000_0000 <= x < 0x8000_0000

  /** `mode_t` on Linux: a 32-bit unsigned integer. */
  newtype ModeT = x: int | 0 <= x < 0x1_0000_0000

  /** `const char *`: either the null pointer or a NUL-terminated string, already decoded to text. */
  datatype CharPtr = NullPtr | Str(text: string)

  /** `FILE *`: either the null pointer or a handle to an open stream. */
  datatype FilePtr = NullFile | Stream(handle: nat)

  /** Error codes of Linux (and macOS) `errno.h` that the model mentions. */
  const ENOENT: CInt := 2
  const EACCES: CInt := 13

  datatype Option<T> = None | Some(value: T)
}
