/**
 * The ten interposed libc entry points of src/lib.rs. Each one consults the
 * path guard; on a refusal it returns the entry point's failure sentinel
 * without calling the original, and otherwise it hands the identical
 * arguments to the original and returns whatever that returns.
 */
module Hooks {
  import opened CTypes
  import opened Paths
  import opened Guard

  /**
   * What the original libc function does when called with the arguments at
   * hand: the value it returns, and the code it leaves in errno, if any.
   */
  datatype Native<T> = Native(ret: T, setsErrno: Option<CInt>)

  /** The errno seen after the original has run. */
  function ErrnoAfterNative<T>(errno: CInt, original: Native<T>): CInt {
    match original.setsErrno
    case None => errno
    case Some(code) => code
  }

  /** A call handed on to the original libc function, with the arguments it received. */
  datatype Call =
    | CreatCall(pathname: CharPtr, mode: ModeT)
    | Creat64Call(pathname: CharPtr, mode: ModeT)
    | OpenCall(pathname: CharPtr, flags: CInt, mode: ModeT)
    | Open64Call(pathname: CharPtr, flags: CInt, mode: ModeT)
    | OpenAtCall(dirfd: CInt, pathname: CharPtr, flags: CInt, mode: ModeT)
    | OpenAt64Call(dirfd: CInt, pathname: CharPtr, flags: CInt, mode: ModeT)
    | FOpenCall(pathname: CharPtr, openMode: CharPtr)
    | FOpen64Call(pathname: CharPtr, openMode: CharPtr)
    | FReopenCall(pathname: CharPtr, openMode: CharPtr, stream: FilePtr)
    | FReopen64Call(pathname: CharPtr, openMode: CharPtr, stream: FilePtr)

  /** The failure sentinel of the int-returning entry points. */
  const IntFailure: CInt := -1

  /** What one intercepted call amounts to: its result, errno afterwards, and whether the original ran. */
  datatype Outcome<T> = Outcome(ret: T, errno: CInt, delegated: bool)

  /**
   * The hook template: on an `Err` from the guard, the sentinel and the errno
   * the guard left; on `Ok`, the original's result and errno.
   */
  function Intercepted<T>(pathname: CharPtr, fs: FileSystem, sentinel: T, original: Native<T>, errno: CInt): Outcome<T> {
    var check := Verdict(pathname, fs);
    if check.Err? then Outcome(sentinel, ErrnoAfterCheck(errno, check), false)
    else Outcome(original.ret, ErrnoAfterNative(errno, original), true)
  }

  /** A null pathname is always handed to the original. */
  lemma NullDelegated<T>(fs: FileSystem, sentinel: T, original: Native<T>, errno: CInt)
    ensures Intercepted(NullPtr, fs, sentinel, original, errno) ==
      Outcome(original.ret, ErrnoAfterNative(errno, original), true)
  {
  }

  /**
   * A pathname that does not resolve is refused with the sentinel, the original
   * is not called, and errno holds the resolver's code; the guard writes no EACCES of its own.
   */
  lemma UnresolvableRefused<T>(text: string, fs: FileSystem, sentinel: T, original: Native<T>, errno: CInt)
    requires fs(text).Unresolvable?
    ensures Intercepted(Str(text), fs, sentinel, original, errno) == Outcome(sentinel, fs(text).code, false)
  {
  }

  /**
   * Creating a file that does not exist yet, such as "/tmp/fresh.txt", is
   * refused: `creat` returns -1 with errno ENOENT and nothing is created.
   */
  lemma FreshCreatRefused(fs: FileSystem, original: Native<CInt>, errno: CInt)
    requires fs("/tmp/fresh.txt") == Unresolvable(ENOENT)
    ensures Intercepted(Str("/tmp/fresh.txt"), fs, IntFailure, original, errno) == Outcome(-1, ENOENT, false)
  {
  }

  /**
   * A pathname whose canonical form is the secrets directory or lies below it
   * is refused: the sentinel is returned, errno reads EACCES, and the original
   * is not called, whatever it would have done.
   */
  lemma InsideSecretsRefused<T>(text: string, fs: FileSystem, sentinel: T, original: Native<T>, errno: CInt)
    requires fs(text).Resolved? && Canonical(fs(text).canonical) && InsideSecrets(fs(text).canonical)
    ensures Intercepted(Str(text), fs, sentinel, original, errno) == Outcome(sentinel, EACCES, false)
  {
    ResolvedVerdict(text, fs, errno);
  }

  /**
   * A pathname whose canonical form lies outside the secrets tree is handed to
   * the original, and its result and errno come back unchanged.
   */
  lemma OutsideSecretsDelegated<T>(text: string, fs: FileSystem, sentinel: T, original: Native<T>, errno: CInt)
    requires fs(text).Resolved? && Canonical(fs(text).canonical) && !InsideSecrets(fs(text).canonical)
    ensures Intercepted(Str(text), fs, sentinel, original, errno) ==
      Outcome(original.ret, ErrnoAfterNative(errno, original), true)
  {
    ResolvedVerdict(text, fs, errno);
  }

  /**
   * The secrets directory is compared as written. Where "/var/run" is a
   * symbolic link to "/run", a raw "/var/run/secrets/kubernetes.io/..."
   * resolves to "/run/secrets/kubernetes.io/...", and every such call is
   * handed on to the original.
   */
  lemma SymlinkedMountDelegated<T>(text: string, rest: string, fs: FileSystem, sentinel: T, original: Native<T>, errno: CInt)
    requires fs(text) == Resolved("/run" + rest) && Canonical("/run" + rest)
    ensures Intercepted(Str(text), fs, sentinel, original, errno) ==
      Outcome(original.ret, ErrnoAfterNative(errno, original), true)
  {
    var canonical := "/run" + rest;
    assert canonical[1] == 'r';
    assert K8sSecrets[1] == 'v';
    assert !InsideSecrets(canonical);
    OutsideSecretsDelegated(text, fs, sentinel, original, errno);
  }

  /**
   * Two raw spellings that resolve to the same place get the same treatment:
   * a path reaching the secrets tree through ".." or a symbolic link is
   * refused like the direct one.
   */
  lemma SameResolutionSameOutcome<T>(a: string, b: string, fs: FileSystem, sentinel: T, original: Native<T>, errno: CInt)
    requires fs(a) == fs(b)
    ensures Intercepted(Str(a), fs, sentinel, original, errno) == Intercepted(Str(b), fs, sentinel, original, errno)
  {
  }

  /**
   * A refusal never depends on what the original would do: the outcome is
   * then the same for every behaviour of the original.
   */
  lemma RefusalIgnoresOriginal<T>(pathname: CharPtr, fs: FileSystem, sentinel: T, original1: Native<T>, original2: Native<T>, errno: CInt)
    requires Verdict(pathname, fs).Err?
    ensures Intercepted(pathname, fs, sentinel, original1, errno) == Intercepted(pathname, fs, sentinel, original2, errno)
    ensures !Intercepted(pathname, fs, sentinel, original1, errno).delegated
  {
  }

  /**
   * The calling thread as the interposed functions see it: its errno cell, and
   * the calls it has handed on to the original libc functions.
   */
  class CallingThread {
    var errno: CInt
    ghost var delegated: seq<Call>

    constructor (errno0: CInt)
      ensures errno == errno0 && delegated == []
    {
      errno := errno0;
      delegated := [];
    }

    /**
     * `check_secret_path`: decides on `pathname` and, on a refusal by the
     * guard, writes EACCES into errno. A failed resolution leaves the code
     * `realpath` reported in errno.
     */
    method CheckSecretPath(pathname: CharPtr, fs: FileSystem) returns (r: IoResult)
      modifies this`errno
      ensures r == Verdict(pathname, fs)
      ensures errno == ErrnoAfterCheck(old(errno), r)
    {
      if pathname.NullPtr? {
        return Ok;
      }
      var resolution := fs(pathname.text);
      if resolution.Unresolvable? {
        errno := resolution.code;
        return Err(Os(resolution.code));
      }
      if StartsWith(resolution.canonical, K8sSecrets) {
        errno := EACCES;
        return Err(PermissionDenied);
      }
      return Ok;
    }

    /** `real!(f)(args)`: the original runs with exactly the arguments in `call`. */
    method CallOriginal<T>(call: Call, original: Native<T>) returns (r: T)
      modifies this
      ensures r == original.ret
      ensures errno == ErrnoAfterNative(old(errno), original)
      ensures delegated == old(delegated) + [call]
    {
      delegated := delegated + [call];
      if original.setsErrno.Some? {
        errno := original.setsErrno.value;
      }
      r := original.ret;
    }

    /** The state a hook leaves: `r` and errno as in `o`, and `call` logged exactly when the original ran. */
    ghost predicate Leaves<T>(o: Outcome<T>, r: T, call: Call, before: seq<Call>)
      reads this
    {
      r == o.ret && errno == o.errno &&
      delegated == (if o.delegated then before + [call] else before)
    }

    /** `int creat(const char *pathname, mode_t mode)` */
    method Creat(pathname: CharPtr, mode: ModeT, fs: FileSystem, original: Native<CInt>) returns (r: CInt)
      modifies this
      ensures Leaves(Intercepted(pathname, fs, IntFailure, original, old(errno)), r, CreatCall(pathname, mode), old(delegated))
    {
      var check := CheckSecretPath(pathname, fs);
      if check.Err? {
        r := IntFailure;
      } else {
        r := CallOriginal(CreatCall(pathname, mode), original);
      }
    }

    /** `int creat64(const char *pathname, mode_t mode)` */
    method Creat64(pathname: CharPtr, mode: ModeT, fs: FileSystem, original: Native<CInt>) returns (r: CInt)
      modifies this
      ensures Leaves(Intercepted(pathname, fs, IntFailure, original, old(errno)), r, Creat64Call(pathname, mode), old(delegated))
    {
      var check := CheckSecretPath(pathname, fs);
      if check.Err? {
        r := IntFailure;
      } else {
        r := CallOriginal(Creat64Call(pathname, mode), original);
      }
    }

    /** `int open(const char *pathname, int flags, mode_t mode)` */
    method Open(pathname: CharPtr, flags: CInt, mode: ModeT, fs: FileSystem, original: Native<CInt>) returns (r: CInt)
      modifies this
      ensures Leaves(Intercepted(pathname, fs, IntFailure, original, old(errno)), r, OpenCall(pathname, flags, mode), old(delegated))
    {
      var check := CheckSecretPath(pathname, fs);
      if check.Err? {
        r := IntFailure;
      } else {
        r := CallOriginal(OpenCall(pathname, flags, mode), original);
      }
    }

    /** `int open64(const char *pathname, int flags, mode_t mode)` */
    method Open64(pathname: CharPtr, flags: CInt, mode: ModeT, fs: FileSystem, original: Native<CInt>) returns (r: CInt)
      modifies this
      ensures Leaves(Intercepted(pathname, fs, IntFailure, original, old(errno)), r, Open64Call(pathname, flags, mode), old(delegated))
    {
      var check := CheckSecretPath(pathname, fs);
      if check.Err? {
        r := IntFailure;
      } else {
        r := CallOriginal(Open64Call(pathname, flags, mode), original);
      }
    }

    /** `int openat(int dirfd, const char *pathname, int flags, mode_t mode)`: `dirfd` is not consulted by the guard. */
    method OpenAt(dirfd: CInt, pathname: CharPtr, flags: CInt, mode: ModeT, fs: FileSystem, original: Native<CInt>) returns (r: CInt)
      modifies this
      ensures Leaves(Intercepted(pathname, fs, IntFailure, original, old(errno)), r, OpenAtCall(dirfd, pathname, flags, mode), old(delegated))
    {
      var check := CheckSecretPath(pathname, fs);
      if check.Err? {
        r := IntFailure;
      } else {
        r := CallOriginal(OpenAtCall(dirfd, pathname, flags, mode), original);
      }
    }

    /** `int openat64(int dirfd, const char *pathname, int flags, mode_t mode)` */
    method OpenAt64(dirfd: CInt, pathname: CharPtr, flags: CInt, mode: ModeT, fs: FileSystem, original: Native<CInt>) returns (r: CInt)
      modifies this
      ensures Leaves(Intercepted(pathname, fs, IntFailure, original, old(errno)), r, OpenAt64Call(dirfd, pathname, flags, mode), old(delegated))
    {
      var check := CheckSecretPath(pathname, fs);
      if check.Err? {
        r := IntFailure;
      } else {
        r := CallOriginal(OpenAt64Call(dirfd, pathname, flags, mode), original);
      }
    }

    /** `FILE *fopen(const char *pathname, const char *mode)` */
    method FOpen(pathname: CharPtr, openMode: CharPtr, fs: FileSystem, original: Native<FilePtr>) returns (r: FilePtr)
      modifies this
      ensures Leaves(Intercepted(pathname, fs, NullFile, original, old(errno)), r, FOpenCall(pathname, openMode), old(delegated))
    {
      var check := CheckSecretPath(pathname, fs);
      if check.Err? {
        r := NullFile;
      } else {
        r := CallOriginal(FOpenCall(pathname, openMode), original);
      }
    }

    /** `FILE *fopen64(const char *pathname, const char *mode)` */
    method FOpen64(pathname: CharPtr, openMode: CharPtr, fs: FileSystem, original: Native<FilePtr>) returns (r: FilePtr)
      modifies this
      ensures Leaves(Intercepted(pathname, fs, NullFile, original, old(errno)), r, FOpen64Call(pathname, openMode), old(delegated))
    {
      var check := CheckSecretPath(pathname, fs);
      if check.Err? {
        r := NullFile;
      } else {
        r := CallOriginal(FOpen64Call(pathname, openMode), original);
      }
    }

    /** `FILE *freopen(const char *pathname, const char *mode, FILE *stream)`: `stream` is not consulted by the guard. */
    method FReopen(pathname: CharPtr, openMode: CharPtr, stream: FilePtr, fs: FileSystem, original: Native<FilePtr>) returns (r: FilePtr)
      modifies this
      ensures Leaves(Intercepted(pathname, fs, NullFile, original, old(errno)), r, FReopenCall(pathname, openMode, stream), old(delegated))
    {
      var check := CheckSecretPath(pathname, fs);
      if check.Err? {
        r := NullFile;
      } else {
        r := CallOriginal(FReopenCall(pathname, openMode, stream), original);
      }
    }

    /** `FILE *freopen64(const char *pathname, const char *mode, FILE *stream)` */
    method FReopen64(pathname: CharPtr, openMode: CharPtr, stream: FilePtr, fs: FileSystem, original: Native<FilePtr>) returns (r: FilePtr)
      modifies this
      ensures Leaves(Intercepted(pathname, fs, NullFile, original, old(errno)), r, FReopen64Call(pathname, openMode, stream), old(delegated))
    {
      var check := CheckSecretPath(pathname, fs);
      if check.Err? {
        r := NullFile;
      } else {
        r := CallOriginal(FReopen64Call(pathname, openMode, stream), original);
      }
    }
  }
}
