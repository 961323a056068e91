# secretbro path guard, modelled in Dafny

secretbro is a preload library written in Rust. It interposes ten libc
file-opening functions: `creat`, `open`, `openat`, `fopen` and `freopen`,
each with its `64` variant. Before handing a call on to the original, every
interposed function asks `check_secret_path` about the pathname. That
function canonicalizes the path and refuses it when the canonical path lies in
the Kubernetes secrets directory `/var/run/secrets/kubernetes.io`, comparing
component by component. A refusal writes `EACCES` into the calling thread's
errno. The interposed function then returns its failure sentinel: `-1` for the
int-returning functions, a null `FILE *` for the stream functions. Otherwise
the original runs with the same arguments and its result comes back
unchanged. The directory is the text `/var/run/secrets/kubernetes.io` as
written; only the pathname is canonicalized.

The model has four modules:

- `CTypes` (`ctypes.dfy`): the C values that cross the boundary. These are
  `c_int`, `mode_t`, `const char *` (null, or text), `FILE *` (null, or a
  stream) and the errno codes used.
- `Paths` (`paths.dfy`): Rust's `Path::components` on Unix paths and
  `Path::starts_with` on top of it. The main theorem is `CanonicalStartsWith`.
  For canonical paths, the component-wise prefix test holds exactly when the
  path equals the base or continues it with a `/`. So
  `/var/run/secrets/kubernetes.io2/x` does not match.
- `Guard` (`guard.dfy`): the `K8S_SECRETS` constant. It also holds the guard
  decision `Verdict`, the errno it leaves (`ErrnoAfterCheck`) and the lemmas
  about both.
- `Hooks` (`hooks.dfy`): the hook template `Intercepted`, and the class
  `CallingThread`. The class holds the thread's `errno` cell and a log of the
  calls handed on to the originals. Its methods are `CheckSecretPath`, one
  method per interposed function and `CallOriginal`, which stands for
  `real!`. Each hook method is proved against `Intercepted`.

Canonicalization (`Path::canonicalize`, which calls `realpath`) is a
parameter `fs: FileSystem`. It maps each raw path either to `Resolved(canonical)`
or to `Unresolvable(code)`. On failure, Rust builds its error from errno,
which `realpath` has just set. So after a failed resolution, errno holds that
code, and the guard itself writes nothing. The original libc function is a
parameter `Native(ret, setsErrno)`: what it returns for these arguments, and
the errno code it leaves, if any.

## Where the code and its documentation differ

The doc comment of `check_secret_path` says the function returns `Ok(())`
for every path outside the secrets directory. The code propagates the
canonicalization error with `?`. Any path that cannot be resolved is
therefore refused, including a file that does not exist yet. For example,
`creat("/tmp/fresh.txt")` returns `-1` with errno `ENOENT` and creates nothing.
Handing such calls on to the original would avoid refusing new files. The
model follows the code (`Hooks.UnresolvableRefused`, `Hooks.FreshCreatRefused`).

The constant `K8S_SECRETS` is compared as written. Only the pathname is
canonicalized; the directory itself never is. When a prefix of it is a
symbolic link on the host, the secrets have a different canonical path that
the guard does not recognise. A common case is `/var/run` linked to `/run`.
There, `open("/var/run/secrets/kubernetes.io/serviceaccount/token")` resolves
to `/run/secrets/kubernetes.io/serviceaccount/token` and is handed on to the
original (`Hooks.SymlinkedMountDelegated`). Resolving the directory once
would close this gap. The model follows the code.

`fs` resolves a relative path the way `realpath` does: against the process's
working directory. `openat` and `openat64` check `pathname` alone and hand
`dirfd` on unchanged, yet the original resolves a relative `pathname` against
`dirfd`. With a relative pathname and a `dirfd` other than `AT_FDCWD`, the
guard therefore judges a different file from the one the original opens.
For example, `openat(<fd of /var/run/secrets/kubernetes.io>, "token", O_RDONLY)`
is handed on when `./token` exists in the working directory outside the
secrets tree, and is refused with `ENOENT` when it does not. For these calls,
`Hooks.InsideSecretsRefused` speaks of the path resolved against the working
directory, not of the file `openat` would open.

## Model

| member | source | states |
|---|---|---|
| `Paths.NameLen` | src/lib.rs:170 | the leading name of a path runs to the first separator or to the end |
| `Paths.NameLenNoSeparator` | src/lib.rs:170 | the leading name of a path holds no separator |
| `Paths.SegmentsPrefix` | src/lib.rs:170 | on runs of `/name` segments, the component-wise prefix test agrees with a string prefix test that ends at a segment boundary, in both directions |
| `Paths.CanonicalStartsWith` | src/lib.rs:170 | `Path::starts_with` of a canonical path against a canonical directory holds exactly when the path is the directory or continues it with `/` |
| `Paths.BelowStartsWith` | src/lib.rs:170 | everything below a canonical directory starts with it |
| `Paths.SiblingNotStartsWith` | src/lib.rs:170 | a sibling whose last name only extends the directory's last name as a string does not start with it |
| `Paths.ShorterNotStartsWith` | src/lib.rs:170 | no canonical path shorter than the directory starts with it |
| `Guard.SecretsDirShape` | src/lib.rs:8 | the constant `/var/run/secrets/kubernetes.io` is spelled as an absolute run of valid names; this says nothing of how the host resolves it |
| `Guard.StartsWithSecretsIff` | src/lib.rs:170 | for a canonical path, the test at line 170 holds exactly when the path is the secrets directory or lies below it |
| `Guard.NullAllowed` | src/lib.rs:163-165 | a null pathname yields `Ok(())` and leaves errno as it was |
| `Guard.UnresolvableErr` | src/lib.rs:170 | a failed canonicalization is propagated as `Err`, and errno holds the resolver's code; the guard writes no `EACCES` of its own |
| `Guard.ResolvedVerdict` | src/lib.rs:170-178 | a resolved canonical path gives `Err(PermissionDenied)` with errno `EACCES` exactly when it is inside the secrets tree; otherwise `Ok(())` with errno untouched |
| `Guard.EntryMatched` | src/lib.rs:170-175 | every entry directly under the secrets directory, such as `token`, is matched |
| `Guard.SiblingNotMatched` | src/lib.rs:170 | `/var/run/secrets/kubernetes.io2/x` and every other sibling that extends the last name is not matched |
| `Guard.AncestorNotMatched` | src/lib.rs:170 | no ancestor of the secrets directory, such as `/var/run/secrets`, is matched |
| `Hooks.NullDelegated` | src/lib.rs:14-17 | a null pathname is always handed to the original, whose result and errno come back unchanged |
| `Hooks.UnresolvableRefused` | src/lib.rs:14-15 | an unresolvable pathname gets the failure sentinel, the original is not called, and errno holds the resolver's code |
| `Hooks.FreshCreatRefused` | src/lib.rs:11-21 | `creat` of a not-yet-existing `/tmp/fresh.txt` returns `-1` with errno `ENOENT` and is not handed on |
| `Hooks.InsideSecretsRefused` | src/lib.rs:170-175 | a pathname resolving into the secrets tree gets the sentinel and errno `EACCES`, and the original is not called |
| `Hooks.OutsideSecretsDelegated` | src/lib.rs:176-178 | a pathname resolving outside the secrets tree is handed on, and the original's result and errno come back unchanged |
| `Hooks.SymlinkedMountDelegated` | src/lib.rs:170 | where `/var/run` is a symbolic link to `/run`, a secrets path such as `/var/run/secrets/kubernetes.io/serviceaccount/token` resolves under `/run` and is handed on to the original, whose result and errno come back unchanged |
| `Hooks.SameResolutionSameOutcome` | src/lib.rs:170 | two raw spellings that resolve to the same path, one through `..` or a symbolic link, are treated alike |
| `Hooks.RefusalIgnoresOriginal` | src/lib.rs:14-15 | on a refusal the outcome is the same whatever the original would do, and the original is not called |
| `Hooks.CallingThread.CheckSecretPath` | src/lib.rs:162-179 | returns `Verdict` of the pathname; errno becomes `EACCES` on a refusal, the resolver's code on a resolution failure, and is otherwise unchanged |
| `Hooks.CallingThread.CallOriginal` | src/lib.rs:17 | the original runs once with exactly the logged arguments; its result is returned and its errno kept |
| `Hooks.CallingThread.Creat` | src/lib.rs:11-21 | `-1` without calling the original when the guard refuses; otherwise the original's result, errno and one logged `creat` call |
| `Hooks.CallingThread.Creat64` | src/lib.rs:24-34 | the same template for `creat64` |
| `Hooks.CallingThread.Open` | src/lib.rs:37-47 | the same template for `open`; `flags` and `mode` reach only the original |
| `Hooks.CallingThread.Open64` | src/lib.rs:50-60 | the same template for `open64` |
| `Hooks.CallingThread.OpenAt` | src/lib.rs:63-73 | the same template for `openat`; the decision reads only `pathname`, never `dirfd` |
| `Hooks.CallingThread.OpenAt64` | src/lib.rs:76-86 | the same template for `openat64` |
| `Hooks.CallingThread.FOpen` | src/lib.rs:89-99 | a null `FILE *` without calling the original when the guard refuses; otherwise the original's stream, errno and one logged `fopen` call |
| `Hooks.CallingThread.FOpen64` | src/lib.rs:102-112 | the same template for `fopen64` |
| `Hooks.CallingThread.FReopen` | src/lib.rs:115-125 | the same template for `freopen`; the decision never reads `stream` |
| `Hooks.CallingThread.FReopen64` | src/lib.rs:128-138 | the same template for `freopen64` |

## Left out

- Symbol interposition and the lookup of the original symbols by `redhook`'s `hook!` and `real!`: these are dynamic-linker machinery. Each original is a parameter describing its result.
- How `openat` and `openat64` resolve a relative `pathname` against `dirfd`: `fs` resolves every path against the working directory, as `realpath` at src/lib.rs:170 does, and the model does not describe which file the original opens (see the section on where the code and its documentation differ).
- What the originals do to the filesystem (for example, that a `creat` handed on creates the file): only their return value and errno are modelled.
- How `Path::canonicalize` resolves paths (symbolic links, lookups, permissions): this is I/O, and it is the `fs` parameter. Lemmas that speak of canonical paths require the resolved path to have the canonical shape that `realpath` produces.
- A successful canonicalization is assumed to leave errno as it was.
- `CStr::from_ptr(...).to_string_lossy()`: a pathname is taken as already-decoded text. The replacement of invalid UTF-8 bytes is not modelled.
- `get_errno`'s choice between `__errno_location` and `__error`, thread-local errno and concurrent callers: the model has one thread with one errno cell.
- The `target_arch = "x86_64"` condition on the `64` variants: all ten functions are modelled unconditionally.
- `Path::components` on non-Unix platforms (Windows prefixes, Redox schemes).
