/**
 * The path guard of src/lib.rs as a pure decision: what `check_secret_path`
 * returns for a pathname, given how the filesystem resolves it.
 */
module Guard {
  import opened CTypes
  import opened Paths

  /**
   * The directory whose contents are refused: the Kubernetes secrets mount,
   * "/var/run/secrets/kubernetes.io", written one segment at a time. It is
   * compared as written against canonical paths and is never canonicalized.
   */
  const K8sSecrets: string := "/var" + "/run" + "/secrets" + "/kubernetes.io"

  /** What `Path::canonicalize` (that is, `realpath`) makes of a raw path. */
  datatype Resolution = Resolved(canonical: string) | Unresolvable(code: CInt)

  /** The filesystem as far as the guard sees it: how each raw path resolves. */
  type FileSystem = string -> Resolution

  /** `std::io::Error` as the guard produces it. */
  datatype IoError = Os(code: CInt) | PermissionDenied

  /** `std::io::Result<()>`. */
  datatype IoResult = Ok | Err(error: IoError)

  /**
   * The result of `check_secret_path`: a null pathname passes, a resolution
   * failure is propagated, and a resolved path is refused exactly when it
   * starts with the secrets directory component by component.
   */
  function Verdict(pathname: CharPtr, fs: FileSystem): IoResult {
    match pathname
    case NullPtr => Ok
    case Str(text) =>
      match fs(text)
      case Unresolvable(code) => Err(Os(code))
      case Resolved(canonical) =>
        if StartsWith(canonical, K8sSecrets) then Err(PermissionDenied) else Ok
  }

  /**
   * The calling thread's errno once the check returns: EACCES written by the
   * guard on a refusal, the code `realpath` left on a resolution failure, and
   * otherwise what it was before.
   */
  function ErrnoAfterCheck(errno: CInt, r: IoResult): CInt {
    match r
    case Ok => errno
    case Err(Os(code)) => code
    case Err(PermissionDenied) => EACCES
  }

  /** A canonical path inside the secrets tree: the directory itself or anything below it. */
  predicate InsideSecrets(canonical: string) {
    canonical == K8sSecrets || K8sSecrets + "/" <= canonical
  }

  /**
   * The constant is written as an absolute run of valid names. This is a fact
   * about its spelling only: nothing resolves it, so a host on which some
   * prefix of it is a symbolic link keeps the secrets under another canonical
   * path, which the guard does not recognise.
   */
  lemma SecretsDirShape()
    ensures Segments(K8sSecrets)
  {
    SegmentOf("/var");
    SegmentOf("/run");
    SegmentOf("/secrets");
    SegmentOf("/kubernetes.io");
    SegmentsAppend("/var", "/run");
    SegmentsAppend("/var" + "/run", "/secrets");
    SegmentsAppend("/var" + "/run" + "/secrets", "/kubernetes.io");
  }

  /**
   * For a canonical path the component-wise test of src/lib.rs:170 is the
   * same as being the secrets directory or lying below it.
   */
  lemma StartsWithSecretsIff(canonical: string)
    requires Canonical(canonical)
    ensures StartsWith(canonical, K8sSecrets) <==> InsideSecrets(canonical)
  {
    SecretsDirShape();
    assert |K8sSecrets| == 30;
    CanonicalStartsWith(canonical, K8sSecrets);
  }

  /** A null pathname is always let through. */
  lemma NullAllowed(fs: FileSystem, errno: CInt)
    ensures Verdict(NullPtr, fs) == Ok
    ensures ErrnoAfterCheck(errno, Verdict(NullPtr, fs)) == errno
  {
  }

  /** A path that does not resolve is refused with the resolver's own error; errno holds the resolver's code, and the guard writes no EACCES of its own. */
  lemma UnresolvableErr(text: string, fs: FileSystem, errno: CInt)
    requires fs(text).Unresolvable?
    ensures Verdict(Str(text), fs) == Err(Os(fs(text).code))
    ensures ErrnoAfterCheck(errno, Verdict(Str(text), fs)) == fs(text).code
  {
  }

  /**
   * A pathname resolving to a canonical path is refused with PermissionDenied
   * and errno EACCES exactly when that path is inside the secrets tree, and is
   * otherwise let through with errno untouched.
   */
  lemma ResolvedVerdict(text: string, fs: FileSystem, errno: CInt)
    requires fs(text).Resolved? && Canonical(fs(text).canonical)
    ensures Verdict(Str(text), fs) == Err(PermissionDenied) <==> InsideSecrets(fs(text).canonical)
    ensures Verdict(Str(text), fs) == Ok <==> !InsideSecrets(fs(text).canonical)
    ensures ErrnoAfterCheck(errno, Verdict(Str(text), fs)) ==
      if InsideSecrets(fs(text).canonical) then EACCES else errno
  {
    StartsWithSecretsIff(fs(text).canonical);
  }

  /** Every entry directly under the secrets directory is matched, e.g. ".../kubernetes.io/token". */
  lemma EntryMatched(name: string)
    requires ValidName(name) && '/' !in name
    ensures StartsWith(K8sSecrets + "/" + name, K8sSecrets)
  {
    SecretsDirShape();
    SegmentsOfName(name);
    assert |K8sSecrets| == 30;
    BelowStartsWith(K8sSecrets, "/" + name);
    AppendAssoc(K8sSecrets, "/", name);
  }

  /**
   * A sibling whose name merely extends "kubernetes.io" as a string is not
   * matched, whatever lies below it: ".../kubernetes.io2/x" is let through.
   */
  lemma SiblingNotMatched(more: string, rest: string)
    requires more != [] && '/' !in more && Segments(rest)
    ensures !StartsWith(K8sSecrets + more + rest, K8sSecrets)
  {
    SecretsDirShape();
    assert |K8sSecrets| == 30;
    SiblingNotStartsWith(K8sSecrets, more, rest);
  }

  /** No canonical path shorter than the secrets directory, such as its parent "/var/run/secrets", is matched. */
  lemma AncestorNotMatched(p: string)
    requires Canonical(p) && |p| < |K8sSecrets|
    ensures !StartsWith(p, K8sSecrets)
  {
    SecretsDirShape();
    assert |K8sSecrets| == 30;
    ShorterNotStartsWith(p, K8sSecrets);
  }
}
