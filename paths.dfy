/**
 * Unix paths as Rust's `std::path::Path` splits them into components, and the
 * component-wise prefix test `Path::starts_with` built on that split.
 */
module Paths {

  datatype Component = RootDir | CurDir | ParentDir | Normal(name: string)

  /** Length of the name at the front of `s`: it runs to the first '/' or to the end. */
  function NameLen(s: string): (n: nat)
    ensures n <= |s|
    ensures n < |s| ==> s[n] == '/'
  {
    if s == [] || s[0] == '/' then 0 else 1 + NameLen(s[1..])
  }

  /** The name at the front of `s` holds no separator. */
  lemma {:induction false} NameLenNoSeparator(s: string)
    ensures '/' !in s[..NameLen(s)]
  {
    if s != [] && s[0] != '/' {
      NameLenNoSeparator(s[1..]);
      assert s[..NameLen(s)] == [s[0]] + s[1..][..NameLen(s[1..])];
    }
  }

  /**
   * The components of `s` after its root or leading "." marker: separators are
   * skipped (so "a//b" and "a/b/" have the same components), an interior "."
   * is dropped, ".." is a parent reference, and every other name is Normal.
   */
  function Body(s: string): seq<Component>
    decreases |s|
  {
    if s == [] then []
    else if s[0] == '/' then Body(s[1..])
    else
      var n := NameLen(s);
      var rest := Body(s[n..]);
      if s[..n] == "." then rest
      else if s[..n] == ".." then [ParentDir] + rest
      else [Normal(s[..n])] + rest
  }

  /** `Path::components` on a Unix path. */
  function Components(s: string): seq<Component> {
    if s != [] && s[0] == '/' then [RootDir] + Body(s[1..])
    else if s == "." || (|s| >= 2 && s[0] == '.' && s[1] == '/') then [CurDir] + Body(s[1..])
    else Body(s)
  }

  /** `Path::starts_with`: the components of `base` are a prefix of those of `path`. */
  predicate StartsWith(path: string, base: string) {
    Components(base) <= Components(path)
  }

  /** A name as it appears in a resolved path: non-empty and neither "." nor "..". */
  predicate ValidName(name: string) {
    name != [] && name != "." && name != ".."
  }

  function FirstName(s: string): string
    requires s != []
  {
    s[1..1 + NameLen(s[1..])]
  }

  function AfterFirst(s: string): string
    requires s != []
  {
    s[1 + NameLen(s[1..])..]
  }

  /** `s` is a run of "/name" segments, each name valid, with no empty segment and no trailing '/'. */
  predicate Segments(s: string)
    decreases |s|
  {
    s == [] || (s[0] == '/' && ValidName(FirstName(s)) && Segments(AfterFirst(s)))
  }

  /** The shape of a path that canonicalization produces: the root alone, or absolute segments. */
  predicate Canonical(p: string) {
    p == "/" || (p != [] && Segments(p))
  }

  /** A name followed by the end of the string or a separator is read back whole. */
  lemma {:induction false} NameLenOf(s: string, name: string)
    requires name <= s && '/' !in name
    requires |name| < |s| ==> s[|name|] == '/'
    ensures NameLen(s) == |name|
    decreases |name|
  {
    if name != [] {
      assert s[0] == name[0];
      NameLenOf(s[1..], name[1..]);
    }
  }

  /** Taking a non-empty run of segments apart at its first name. */
  lemma SegmentsSplit(s: string)
    requires Segments(s) && s != []
    ensures s == "/" + FirstName(s) + AfterFirst(s)
    ensures '/' !in FirstName(s) && ValidName(FirstName(s))
    ensures AfterFirst(s) == [] || AfterFirst(s)[0] == '/'
    ensures Segments(AfterFirst(s))
  {
    NameLenNoSeparator(s[1..]);
  }

  /** The components of a non-empty run of segments: its first name, then the rest. */
  lemma SegmentsUnfold(s: string)
    requires Segments(s) && s != []
    ensures Body(s) == [Normal(FirstName(s))] + Body(AfterFirst(s))
  {
    var t := s[1..];
    var n := NameLen(t);
    assert FirstName(s) == t[..n];
    assert AfterFirst(s) == t[n..];
    assert Body(s) == Body(t);
  }

  /** Putting a run of segments together from a first name and the rest. */
  lemma SegmentsCons(name: string, rest: string)
    requires ValidName(name) && '/' !in name && Segments(rest)
    ensures Segments("/" + name + rest)
    ensures FirstName("/" + name + rest) == name && AfterFirst("/" + name + rest) == rest
  {
    var s := "/" + name + rest;
    assert s[1..] == name + rest;
    NameLenOf(name + rest, name);
  }

  /** A single "/name" segment. */
  lemma SegmentsOfName(name: string)
    requires ValidName(name) && '/' !in name
    ensures Segments("/" + name)
  {
    SegmentsCons(name, "");
    assert "/" + name + "" == "/" + name;
  }

  /** A single segment, given as a separator followed by a valid name. */
  lemma SegmentOf(seg: string)
    requires |seg| > 1 && seg[0] == '/' && ValidName(seg[1..]) && '/' !in seg[1..]
    ensures Segments(seg)
  {
    SegmentsOfName(seg[1..]);
    assert "/" + seg[1..] == seg;
  }

  /** Two runs of segments one after the other form a run of segments. */
  lemma {:induction false} SegmentsAppend(s: string, t: string)
    requires Segments(s) && Segments(t)
    ensures Segments(s + t)
    decreases |s|
  {
    if s != [] {
      SegmentsSplit(s);
      var name, rest := FirstName(s), AfterFirst(s);
      SegmentsAppend(rest, t);
      SegmentsCons(name, rest + t);
      calc {
        s + t;
        ("/" + name + rest) + t;
        { AppendAssoc("/" + name, rest, t); }
        "/" + name + (rest + t);
      }
    } else {
      assert s + t == t;
    }
  }

  /** Extending the last name of a run of segments with more characters keeps it a run of segments. */
  lemma {:induction false} SegmentsExtendLast(s: string, more: string)
    requires Segments(s) && s != [] && more != [] && '/' !in more
    ensures Segments(s + more)
    decreases |s|
  {
    SegmentsSplit(s);
    var name, rest := FirstName(s), AfterFirst(s);
    assert ValidName(name + more) by {
      assert (name + more)[..|name|] == name;
    }
    if rest == [] {
      assert s + more == "/" + (name + more) + "";
      SegmentsCons(name + more, "");
    } else {
      SegmentsExtendLast(rest, more);
      assert s + more == "/" + name + (rest + more);
      SegmentsCons(name, rest + more);
    }
  }

  /**
   * On runs of segments the component-wise prefix test agrees with a string
   * prefix test that ends at a segment boundary: either both strings are the
   * same, or `t` continues `u` with a separator.
   */
  lemma {:induction false} SegmentsPrefix(t: string, u: string)
    requires Segments(t) && Segments(u)
    ensures Body(u) <= Body(t) <==> (t == u || u + "/" <= t)
    decreases |u|
  {
    if u == [] {
      assert Body(u) == [];
    } else if t == [] {
      SegmentsUnfold(u);
    } else {
      SegmentsSplit(t);
      SegmentsSplit(u);
      SegmentsPrefix(AfterFirst(t), AfterFirst(u));
      BodyPrefixStep(t, u);
      BoundaryPrefixStep(t, u);
    }
  }

  /** The component-wise prefix test, one leading name at a time. */
  lemma BodyPrefixStep(t: string, u: string)
    requires Segments(t) && Segments(u) && t != [] && u != []
    ensures Body(u) <= Body(t) <==>
      (FirstName(t) == FirstName(u) && Body(AfterFirst(u)) <= Body(AfterFirst(t)))
  {
    SegmentsUnfold(t);
    SegmentsUnfold(u);
    PrefixCons(Normal(FirstName(u)), Normal(FirstName(t)), Body(AfterFirst(u)), Body(AfterFirst(t)));
  }

  /** The boundary-ending string prefix test, one leading name at a time. */
  lemma BoundaryPrefixStep(t: string, u: string)
    requires Segments(t) && Segments(u) && t != [] && u != []
    ensures (t == u || u + "/" <= t) <==>
      (FirstName(t) == FirstName(u) &&
       (AfterFirst(t) == AfterFirst(u) || AfterFirst(u) + "/" <= AfterFirst(t)))
  {
    if u + "/" <= t {
      ContinuedSameFirstName(t, u);
    }
    if FirstName(t) == FirstName(u) {
      SameFirstNameRest(t, u);
    }
  }

  /** If `t` continues `u` past a separator, both start with the same name. */
  lemma ContinuedSameFirstName(t: string, u: string)
    requires Segments(t) && Segments(u) && t != [] && u != []
    requires u + "/" <= t
    ensures FirstName(t) == FirstName(u)
  {
    SegmentsSplit(u);
    var nu, u' := FirstName(u), AfterFirst(u);
    var w := t[1..];
    assert |u| == 1 + |nu| + |u'|;
    forall i | 0 <= i < |nu|
      ensures w[i] == nu[i]
    {
      assert w[i] == t[1 + i] == (u + "/")[1 + i] == u[1 + i];
    }
    assert w[|nu|] == '/' by {
      assert w[|nu|] == t[1 + |nu|] == (u + "/")[1 + |nu|];
      if u' != [] {
        assert u[1 + |nu|] == u'[0];
      }
    }
    assert nu <= w;
    NameLenOf(w, nu);
  }

  /** Once the first names agree, the comparison moves on to the rest. */
  lemma SameFirstNameRest(t: string, u: string)
    requires Segments(t) && Segments(u) && t != [] && u != []
    requires FirstName(t) == FirstName(u)
    ensures t == u <==> AfterFirst(t) == AfterFirst(u)
    ensures u + "/" <= t <==> AfterFirst(u) + "/" <= AfterFirst(t)
  {
    SegmentsSplit(t);
    SegmentsSplit(u);
    var a := "/" + FirstName(u);
    var t', u' := AfterFirst(t), AfterFirst(u);
    assert t == a + t';
    assert u == a + u';
    AppendAssoc(a, u', "/");
    PrefixCancel(a, u' + "/", t');
  }

  /** Prefix of a sequence with a given first element. */
  lemma PrefixCons<T>(a: T, b: T, x: seq<T>, y: seq<T>)
    ensures [a] + x <= [b] + y <==> a == b && x <= y
  {
    if [a] + x <= [b] + y {
      assert ([a] + x)[0] == ([b] + y)[0];
      PrefixCancel([a], x, y);
    }
    if a == b {
      PrefixCancel([a], x, y);
    }
  }

  lemma AppendAssoc<T>(a: seq<T>, b: seq<T>, c: seq<T>)
    ensures a + b + c == a + (b + c)
  {
  }

  /** A common front does not change whether one sequence is a prefix of another. */
  lemma PrefixCancel<T>(a: seq<T>, x: seq<T>, y: seq<T>)
    ensures a + x <= a + y <==> x <= y
  {
    if a + x <= a + y {
      assert x == (a + x)[|a|..];
      assert (a + y)[|a|..] == y;
    }
  }

  /**
   * `Path::starts_with` of a canonical path against a canonical, non-root base:
   * the path is the base itself, or lies below it ("base/..."). A sibling whose
   * name merely extends the base's last name is not a match.
   */
  lemma CanonicalStartsWith(p: string, base: string)
    requires Canonical(p) && Segments(base) && base != []
    ensures StartsWith(p, base) <==> (p == base || base + "/" <= p)
  {
    SegmentsUnfold(base);
    assert Components(base) == [RootDir] + Body(base);
    if p == "/" {
      assert Components(p) == [RootDir];
    } else {
      assert Components(p) == [RootDir] + Body(p);
      SegmentsPrefix(p, base);
      PrefixCancel([RootDir], Body(base), Body(p));
    }
  }

  /** Everything below a canonical directory starts with it. */
  lemma BelowStartsWith(dir: string, rest: string)
    requires Segments(dir) && dir != [] && Segments(rest) && rest != []
    ensures StartsWith(dir + rest, dir)
  {
    SegmentsAppend(dir, rest);
    SegmentsSplit(rest);
    assert dir + "/" <= dir + rest;
    CanonicalStartsWith(dir + rest, dir);
  }

  /**
   * A sibling of a canonical directory whose last name merely extends the
   * directory's last name does not start with it, whatever lies below it.
   */
  lemma SiblingNotStartsWith(dir: string, more: string, rest: string)
    requires Segments(dir) && dir != [] && more != [] && '/' !in more && Segments(rest)
    ensures !StartsWith(dir + more + rest, dir)
  {
    SegmentsExtendLast(dir, more);
    SegmentsAppend(dir + more, rest);
    var p := dir + more + rest;
    CanonicalStartsWith(p, dir);
    assert p[|dir|] == more[0];
    assert more[0] in more;
  }

  /** No canonical path shorter than a canonical directory starts with it. */
  lemma ShorterNotStartsWith(p: string, dir: string)
    requires Canonical(p) && Segments(dir) && dir != [] && |p| < |dir|
    ensures !StartsWith(p, dir)
  {
    CanonicalStartsWith(p, dir);
  }
}
