/** Shared vocabulary: optional values and results, the byte order of strings, and lexical paths. */
module Core {

  /** Every operation on this type is proved to stay within 64 bits. */
  newtype UInt64 = x: int | 0 <= x < 0x1_0000_0000_0000_0000

  datatype Option<+T> = None | Some(value: T)

  datatype Result<+T, +E> = Ok(value: T) | Err(error: E)

  // ---- the order std::string compares by ----

  predicate Less(a: string, b: string) {
    b != [] && (a == [] || a[0] < b[0] || (a[0] == b[0] && Less(a[1..], b[1..])))
  }

  lemma {:induction false} LessIrreflexive(a: string)
    ensures !Less(a, a)
  {
    if a != [] {
      LessIrreflexive(a[1..]);
    }
  }

  lemma {:induction false} LessTransitive(a: string, b: string, c: string)
    requires Less(a, b) && Less(b, c)
    ensures Less(a, c)
  {
    if a != [] && a[0] == b[0] && b[0] == c[0] {
      LessTransitive(a[1..], b[1..], c[1..]);
    }
  }

  lemma {:induction false} LessTotal(a: string, b: string)
    ensures Less(a, b) || a == b || Less(b, a)
  {
    if a != [] && b != [] && a[0] == b[0] {
      LessTotal(a[1..], b[1..]);
      if a[1..] == b[1..] {
        assert a == [a[0]] + a[1..] == [b[0]] + b[1..] == b;
      }
    }
  }

  /** Comparing two concatenations of equally long heads: the heads decide unless they are equal. */
  lemma {:induction false} LessConcat(a: string, b: string, c: string, d: string)
    requires |a| == |c|
    ensures Less(a + b, c + d) <==> Less(a, c) || (a == c && Less(b, d))
  {
    if a == [] {
      assert a + b == b && c + d == d;
    } else {
      assert (a + b)[1..] == a[1..] + b && (c + d)[1..] == c[1..] + d;
      LessConcat(a[1..], b, c[1..], d);
      assert a == [a[0]] + a[1..] && c == [c[0]] + c[1..];
    }
  }

  // ---- absolute paths ----

  /** The components after the root directory. A last component "" is a trailing separator. */
  type Path = seq<string>

  predicate Plain(name: string) {
    name != "" && name != "." && name != ".."
  }

  function Filename(p: Path): string {
    if p == [] then "" else p[|p| - 1]
  }

  /** operator/: appending replaces the empty last component of a path with a trailing separator. */
  function Join(dir: Path, name: string): Path {
    if dir != [] && dir[|dir| - 1] == "" then dir[..|dir| - 1] + [name] else dir + [name]
  }

  function PathText(p: Path): string {
    if p == [] then "" else "/" + p[0] + PathText(p[1..])
  }

  function Resolve(done: Path, rest: Path): Path
    decreases |rest|
  {
    if rest == [] then done
    else if rest[0] == "" || rest[0] == "." then Resolve(done, rest[1..])
    else if rest[0] == ".." then Resolve(if done == [] then [] else done[..|done| - 1], rest[1..])
    else Resolve(done + [rest[0]], rest[1..])
  }

  /** std::filesystem::path::lexically_normal of an absolute path. */
  function Normal(p: Path): Path {
    var names := Resolve([], p);
    if names != [] && !Plain(Filename(p)) then names + [""] else names
  }

  /** path_is_within: the normal base is a component-wise prefix of the normal candidate. */
  predicate Within(candidate: Path, base: Path) {
    Normal(base) <= Normal(candidate)
  }

  /** A directory path as the configuration accepts it, in normal form and without a trailing separator. */
  predicate Canonical(p: Path) {
    forall i :: 0 <= i < |p| ==> Plain(p[i])
  }

  lemma {:induction false} ResolvePlain(done: Path, rest: Path)
    requires Canonical(rest)
    ensures Resolve(done, rest) == done + rest
    decreases |rest|
  {
    if rest != [] {
      ResolvePlain(done + [rest[0]], rest[1..]);
      assert done + [rest[0]] + rest[1..] == done + rest;
    }
  }

  lemma CanonicalIsNormal(p: Path)
    requires Canonical(p)
    ensures Normal(p) == p
  {
    ResolvePlain([], p);
    assert [] + p == p;
  }

  /** Appending the empty component that a trailing separator leaves changes no name. */
  lemma ResolveTrailing(p: Path)
    requires Canonical(p)
    ensures Resolve([], p + [""]) == p
  {
    ResolveThenEmpty([], p);
  }

  lemma {:induction false} ResolveThenEmpty(done: Path, rest: Path)
    requires Canonical(rest)
    ensures Resolve(done, rest + [""]) == done + rest
    decreases |rest|
  {
    if rest == [] {
      assert rest + [""] == [""];
      assert Resolve(done, [""]) == Resolve(done, [""][1..]);
    } else {
      assert (rest + [""])[1..] == rest[1..] + [""];
      ResolveThenEmpty(done + [rest[0]], rest[1..]);
      assert done + [rest[0]] + rest[1..] == done + rest;
    }
  }
}
