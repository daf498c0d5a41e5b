/** Slash-separated paths as Go's `path` package builds them for the
    certificate buddy, and the decimal rendering of `%d` used in the
    numbered certificate file names. Paths are taken to be clean already
    (no trailing slash, no `.` or `..` segments), so `path.Join` reduces to
    putting one slash between a non-empty directory and a name. */
module Paths {

  /** path.Join(dir, name) for a clean dir and a name. */
  function Join(dir: string, name: string): string
  {
    if dir == "" then name else dir + "/" + name
  }

  /** Index of the last slash in p, or -1 when there is none. */
  function LastSlash(p: string): (r: int)
    ensures -1 <= r < |p|
    decreases |p|
  {
    if |p| == 0 then -1
    else if p[|p| - 1] == '/' then |p| - 1
    else LastSlash(p[..|p| - 1])
  }

  /** filepath.Dir: everything before the last slash; "" stands for the
      current directory (Go's "."), which always exists. */
  function Dir(p: string): string
  {
    var k := LastSlash(p);
    if k < 0 then "" else p[..k]
  }

  /** A single path component: a name with no separator in it. */
  predicate IsName(s: string)
  {
    '/' !in s
  }

  /** Joining with the same directory is injective in the name. */
  lemma JoinCancel(dir: string, a: string, b: string)
    requires Join(dir, a) == Join(dir, b)
    ensures a == b
  {
    if dir != "" {
      assert a == Join(dir, a)[|dir| + 1..];
      assert b == Join(dir, b)[|dir| + 1..];
    }
  }

  /** Two joined paths that end in single components are equal only when
      both the directories and the components are. */
  lemma {:induction false} JoinComponents(d1: string, n1: string, d2: string, n2: string)
    requires IsName(n1) && IsName(n2)
    requires Join(d1, n1) == Join(d2, n2)
    ensures d1 == d2 && n1 == n2
  {
    var s := Join(d1, n1);
    LastSlashOfJoin(d1, n1);
    LastSlashOfJoin(d2, n2);
    if d1 != "" {
      assert d1 == s[..|d1|] == d2;
    }
    JoinCancel(d1, n1, n2);
  }

  /** The last slash of dir/name is the one Join put there. */
  lemma LastSlashOfJoin(dir: string, name: string)
    requires IsName(name)
    ensures LastSlash(Join(dir, name)) == if dir == "" then -1 else |dir|
  {
    LastSlashSkipsName(Join(dir, name), |Join(dir, name)| - |name|);
    if dir != "" {
      assert Join(dir, name)[..|dir| + 1] == dir + "/";
    } else {
      LastSlashNone(name);
    }
  }

  /** Characters after position k that are not slashes do not move the last slash. */
  lemma {:induction false} LastSlashSkipsName(p: string, k: nat)
    requires k <= |p|
    requires forall i :: k <= i < |p| ==> p[i] != '/'
    ensures LastSlash(p) == LastSlash(p[..k])
    decreases |p|
  {
    if |p| > k {
      assert p[..|p| - 1][..k] == p[..k];
      LastSlashSkipsName(p[..|p| - 1], k);
    } else {
      assert p[..k] == p;
    }
  }

  /** filepath.Dir of a joined path is the directory it was joined to. */
  lemma DirOfJoin(dir: string, name: string)
    requires IsName(name)
    ensures Dir(Join(dir, name)) == dir
  {
    LastSlashOfJoin(dir, name);
  }

  lemma LastSlashNone(name: string)
    requires IsName(name)
    ensures LastSlash(name) == -1
  {
    LastSlashSkipsName(name, 0);
  }

  function Digit(d: nat): (c: char)
    requires d < 10
    ensures '0' <= c <= '9'
  {
    (('0' as int) + d) as char
  }

  /** fmt.Sprintf("%d", n) for a non-negative n. */
  function Decimal(n: nat): (r: string)
    decreases n
  {
    if n < 10 then [Digit(n)] else Decimal(n / 10) + [Digit(n % 10)]
  }

  /** The rendering is a non-empty string of digits; it has two or more
      digits exactly when n is at least 10. */
  lemma {:induction false} DecimalShape(n: nat)
    ensures |Decimal(n)| >= 1
    ensures (|Decimal(n)| == 1) <==> n < 10
    ensures forall i :: 0 <= i < |Decimal(n)| ==> '0' <= Decimal(n)[i] <= '9'
    decreases n
  {
    if n >= 10 {
      DecimalShape(n / 10);
    }
  }

  lemma DecimalIsName(n: nat)
    ensures IsName(Decimal(n))
  {
    DecimalShape(n);
  }

  /** Different numbers render differently, so numbered file names never
      collide. */
  lemma {:induction false} DecimalInjective(m: nat, n: nat)
    requires Decimal(m) == Decimal(n)
    ensures m == n
    decreases m
  {
    DecimalShape(m);
    DecimalShape(n);
    if m >= 10 && n >= 10 {
      var dm, dn := Decimal(m), Decimal(n);
      assert dm[|dm| - 1] == Digit(m % 10);
      assert dn[|dn| - 1] == Digit(n % 10);
      assert Decimal(m / 10) == dm[..|dm| - 1] == dn[..|dn| - 1] == Decimal(n / 10);
      DecimalInjective(m / 10, n / 10);
    } else if m < 10 && n < 10 {
      assert Decimal(m)[0] == Digit(m);
    }
  }
}
