/**
 * The string operations of Python's os.path and str that the resolver uses:
 * os.path.join (posixpath and, without drive letters, ntpath),
 * str.rstrip of one character, str.split and str.join on one separator
 * character, os.path.expanduser with the home directory given, and the
 * parent directories os.makedirs creates on the way to a path.
 */
module OsPath {

  /** Which os.path module is in use: posixpath on macOS and Linux, ntpath on Windows. */
  datatype Flavour = Posix | Nt

  /** The characters the flavour treats as directory separators. */
  function Seps(f: Flavour): set<char>
  {
    match f
    case Posix => {'/'}
    case Nt => {'\\', '/'}
  }

  /** os.sep: the separator os.path.join inserts. */
  function Sep(f: Flavour): (c: char)
    ensures c in Seps(f)
  {
    match f
    case Posix => '/'
    case Nt => '\\'
  }

  /**
   * os.path.join(a, b). An absolute b replaces a; otherwise b is appended,
   * with one separator between them unless a is empty or already ends in one.
   */
  function Join(f: Flavour, a: string, b: string): string
  {
    if |b| > 0 && b[0] in Seps(f) then b
    else if a == [] || a[|a| - 1] in Seps(f) then a + b
    else a + [Sep(f)] + b
  }

  /** s is the last path component of p: p ends in s, right after a separator or at its start. */
  predicate LastSegment(f: Flavour, p: string, s: string)
  {
    |p| >= |s| && p[|p| - |s|..] == s && (|p| == |s| || p[|p| - |s| - 1] in Seps(f))
  }

  /**
   * The result of os.path.join(a, b) always has b as its last path
   * component, and a relative b keeps a in front of it.
   */
  lemma JoinLast(f: Flavour, a: string, b: string)
    ensures LastSegment(f, Join(f, a, b), b)
    ensures var r := Join(f, a, b);
      (|b| == 0 || b[0] !in Seps(f)) && a != [] ==> |r| >= |a| && r[..|a|] == a
  {
  }

  /**
   * s.rstrip(c): the longest prefix of s that does not end in c, so that
   * only copies of c were removed.
   */
  function RStrip(s: string, c: char): (r: string)
    ensures r <= s
    ensures r == [] || r[|r| - 1] != c
    ensures forall i :: |r| <= i < |s| ==> s[i] == c
  {
    if s == [] || s[|s| - 1] != c then s
    else RStrip(s[..|s| - 1], c)
  }

  /**
   * s.split(d) for a one-character separator d: the pieces between the
   * occurrences of d, in order. There is always at least one piece
   * ("".split(d) is [""]).
   */
  function Split(s: string, d: char): (r: seq<string>)
    ensures |r| >= 1
  {
    if s == [] then [""]
    else
      var rest := Split(s[1..], d);
      if s[0] == d then [""] + rest
      else [[s[0]] + rest[0]] + rest[1..]
  }

  /** d.join(parts) for a one-character separator d. */
  function JoinWith(parts: seq<string>, d: char): string
  {
    if parts == [] then ""
    else if |parts| == 1 then parts[0]
    else parts[0] + [d] + JoinWith(parts[1..], d)
  }

  /**
   * posixpath.expanduser with the current user's home directory given:
   * a leading "~" or "~/" is replaced by the home directory with its
   * trailing slashes removed ("/" if that leaves nothing). Any other path,
   * including "~name/...", is returned unchanged.
   */
  function ExpandUser(home: string, p: string): string
  {
    if p == [] || p[0] != '~' then p
    else if |p| > 1 && p[1] != '/' then p
    else
      var s := RStrip(home, '/') + p[1..];
      if s == [] then "/" else s
  }

  /** "~" followed by an absolute rest expands to the home directory, trailing slashes dropped, then the rest. */
  lemma ExpandHome(home: string, rest: string)
    requires rest != [] && rest[0] == '/'
    ensures ExpandUser(home, "~" + rest) == RStrip(home, '/') + rest
  {
    assert ("~" + rest)[1..] == rest;
  }

  /**
   * The ancestors of p that os.makedirs(p) creates when they are missing:
   * every prefix of p that ends just before a run of separators.
   */
  function Parents(f: Flavour, p: string): (r: set<string>)
    ensures forall q :: q in r ==> q < p && q != [] && q[|q| - 1] !in Seps(f) && p[|q|] in Seps(f)
  {
    set i | 0 < i < |p| && p[i] in Seps(f) && p[i - 1] !in Seps(f) :: p[..i]
  }

  /** There are two or more pieces exactly when d occurs in s. */
  lemma {:induction false} SplitMany(s: string, d: char)
    ensures |Split(s, d)| >= 2 <==> d in s
  {
    if s != [] && s[0] != d {
      SplitMany(s[1..], d);
      assert d in s <==> d in s[1..];
    }
  }

  /** Every piece of Split(s, d) is free of d. */
  lemma {:induction false} SplitPiecesFree(s: string, d: char)
    ensures forall k :: 0 <= k < |Split(s, d)| ==> d !in Split(s, d)[k]
  {
    if s != [] {
      SplitPiecesFree(s[1..], d);
    }
  }

  /** Splitting and joining back on the same separator gives the original string. */
  lemma {:induction false} JoinSplit(s: string, d: char)
    ensures JoinWith(Split(s, d), d) == s
  {
    if s != [] {
      var rest := Split(s[1..], d);
      JoinSplit(s[1..], d);
      if s[0] == d {
        assert Split(s, d) == [""] + rest;
        assert ([""] + rest)[1..] == rest;
      } else {
        var parts := [[s[0]] + rest[0]] + rest[1..];
        assert Split(s, d) == parts;
        if |rest| == 1 {
          assert JoinWith(rest, d) == rest[0];
        } else {
          assert parts[1..] == rest[1..];
          assert JoinWith(rest, d) == rest[0] + [d] + JoinWith(rest[1..], d);
        }
      }
    }
  }

  /**
   * Joining non-empty-listed pieces that do not contain d and splitting
   * again gives back exactly those pieces, in order.
   */
  lemma {:induction false} SplitJoin(parts: seq<string>, d: char)
    requires |parts| >= 1
    requires forall k :: 0 <= k < |parts| ==> d !in parts[k]
    ensures Split(JoinWith(parts, d), d) == parts
  {
    if |parts| == 1 {
      SplitFree(parts[0], d);
    } else {
      SplitJoin(parts[1..], d);
      SplitPrefix(parts[0], JoinWith(parts[1..], d), d);
    }
  }

  /** A string without d splits into itself alone. */
  lemma {:induction false} SplitFree(s: string, d: char)
    requires d !in s
    ensures Split(s, d) == [s]
  {
    if s != [] {
      SplitFree(s[1..], d);
      assert [s[0]] + s[1..] == s;
    }
  }

  /** Splitting p + d + t, for p free of d, puts p in front of the pieces of t. */
  lemma {:induction false} SplitPrefix(p: string, t: string, d: char)
    requires d !in p
    ensures Split(p + [d] + t, d) == [p] + Split(t, d)
  {
    if p == [] {
      assert p + [d] + t == [d] + t;
      assert ([d] + t)[1..] == t;
    } else {
      SplitPrefix(p[1..], t, d);
      assert (p + [d] + t)[1..] == p[1..] + [d] + t;
      assert [p[0]] + p[1..] == p;
    }
  }
}
