/**
 * The part of the filesystem the resolver touches: which directories exist,
 * and os.makedirs, which creates a directory and its missing ancestors.
 */
module Disk {
  import opened Types
  import opened OsPath

  class FileSystem {
    /** The directories that exist. */
    var dirs: set<string>
    /** The directories the operating system refuses to create (no permission, read-only, ...). */
    const denied: set<string>

    constructor (existing: set<string>, refused: set<string>)
      ensures dirs == existing && denied == refused
    {
      dirs := existing;
      denied := refused;
    }

    /** os.path.exists(p). */
    predicate Exists(p: string)
      reads this
    {
      p in dirs
    }

    /**
     * os.makedirs(p): raises when p already exists, or when the system
     * refuses p or one of the missing ancestors it has to make on the way;
     * otherwise p and its missing ancestors exist afterwards.
     */
    method MakeDirs(f: Flavour, p: string) returns (ok: bool)
      modifies this
      ensures ok <==> p !in old(dirs) && !Refuses(denied, old(dirs), f, p)
      ensures dirs == if ok then old(dirs) + {p} + Parents(f, p) else old(dirs)
    {
      ok := p !in dirs && p !in denied && (Parents(f, p) - dirs) !! denied;
      if ok {
        dirs := dirs + {p} + Parents(f, p);
      }
    }
  }

  /**
   * Making p, when the directories in `dirs` exist, needs a mkdir the system
   * refuses: of p itself or of one of its missing ancestors.
   */
  predicate Refuses(denied: set<string>, dirs: set<string>, f: Flavour, p: string)
  {
    p in denied || !((Parents(f, p) - dirs) !! denied)
  }

  /** Every directory that creating all of ps can bring into existence. */
  function Footprint(f: Flavour, ps: seq<string>): set<string>
  {
    if ps == [] then {}
    else Footprint(f, ps[..|ps| - 1]) + {ps[|ps| - 1]} + Parents(f, ps[|ps| - 1])
  }

  /** Where a run of makedirs steps has got to: the directories that exist, and the index it stopped at, if any. */
  datatype Progress = Progress(dirs: set<string>, stoppedAt: Option<nat>)

  /**
   * The reference for `if create and not os.path.exists(p): os.makedirs(p)`
   * over ps in order, from the directories `dirs`: a path that exists is
   * skipped, a missing one is made with its ancestors, and the first one
   * whose making is refused stops the run with nothing more made.
   */
  ghost function MakeAll(dirs: set<string>, denied: set<string>, f: Flavour, ps: seq<string>): (r: Progress)
    ensures dirs <= r.dirs
    ensures r.stoppedAt.Some? ==> r.stoppedAt.value < |ps|
    decreases |ps|
  {
    if ps == [] then Progress(dirs, None)
    else
      var before := MakeAll(dirs, denied, f, ps[..|ps| - 1]);
      var p := ps[|ps| - 1];
      if before.stoppedAt.Some? || p in before.dirs then before
      else if Refuses(denied, before.dirs, f, p) then Progress(before.dirs, Some(|ps| - 1))
      else Progress(before.dirs + {p} + Parents(f, p), None)
  }

  /** A run that stopped within the first n paths ends there, whatever follows. */
  lemma {:induction false} MakeAllStopped(dirs: set<string>, denied: set<string>, f: Flavour, ps: seq<string>, n: nat)
    requires n <= |ps| && MakeAll(dirs, denied, f, ps[..n]).stoppedAt.Some?
    ensures MakeAll(dirs, denied, f, ps) == MakeAll(dirs, denied, f, ps[..n])
    decreases |ps| - n
  {
    if n < |ps| {
      var init := ps[..|ps| - 1];
      assert init[..n] == ps[..n];
      MakeAllStopped(dirs, denied, f, init, n);
    } else {
      assert ps[..n] == ps;
    }
  }

  /** One more path of ps extends the run by one step. */
  lemma MakeAllTake(dirs: set<string>, denied: set<string>, f: Flavour, ps: seq<string>, i: nat)
    requires i < |ps|
    ensures var before := MakeAll(dirs, denied, f, ps[..i]);
      MakeAll(dirs, denied, f, ps[..i + 1]) ==
        if before.stoppedAt.Some? || ps[i] in before.dirs then before
        else if Refuses(denied, before.dirs, f, ps[i]) then Progress(before.dirs, Some(i))
        else Progress(before.dirs + {ps[i]} + Parents(f, ps[i]), None)
  {
    assert ps[..i + 1][..i] == ps[..i];
  }

  /** A run only makes final paths and their ancestors. */
  lemma {:induction false} MakeAllBound(dirs: set<string>, denied: set<string>, f: Flavour, ps: seq<string>)
    ensures MakeAll(dirs, denied, f, ps).dirs <= dirs + Footprint(f, ps)
  {
    if ps != [] {
      MakeAllBound(dirs, denied, f, ps[..|ps| - 1]);
    }
  }

  /** A run that does not stop leaves every path of ps in place. */
  lemma {:induction false} MakeAllMade(dirs: set<string>, denied: set<string>, f: Flavour, ps: seq<string>)
    ensures var r := MakeAll(dirs, denied, f, ps);
      r.stoppedAt.None? ==> forall p :: p in ps ==> p in r.dirs
  {
    if ps != [] {
      var init := ps[..|ps| - 1];
      MakeAllMade(dirs, denied, f, init);
      assert ps == init + [ps[|ps| - 1]];
    }
  }

  /** When every path of ps exists already, the run changes nothing and does not stop. */
  lemma {:induction false} MakeAllExisting(dirs: set<string>, denied: set<string>, f: Flavour, ps: seq<string>)
    requires forall p :: p in ps ==> p in dirs
    ensures MakeAll(dirs, denied, f, ps) == Progress(dirs, None)
  {
    if ps != [] {
      var init := ps[..|ps| - 1];
      assert forall p :: p in init ==> p in ps;
      MakeAllExisting(dirs, denied, f, init);
      assert ps[|ps| - 1] in ps;
    }
  }

  /**
   * A run that stops at i got through the paths before i, found ps[i]
   * missing and refused, and made nothing after that.
   */
  lemma {:induction false} MakeAllStopIndex(dirs: set<string>, denied: set<string>, f: Flavour, ps: seq<string>)
    requires MakeAll(dirs, denied, f, ps).stoppedAt.Some?
    ensures var i := MakeAll(dirs, denied, f, ps).stoppedAt.value;
      var before := MakeAll(dirs, denied, f, ps[..i]);
      && before.stoppedAt.None?
      && ps[i] !in before.dirs
      && Refuses(denied, before.dirs, f, ps[i])
      && MakeAll(dirs, denied, f, ps).dirs == before.dirs
  {
    var init := ps[..|ps| - 1];
    var before := MakeAll(dirs, denied, f, init);
    if before.stoppedAt.Some? {
      MakeAllStopIndex(dirs, denied, f, init);
      var i := before.stoppedAt.value;
      assert init[..i] == ps[..i] && init[i] == ps[i];
    } else {
      assert ps[..|ps| - 1] == init;
    }
  }

  /** The footprint of a prefix of ps lies in the footprint of ps. */
  lemma {:induction false} FootprintPrefix(f: Flavour, ps: seq<string>, i: nat)
    requires i <= |ps|
    ensures Footprint(f, ps[..i]) <= Footprint(f, ps)
  {
    if i < |ps| {
      FootprintPrefix(f, ps[..|ps| - 1], i);
      assert ps[..|ps| - 1][..i] == ps[..i];
    } else {
      assert ps[..i] == ps;
    }
  }

  /** Each path of ps, with its ancestors, lies in the footprint of ps. */
  lemma {:induction false} FootprintHas(f: Flavour, ps: seq<string>, i: nat)
    requires i < |ps|
    ensures {ps[i]} + Parents(f, ps[i]) <= Footprint(f, ps)
  {
    if i < |ps| - 1 {
      FootprintHas(f, ps[..|ps| - 1], i);
    }
  }
}
