/**
 * dwave_appdirs: the maintained resolver. _get_folder picks the base folders
 * (a virtualenv sub-folder for user categories, otherwise the platform
 * convention), appends the app name and, when given, the version, and with
 * `create` makes every resulting directory that does not exist yet.
 */
module DwaveAppdirs {
  import opened Types
  import opened OsPath
  import opened Host
  import opened Convention
  import opened Disk

  /**
   * folder_type.split('_')[1]: IndexError exactly when the tag has no '_',
   * otherwise the '_'-free word after the first '_'.
   */
  function SubFolder(folderType: string): (r: Result<string>)
    ensures r.Err? <==> '_' !in folderType
    ensures r.Err? ==> r.error == IndexError
    ensures r.Ok? ==> '_' !in r.value
  {
    var parts := Split(folderType, '_');
    SplitPiecesFree(folderType, '_');
    SplitMany(folderType, '_');
    if |parts| < 2 then Err(IndexError) else Ok(parts[1])
  }

  /**
   * The base folders of _get_folder. A user category inside a virtualenv
   * (when use_virtualenv is set) gets sys.prefix joined with the text after
   * the '_' of its tag; everything else gets the platform convention.
   */
  function BasePaths(c: Category, appAuthor: Option<string>, roaming: bool, useVirtualenv: bool, h: Host)
    : (r: Result<seq<string>>)
    ensures r.Ok? ==> |r.value| >= 1
  {
    var folderType := Tag(c);
    if !("site" <= folderType) && useVirtualenv && InVirtualenv(h.interp) then
      var sub :- SubFolder(folderType);
      Ok([Join(FlavourOf(DetectPlatform(h.platform)), h.interp.prefix, sub)])
    else
      PlatformBase(folderType, appAuthor, roaming, h)
  }

  /** One final path: the base joined with the app name, then with the version unless it is None. */
  function AppPath(f: Flavour, base: string, appName: string, version: Option<string>): string
  {
    var p := Join(f, base, appName);
    if version.Some? then Join(f, p, version.value) else p
  }

  /** The final_paths list the loop of _get_folder builds, one append per base folder. */
  function FinalPaths(f: Flavour, paths: seq<string>, appName: string, version: Option<string>)
    : (r: seq<string>)
    ensures |r| == |paths|
  {
    if paths == [] then []
    else FinalPaths(f, paths[..|paths| - 1], appName, version)
         + [AppPath(f, paths[|paths| - 1], appName, version)]
  }

  /**
   * The outcome of the loop of _get_folder when no directory creation fails:
   * TypeError when app_name is None (os.path.join rejects it), otherwise
   * the final paths.
   */
  function Joined(f: Flavour, paths: seq<string>, appName: Option<string>, version: Option<string>)
    : (r: Result<seq<string>>)
    ensures r.Err? <==> appName.None?
    ensures r.Err? ==> r.error == TypeError
    ensures r.Ok? ==> |r.value| == |paths|
  {
    if appName.None? then Err(TypeError) else Ok(FinalPaths(f, paths, appName.value, version))
  }

  /**
   * What _get_folder returns when no directory creation fails: the error of
   * the base selection, or the outcome of joining the app name and version
   * onto each base folder.
   */
  function Resolve(c: Category, appName: Option<string>, appAuthor: Option<string>,
                   version: Option<string>, roaming: bool, useVirtualenv: bool, h: Host)
    : (r: Result<seq<string>>)
    ensures r.Ok? ==> |r.value| >= 1
  {
    var paths :- BasePaths(c, appAuthor, roaming, useVirtualenv, h);
    Joined(FlavourOf(DetectPlatform(h.platform)), paths, appName, version)
  }

  /**
   * How the result of _get_folder relates to Resolve: equal to it, except
   * that with `create` a directory the system refuses to create ends the
   * call with an OSError.
   */
  predicate AllOf(r: Result<seq<string>>, want: Result<seq<string>>, create: bool)
  {
    && (want.Err? ==> r == want)
    && (!create ==> r == want)
    && (r.Ok? ==> r == want)
    && (r.Err? && want.Ok? ==> create && r.error.OSError? && r.error.path in want.value)
  }

  /** How a single-path accessor's result relates to Resolve: its first path, or the same error. */
  predicate FirstOf(r: Result<string>, want: Result<seq<string>>, create: bool)
  {
    && (want.Err? ==> r == Err(want.error))
    && (!create && want.Ok? && |want.value| >= 1 ==> r == Ok(want.value[0]))
    && (r.Ok? ==> want.Ok? && |want.value| >= 1 && r.value == want.value[0])
    && (r.Err? && want.Ok? ==> create && r.error.OSError? && r.error.path in want.value)
  }

  /** The directory an OSError names, when the call ended with one. */
  function RefusedPath<T>(r: Result<T>): (p: Option<string>)
    ensures p.Some? <==> r.Err? && r.error.OSError?
  {
    if r.Err? && r.error.OSError? then Some(r.error.path) else None
  }

  /**
   * The loop stopped at all[i], `before` and `after` being the directories
   * that existed before the call and exist when it raises: every earlier
   * path exists, all[i] does not and needs a mkdir the system refuses, and
   * only the earlier paths and their ancestors have been created.
   */
  ghost predicate StopsAt(before: set<string>, after: set<string>, denied: set<string>, fl: Flavour,
                          all: seq<string>, i: int)
  {
    && 0 <= i < |all|
    && (forall j :: 0 <= j < i ==> all[j] in after)
    && all[i] !in after
    && Refuses(denied, after, fl, all[i])
    && after <= before + Footprint(fl, all[..i])
  }

  /**
   * What _get_folder does to the directories, for the outcome `want` of
   * Resolve and the directory `refused` of the OSError the call raised, if
   * any. Existing directories stay. Without `create`, or when the base
   * selection or the join fails, nothing changes and no OSError occurs.
   * Nothing but the final paths and their ancestors is created, and when
   * every final path exists already nothing changes. A call that
   * succeeds with `create` leaves every final path in place, and one that
   * raises has stopped at the first final path it could not make.
   */
  ghost predicate Effect(before: set<string>, after: set<string>, denied: set<string>, fl: Flavour,
                         want: Result<seq<string>>, create: bool, refused: Option<string>)
  {
    && before <= after
    && (!create || want.Err? ==> after == before && refused.None?)
    && (want.Ok? ==> after <= before + Footprint(fl, want.value))
    && (want.Ok? && (forall p :: p in want.value ==> p in before) ==> after == before && refused.None?)
    && (want.Ok? && create && refused.None? ==> forall p :: p in want.value ==> p in after)
    && (refused.Some? ==>
          (want.Ok? && exists i :: StopsAt(before, after, denied, fl, want.value, i) && want.value[i] == refused.value))
    && (want.Ok? && create ==> Follows(before, after, denied, fl, want.value, refused))
  }

  /**
   * With `create`, the call does exactly what MakeAll does over the final
   * paths: the same directories afterwards, and an OSError exactly when
   * MakeAll stops, naming the path it stopped at.
   */
  ghost predicate Follows(before: set<string>, after: set<string>, denied: set<string>, fl: Flavour,
                          all: seq<string>, refused: Option<string>)
  {
    var run := MakeAll(before, denied, fl, all);
    && after == run.dirs
    && (refused.Some? <==> run.stoppedAt.Some?)
    && (refused.Some? ==> refused.value == all[run.stoppedAt.value])
  }

  /**
   * _get_folder: the paths of Resolve, except that with `create` the first
   * final path the system refuses to make ends the call with an OSError
   * naming it; Effect says what happens to the directories.
   */
  method GetFolder(fs: FileSystem, c: Category, appName: Option<string>, appAuthor: Option<string>,
                   version: Option<string>, roaming: bool, useVirtualenv: bool, create: bool, h: Host)
    returns (r: Result<seq<string>>)
    modifies fs
    ensures AllOf(r, Resolve(c, appName, appAuthor, version, roaming, useVirtualenv, h), create)
    ensures Effect(old(fs.dirs), fs.dirs, fs.denied, FlavourOf(DetectPlatform(h.platform)),
                   Resolve(c, appName, appAuthor, version, roaming, useVirtualenv, h), create, RefusedPath(r))
  {
    var base := BasePaths(c, appAuthor, roaming, useVirtualenv, h);
    if base.Err? {
      return Err(base.error);
    }
    if appName.None? {
      // the first os.path.join(path, None) raises; the base list is never empty
      return Err(TypeError);
    }
    var fl := FlavourOf(DetectPlatform(h.platform));
    FinalPathsAt(fl, base.value, appName.value, version);
    r := JoinAndCreate(fs, fl, base.value, appName.value, version, create,
                       FinalPaths(fl, base.value, appName.value, version));
  }

  /**
   * The loop of _get_folder over the base folders: join the app name and
   * version onto each, create it when asked and missing, and collect it.
   * `all` is the list of every final path, which the loop either returns
   * whole or abandons at the first directory the system refuses.
   */
  method JoinAndCreate(fs: FileSystem, fl: Flavour, paths: seq<string>, appName: string,
                       version: Option<string>, create: bool, ghost all: seq<string>)
    returns (r: Result<seq<string>>)
    requires |all| == |paths|
    requires forall k :: 0 <= k < |paths| ==> all[k] == AppPath(fl, paths[k], appName, version)
    modifies fs
    ensures r.Ok? ==> r.value == all
    ensures r.Err? ==> r.error.OSError?
    ensures Effect(old(fs.dirs), fs.dirs, fs.denied, fl, Ok(all), create, RefusedPath(r))
  {
    ghost var dirs0 := fs.dirs;
    var finalPaths: seq<string> := [];
    var i := 0;
    while i < |paths|
      invariant 0 <= i <= |paths|
      invariant finalPaths == all[..i]
      invariant !create ==> fs.dirs == dirs0
      invariant create ==> MakeAll(dirs0, fs.denied, fl, all[..i]) == Progress(fs.dirs, None)
    {
      var finalPath := Join(fl, paths[i], appName);
      if version.Some? {
        finalPath := Join(fl, finalPath, version.value);
      }
      assert finalPath == all[i];
      MakeAllTake(dirs0, fs.denied, fl, all, i);
      var ok := EnsureDir(fs, fl, finalPath, create);
      if !ok {
        MakeAllStopped(dirs0, fs.denied, fl, all, i + 1);
        EffectOfStop(dirs0, fs.dirs, fs.denied, fl, all, i);
        return Err(OSError(finalPath));
      }
      TakeOneMore(all, i);
      finalPaths := finalPaths + [finalPath];
      i := i + 1;
    }
    assert all[..i] == all;
    EffectOfDone(dirs0, fs.dirs, fs.denied, fl, all, create);
    return Ok(finalPaths);
  }

  /** A run of MakeAll that stopped at all[i] has the effect Effect describes for a raised OSError. */
  lemma EffectOfStop(before: set<string>, after: set<string>, denied: set<string>, fl: Flavour,
                     all: seq<string>, i: nat)
    requires MakeAll(before, denied, fl, all) == Progress(after, Some(i))
    ensures i < |all|
    ensures Effect(before, after, denied, fl, Ok(all), true, Some(all[i]))
  {
    MakeAllStopIndex(before, denied, fl, all);
    MakeAllBound(before, denied, fl, all[..i]);
    MakeAllMade(before, denied, fl, all[..i]);
    FootprintPrefix(fl, all, i);
    forall j | 0 <= j < i
      ensures all[j] in after
    {
      assert all[j] in all[..i];
    }
    assert StopsAt(before, after, denied, fl, all, i);
    assert all[i] in all && all[i] !in before;
  }

  /** A loop that went through has the effect Effect describes for a successful call. */
  lemma EffectOfDone(before: set<string>, after: set<string>, denied: set<string>, fl: Flavour,
                     all: seq<string>, create: bool)
    requires !create ==> after == before
    requires create ==> MakeAll(before, denied, fl, all) == Progress(after, None)
    ensures Effect(before, after, denied, fl, Ok(all), create, None)
  {
    MakeAllBound(before, denied, fl, all);
    MakeAllMade(before, denied, fl, all);
    if forall p :: p in all ==> p in before {
      MakeAllExisting(before, denied, fl, all);
    }
  }

  /** Extending a prefix of s by one element. */
  lemma TakeOneMore(s: seq<string>, i: nat)
    requires i < |s|
    ensures s[..i + 1] == s[..i] + [s[i]]
  {
  }

  /** `if create and not os.path.exists(p): os.makedirs(p)`. */
  method EnsureDir(fs: FileSystem, fl: Flavour, p: string, create: bool) returns (ok: bool)
    modifies fs
    ensures ok <==> !create || p in old(fs.dirs) || !Refuses(fs.denied, old(fs.dirs), fl, p)
    ensures fs.dirs == if create && p !in old(fs.dirs) && !Refuses(fs.denied, old(fs.dirs), fl, p)
                       then old(fs.dirs) + {p} + Parents(fl, p) else old(fs.dirs)
  {
    ok := true;
    if create && !fs.Exists(p) {
      ok := fs.MakeDirs(fl, p);
    }
  }

  /** user_data_dir: the first path of the user_data folders. */
  method UserDataDir(fs: FileSystem, h: Host, appName: Option<string>, appAuthor: Option<string> := None,
                     version: Option<string> := None, roaming: bool := false, useVirtualenv: bool := true,
                     create: bool := true)
    returns (r: Result<string>)
    modifies fs
    ensures FirstOf(r, Resolve(UserData, appName, appAuthor, version, roaming, useVirtualenv, h), create)
    ensures Effect(old(fs.dirs), fs.dirs, fs.denied, FlavourOf(DetectPlatform(h.platform)),
                   Resolve(UserData, appName, appAuthor, version, roaming, useVirtualenv, h), create, RefusedPath(r))
  {
    var paths := GetFolder(fs, UserData, appName, appAuthor, version, roaming, useVirtualenv, create, h);
    r := First(paths);
  }

  /** user_config_dir: the first path of the user_config folders. */
  method UserConfigDir(fs: FileSystem, h: Host, appName: Option<string>, appAuthor: Option<string> := None,
                       version: Option<string> := None, roaming: bool := false, useVirtualenv: bool := true,
                       create: bool := true)
    returns (r: Result<string>)
    modifies fs
    ensures FirstOf(r, Resolve(UserConfig, appName, appAuthor, version, roaming, useVirtualenv, h), create)
    ensures Effect(old(fs.dirs), fs.dirs, fs.denied, FlavourOf(DetectPlatform(h.platform)),
                   Resolve(UserConfig, appName, appAuthor, version, roaming, useVirtualenv, h), create, RefusedPath(r))
  {
    var paths := GetFolder(fs, UserConfig, appName, appAuthor, version, roaming, useVirtualenv, create, h);
    r := First(paths);
  }

  /** user_cache_dir: the first path of the user_cache folders, never roaming. */
  method UserCacheDir(fs: FileSystem, h: Host, appName: Option<string> := None, appAuthor: Option<string> := None,
                      version: Option<string> := None, useVirtualenv: bool := true, create: bool := true)
    returns (r: Result<string>)
    modifies fs
    ensures FirstOf(r, Resolve(UserCache, appName, appAuthor, version, false, useVirtualenv, h), create)
    ensures Effect(old(fs.dirs), fs.dirs, fs.denied, FlavourOf(DetectPlatform(h.platform)),
                   Resolve(UserCache, appName, appAuthor, version, false, useVirtualenv, h), create, RefusedPath(r))
  {
    var paths := GetFolder(fs, UserCache, appName, appAuthor, version, false, useVirtualenv, create, h);
    r := First(paths);
  }

  /** user_state_dir: the first path of the user_state folders. */
  method UserStateDir(fs: FileSystem, h: Host, appName: Option<string> := None, appAuthor: Option<string> := None,
                      version: Option<string> := None, roaming: bool := false, useVirtualenv: bool := true,
                      create: bool := true)
    returns (r: Result<string>)
    modifies fs
    ensures FirstOf(r, Resolve(UserState, appName, appAuthor, version, roaming, useVirtualenv, h), create)
    ensures Effect(old(fs.dirs), fs.dirs, fs.denied, FlavourOf(DetectPlatform(h.platform)),
                   Resolve(UserState, appName, appAuthor, version, roaming, useVirtualenv, h), create, RefusedPath(r))
  {
    var paths := GetFolder(fs, UserState, appName, appAuthor, version, roaming, useVirtualenv, create, h);
    r := First(paths);
  }

  /** user_log_dir: the first path of the user_log folders, never roaming. */
  method UserLogDir(fs: FileSystem, h: Host, appName: Option<string> := None, appAuthor: Option<string> := None,
                    version: Option<string> := None, useVirtualenv: bool := true, create: bool := true)
    returns (r: Result<string>)
    modifies fs
    ensures FirstOf(r, Resolve(UserLog, appName, appAuthor, version, false, useVirtualenv, h), create)
    ensures Effect(old(fs.dirs), fs.dirs, fs.denied, FlavourOf(DetectPlatform(h.platform)),
                   Resolve(UserLog, appName, appAuthor, version, false, useVirtualenv, h), create, RefusedPath(r))
  {
    var paths := GetFolder(fs, UserLog, appName, appAuthor, version, false, useVirtualenv, create, h);
    r := First(paths);
  }

  /** site_data_dirs: every site_data folder, in priority order; not created by default. */
  method SiteDataDirs(fs: FileSystem, h: Host, appName: Option<string> := None, appAuthor: Option<string> := None,
                      version: Option<string> := None, useVirtualenv: bool := true, create: bool := false)
    returns (r: Result<seq<string>>)
    modifies fs
    ensures AllOf(r, Resolve(SiteData, appName, appAuthor, version, false, useVirtualenv, h), create)
    ensures Effect(old(fs.dirs), fs.dirs, fs.denied, FlavourOf(DetectPlatform(h.platform)),
                   Resolve(SiteData, appName, appAuthor, version, false, useVirtualenv, h), create, RefusedPath(r))
  {
    r := GetFolder(fs, SiteData, appName, appAuthor, version, false, useVirtualenv, create, h);
  }

  /** site_config_dirs: every site_config folder, in priority order. */
  method SiteConfigDirs(fs: FileSystem, h: Host, appName: Option<string> := None, appAuthor: Option<string> := None,
                        version: Option<string> := None, useVirtualenv: bool := true, create: bool := true)
    returns (r: Result<seq<string>>)
    modifies fs
    ensures AllOf(r, Resolve(SiteConfig, appName, appAuthor, version, false, useVirtualenv, h), create)
    ensures Effect(old(fs.dirs), fs.dirs, fs.denied, FlavourOf(DetectPlatform(h.platform)),
                   Resolve(SiteConfig, appName, appAuthor, version, false, useVirtualenv, h), create, RefusedPath(r))
  {
    r := GetFolder(fs, SiteConfig, appName, appAuthor, version, false, useVirtualenv, create, h);
  }

  /** The `[0]` of the single-path accessors, passing an exception through. */
  function First(paths: Result<seq<string>>): (r: Result<string>)
    ensures paths.Err? ==> r == Err(paths.error)
    ensures paths.Ok? && |paths.value| >= 1 ==> r == Ok(paths.value[0])
  {
    if paths.Err? then Err(paths.error)
    else if |paths.value| == 0 then Err(IndexError)
    else Ok(paths.value[0])
  }

  /**
   * Asking twice with `create` gives the same paths the second time: the
   * first call made them all, and the second finds them in place.
   */
  method CreateTwice(fs: FileSystem, c: Category, appName: Option<string>, appAuthor: Option<string>,
                     version: Option<string>, roaming: bool, useVirtualenv: bool, h: Host)
    returns (first: Result<seq<string>>, second: Result<seq<string>>)
    modifies fs
    ensures first.Ok? ==> second == first && forall p :: p in second.value ==> p in fs.dirs
  {
    first := GetFolder(fs, c, appName, appAuthor, version, roaming, useVirtualenv, true, h);
    second := GetFolder(fs, c, appName, appAuthor, version, roaming, useVirtualenv, true, h);
  }

  /**
   * On Linux with XDG_DATA_DIRS="/a:/b", a system that refuses /a/app makes
   * site_data_dir("app", multipath=True) with `create` raise OSError for
   * /a/app, and /b/app is not made.
   */
  method RefusedSiteData(h: Host) returns (r: Result<seq<string>>, made: set<string>)
    requires DetectPlatform(h.platform).linux
    requires "XDG_DATA_DIRS" in h.env && h.env["XDG_DATA_DIRS"] == "/a:/b"
    ensures r == Err(OSError("/a/app")) && made == {}
  {
    var fs := new FileSystem({}, {"/a/app"});
    XdgDataDirsExample(true, h);
    assert FlavourOf(DetectPlatform(h.platform)) == Posix;
    FirstRefused();
    r := SiteDataDirs(fs, h, Some("app"), create := true);
    made := fs.dirs;
  }

  /** Making /a/app then /b/app where /a/app is refused stops at once, with nothing made. */
  lemma FirstRefused()
    ensures MakeAll({}, {"/a/app"}, Posix, ["/a/app", "/b/app"]) == Progress({}, Some(0))
  {
    var ps := ["/a/app", "/b/app"];
    MakeAllTake({}, {"/a/app"}, Posix, ps, 0);
    assert ps[..0] == [];
    MakeAllStopped({}, {"/a/app"}, Posix, ps, 1);
  }

  /** The i-th final path comes from the i-th base folder. */
  lemma {:induction false} FinalPathsIndex(f: Flavour, paths: seq<string>, appName: string, version: Option<string>,
                                           i: nat)
    requires i < |paths|
    ensures FinalPaths(f, paths, appName, version)[i] == AppPath(f, paths[i], appName, version)
  {
    var init := paths[..|paths| - 1];
    if i < |init| {
      FinalPathsIndex(f, init, appName, version, i);
      assert paths[i] == init[i];
    }
  }

  /** FinalPaths has one entry per base folder, in the same order. */
  lemma FinalPathsAt(f: Flavour, paths: seq<string>, appName: string, version: Option<string>)
    ensures forall k :: 0 <= k < |paths| ==>
      FinalPaths(f, paths, appName, version)[k] == AppPath(f, paths[k], appName, version)
  {
    forall k | 0 <= k < |paths|
      ensures FinalPaths(f, paths, appName, version)[k] == AppPath(f, paths[k], appName, version)
    {
      FinalPathsIndex(f, paths, appName, version, k);
    }
  }

  /** A tag made of two '_'-free words splits into those two words. */
  lemma TagSplit(head: string, kind: string)
    requires '_' !in head && '_' !in kind
    ensures SubFolder(head + "_" + kind) == Ok(kind)
  {
    SplitPrefix(head, kind, '_');
    SplitFree(kind, '_');
  }

  /** Every tag has a '_', and the text after it is the category's kind. */
  lemma SubFolderIsKind(c: Category)
    ensures SubFolder(Tag(c)) == Ok(Kind(c))
  {
    var head := if IsSite(c) then "site" else "user";
    assert Tag(c) == head + "_" + Kind(c);
    TagSplit(head, Kind(c));
  }

  /** Only the site categories have a tag starting with "site". */
  lemma SitePrefix(c: Category)
    ensures "site" <= Tag(c) <==> IsSite(c)
  {
    if !IsSite(c) {
      assert Tag(c)[0] == 'u';
    }
  }

  /**
   * The virtualenv override: a user category, with use_virtualenv, inside a
   * virtualenv, is based at sys.prefix/<kind>, whatever the platform.
   */
  lemma VirtualenvBase(c: Category, appAuthor: Option<string>, roaming: bool, h: Host)
    requires !IsSite(c) && InVirtualenv(h.interp)
    ensures BasePaths(c, appAuthor, roaming, true, h)
      == Ok([Join(FlavourOf(DetectPlatform(h.platform)), h.interp.prefix, Kind(c))])
  {
    SitePrefix(c);
    SubFolderIsKind(c);
  }

  /** Site categories never take the virtualenv override: use_virtualenv makes no difference. */
  lemma SiteIgnoresVirtualenv(c: Category, appAuthor: Option<string>, roaming: bool, useVirtualenv: bool, h: Host)
    requires IsSite(c)
    ensures BasePaths(c, appAuthor, roaming, useVirtualenv, h) == PlatformBase(Tag(c), appAuthor, roaming, h)
  {
    SitePrefix(c);
  }

  /**
   * use_virtualenv matters only when _in_virtualenv_folder detects a
   * virtualenv: with no sys.real_prefix, and sys.base_prefix absent or
   * equal to sys.prefix, both settings give the same paths.
   */
  lemma UseVirtualenvOutside(c: Category, appName: Option<string>, appAuthor: Option<string>,
                             version: Option<string>, roaming: bool, h: Host)
    requires h.interp.realPrefix.None?
    requires h.interp.basePrefix.None? || h.interp.basePrefix.value == h.interp.prefix
    ensures Resolve(c, appName, appAuthor, version, roaming, true, h)
      == Resolve(c, appName, appAuthor, version, roaming, false, h)
  {
    NoOverrideBase(c, appAuthor, roaming, true, h);
    NoOverrideBase(c, appAuthor, roaming, false, h);
  }

  /** Without the virtualenv override, a category follows the platform convention. */
  lemma NoOverrideBase(c: Category, appAuthor: Option<string>, roaming: bool, useVirtualenv: bool, h: Host)
    requires !(useVirtualenv && InVirtualenv(h.interp))
    ensures BasePaths(c, appAuthor, roaming, useVirtualenv, h) == PlatformBase(Tag(c), appAuthor, roaming, h)
  {
  }

  /**
   * The result has exactly one path per base folder, in the same order: the
   * base joined with the app name and, unless it is None, the version. It
   * fails exactly when the base selection fails or app_name is None.
   */
  lemma ResolveShape(c: Category, appName: Option<string>, appAuthor: Option<string>,
                     version: Option<string>, roaming: bool, useVirtualenv: bool, h: Host)
    ensures var r := Resolve(c, appName, appAuthor, version, roaming, useVirtualenv, h);
      var b := BasePaths(c, appAuthor, roaming, useVirtualenv, h);
      r.Ok? <==> b.Ok? && appName.Some?
    ensures var r := Resolve(c, appName, appAuthor, version, roaming, useVirtualenv, h);
      var b := BasePaths(c, appAuthor, roaming, useVirtualenv, h);
      r.Ok? ==> (|r.value| == |b.value| &&
        forall k :: 0 <= k < |r.value| ==>
          r.value[k] == AppPath(FlavourOf(DetectPlatform(h.platform)), b.value[k], appName.value, version))
  {
    var b := BasePaths(c, appAuthor, roaming, useVirtualenv, h);
    if b.Ok? && appName.Some? {
      FinalPathsAt(FlavourOf(DetectPlatform(h.platform)), b.value, appName.value, version);
    }
  }

  /**
   * The only exceptions are the missing Windows author and a None app_name:
   * the IndexError and unsupported-platform branches cannot be reached.
   */
  lemma ResolveErrors(c: Category, appName: Option<string>, appAuthor: Option<string>,
                      version: Option<string>, roaming: bool, useVirtualenv: bool, h: Host)
    ensures var r := Resolve(c, appName, appAuthor, version, roaming, useVirtualenv, h);
      r.Err? ==> r.error == MissingAuthor || r.error == TypeError
    ensures var r := Resolve(c, appName, appAuthor, version, roaming, useVirtualenv, h);
      r == Err(MissingAuthor) <==>
        DetectPlatform(h.platform).windows && appAuthor.None? &&
        (IsSite(c) || !(useVirtualenv && InVirtualenv(h.interp)))
    ensures var r := Resolve(c, appName, appAuthor, version, roaming, useVirtualenv, h);
      r == Err(TypeError) <==> appName.None? && BasePaths(c, appAuthor, roaming, useVirtualenv, h).Ok?
  {
    SitePrefix(c);
    SubFolderIsKind(c);
  }

  /**
   * A version adds exactly one trailing segment: with Some(v) every path is
   * the corresponding path without a version, joined with v.
   */
  lemma VersionSegment(c: Category, appName: Option<string>, appAuthor: Option<string>, v: string,
                       roaming: bool, useVirtualenv: bool, h: Host)
    ensures var with := Resolve(c, appName, appAuthor, Some(v), roaming, useVirtualenv, h);
      var without := Resolve(c, appName, appAuthor, None, roaming, useVirtualenv, h);
      (with.Ok? <==> without.Ok?) &&
      (with.Ok? ==> (|with.value| == |without.value| &&
        forall k :: 0 <= k < |with.value| ==>
          with.value[k] == Join(FlavourOf(DetectPlatform(h.platform)), without.value[k], v)))
  {
    ResolveShape(c, appName, appAuthor, Some(v), roaming, useVirtualenv, h);
    ResolveShape(c, appName, appAuthor, None, roaming, useVirtualenv, h);
  }

  /**
   * The last path component of every result is the version when one is
   * given, and the app name otherwise.
   */
  lemma LastComponent(c: Category, appName: Option<string>, appAuthor: Option<string>,
                      version: Option<string>, roaming: bool, useVirtualenv: bool, h: Host)
    ensures var r := Resolve(c, appName, appAuthor, version, roaming, useVirtualenv, h);
      r.Ok? ==> forall k :: 0 <= k < |r.value| ==>
        LastSegment(FlavourOf(DetectPlatform(h.platform)), r.value[k],
                    if version.Some? then version.value else appName.value)
  {
    var fl := FlavourOf(DetectPlatform(h.platform));
    var r := Resolve(c, appName, appAuthor, version, roaming, useVirtualenv, h);
    ResolveShape(c, appName, appAuthor, version, roaming, useVirtualenv, h);
    if r.Ok? {
      var b := BasePaths(c, appAuthor, roaming, useVirtualenv, h).value;
      forall k | 0 <= k < |r.value|
        ensures LastSegment(fl, r.value[k], if version.Some? then version.value else appName.value)
      {
        JoinLast(fl, b[k], appName.value);
        if version.Some? {
          JoinLast(fl, Join(fl, b[k], appName.value), version.value);
        }
      }
    }
  }

  /** Two categories with the same base folders resolve to the same paths. */
  lemma SameBaseSameResult(c1: Category, c2: Category, appName: Option<string>, appAuthor: Option<string>,
                           version: Option<string>, roaming: bool, useVirtualenv: bool, h: Host)
    requires BasePaths(c1, appAuthor, roaming, useVirtualenv, h) == BasePaths(c2, appAuthor, roaming, useVirtualenv, h)
    ensures Resolve(c1, appName, appAuthor, version, roaming, useVirtualenv, h)
      == Resolve(c2, appName, appAuthor, version, roaming, useVirtualenv, h)
  {
  }

  /**
   * Outside the virtualenv override, user_log has the base folders of
   * site_data on Windows and those of site_config on Linux.
   */
  lemma UserLogBase(appAuthor: Option<string>, useVirtualenv: bool, h: Host)
    requires !(useVirtualenv && InVirtualenv(h.interp))
    ensures DetectPlatform(h.platform).windows ==>
      BasePaths(UserLog, appAuthor, false, useVirtualenv, h) == BasePaths(SiteData, appAuthor, false, useVirtualenv, h)
    ensures DetectPlatform(h.platform).linux ==>
      BasePaths(UserLog, appAuthor, false, useVirtualenv, h) == BasePaths(SiteConfig, appAuthor, false, useVirtualenv, h)
  {
    UserLogFallsToSite(appAuthor, false, h);
    assert Tag(UserLog) == "user_log" && Tag(SiteData) == "site_data" && Tag(SiteConfig) == "site_config";
  }

  /**
   * As written, user_log shares the site folder on Windows: the Windows
   * branch tests for "user_logs", so user_log reaches the site branch.
   */
  lemma WindowsUserLogAsWritten(appName: Option<string>, appAuthor: Option<string>, version: Option<string>,
                                useVirtualenv: bool, h: Host)
    requires DetectPlatform(h.platform).windows && !(useVirtualenv && InVirtualenv(h.interp))
    ensures Resolve(UserLog, appName, appAuthor, version, false, useVirtualenv, h)
      == Resolve(SiteData, appName, appAuthor, version, false, useVirtualenv, h)
  {
    UserLogBase(appAuthor, useVirtualenv, h);
    SameBaseSameResult(UserLog, SiteData, appName, appAuthor, version, false, useVirtualenv, h);
  }

  /**
   * As written, user_log on Linux has no branch of its own and gets the
   * XDG_CONFIG_DIRS list of site_config.
   */
  lemma LinuxUserLogAsWritten(appName: Option<string>, appAuthor: Option<string>, version: Option<string>,
                              useVirtualenv: bool, h: Host)
    requires DetectPlatform(h.platform).linux && !(useVirtualenv && InVirtualenv(h.interp))
    ensures Resolve(UserLog, appName, appAuthor, version, false, useVirtualenv, h)
      == Resolve(SiteConfig, appName, appAuthor, version, false, useVirtualenv, h)
  {
    UserLogBase(appAuthor, useVirtualenv, h);
    SameBaseSameResult(UserLog, SiteConfig, appName, appAuthor, version, false, useVirtualenv, h);
  }

  /** With known base folders and an app name, the result is their final paths. */
  lemma ResolveFrom(c: Category, appName: string, appAuthor: Option<string>, version: Option<string>,
                    roaming: bool, useVirtualenv: bool, h: Host, base: seq<string>)
    requires BasePaths(c, appAuthor, roaming, useVirtualenv, h) == Ok(base)
    ensures Resolve(c, Some(appName), appAuthor, version, roaming, useVirtualenv, h)
      == Ok(FinalPaths(FlavourOf(DetectPlatform(h.platform)), base, appName, version))
  {
  }

  /** The final paths of one and of two base folders. */
  lemma FinalPathsSmall(f: Flavour, a: string, b: string, appName: string, version: Option<string>)
    ensures FinalPaths(f, [a], appName, version) == [AppPath(f, a, appName, version)]
    ensures FinalPaths(f, [a, b], appName, version)
      == [AppPath(f, a, appName, version), AppPath(f, b, appName, version)]
  {
    assert [a, b][..1] == [a];
    assert [a][..0] == [];
  }

  /** XDG_CACHE_HOME=/tmp/x on Linux puts the cache of "app" at exactly /tmp/x/app. */
  lemma XdgCacheHomeExample(useVirtualenv: bool, h: Host)
    requires DetectPlatform(h.platform).linux && !(useVirtualenv && InVirtualenv(h.interp))
    requires "XDG_CACHE_HOME" in h.env && h.env["XDG_CACHE_HOME"] == "/tmp/x"
    ensures Resolve(UserCache, Some("app"), None, None, false, useVirtualenv, h) == Ok(["/tmp/x/app"])
  {
    LinuxUserBase(UserCache, None, false, h);
    NoOverrideBase(UserCache, None, false, useVirtualenv, h);
    ResolveFrom(UserCache, "app", None, None, false, useVirtualenv, h, ["/tmp/x"]);
    FinalPathsSmall(Posix, "/tmp/x", "", "app", None);
    assert Join(Posix, "/tmp/x", "app") == "/tmp/x/app";
  }

  /** With XDG_CONFIG_HOME unset and home /home/u, the config of "app" is /home/u/.config/app. */
  lemma ConfigDefaultExample(useVirtualenv: bool, h: Host)
    requires DetectPlatform(h.platform).linux && !(useVirtualenv && InVirtualenv(h.interp))
    requires "XDG_CONFIG_HOME" !in h.env && h.home == "/home/u"
    ensures Resolve(UserConfig, Some("app"), None, None, false, useVirtualenv, h)
      == Ok(["/home/u/.config/app"])
  {
    LinuxUserBase(UserConfig, None, false, h);
    NoOverrideBase(UserConfig, None, false, useVirtualenv, h);
    assert h.home[|h.home| - 1] == 'u';
    assert RStrip(h.home, '/') + XdgDefault(UserConfig) == "/home/u/.config";
    ResolveFrom(UserConfig, "app", None, None, false, useVirtualenv, h, ["/home/u/.config"]);
    FinalPathsSmall(Posix, "/home/u/.config", "", "app", None);
    assert Join(Posix, "/home/u/.config", "app") == "/home/u/.config/app";
  }

  /** XDG_DATA_DIRS="/a:/b" gives the site_data folders /a/app then /b/app. */
  lemma XdgDataDirsExample(useVirtualenv: bool, h: Host)
    requires DetectPlatform(h.platform).linux
    requires "XDG_DATA_DIRS" in h.env && h.env["XDG_DATA_DIRS"] == "/a:/b"
    ensures Resolve(SiteData, Some("app"), None, None, false, useVirtualenv, h) == Ok(["/a/app", "/b/app"])
  {
    XdgDataDirsBase(useVirtualenv, h);
    ResolveFrom(SiteData, "app", None, None, false, useVirtualenv, h, ["/a", "/b"]);
    assert FlavourOf(DetectPlatform(h.platform)) == Posix;
    TwoPlainPaths();
  }

  /** The final paths of "app" under /a and /b on POSIX. */
  lemma TwoPlainPaths()
    ensures FinalPaths(Posix, ["/a", "/b"], "app", None) == ["/a/app", "/b/app"]
  {
    FinalPathsSmall(Posix, "/a", "/b", "app", None);
    assert Join(Posix, "/a", "app") == "/a/app";
    assert Join(Posix, "/b", "app") == "/b/app";
  }

  /** XDG_DATA_DIRS="/a:/b" gives the site_data base folders /a then /b. */
  lemma XdgDataDirsBase(useVirtualenv: bool, h: Host)
    requires DetectPlatform(h.platform).linux
    requires "XDG_DATA_DIRS" in h.env && h.env["XDG_DATA_DIRS"] == "/a:/b"
    ensures BasePaths(SiteData, None, false, useVirtualenv, h) == Ok(["/a", "/b"])
  {
    LinuxSiteDataBase(None, false, h);
    PlainDataDirs(h.home);
    SiteIgnoresVirtualenv(SiteData, None, false, useVirtualenv, h);
  }

  /** The site-list comprehension turns "/a:/b" into /a then /b. */
  lemma PlainDataDirs(home: string)
    ensures SiteList("/a:/b", home) == ["/a", "/b"]
  {
    assert JoinWith(["/a", "/b"], ':') == "/a:/b";
    SiteListPlain(["/a", "/b"], home);
  }

  /** On POSIX, plain names (no '/' at their joined ends) are joined with a single '/'. */
  lemma AppPathPlain(base: string, appName: string, version: string)
    requires base != [] && base[|base| - 1] != '/'
    requires appName != [] && appName[0] != '/' && appName[|appName| - 1] != '/'
    requires version != [] && version[0] != '/'
    ensures AppPath(Posix, base, appName, Some(version)) == base + "/" + appName + "/" + version
  {
    var p := base + "/" + appName;
    assert Join(Posix, base, appName) == p;
    assert p[|p| - 1] == appName[|appName| - 1];
  }

  /** Inside a virtualenv on macOS or Linux, a user category is based at <sys.prefix>/<kind>. */
  lemma VirtualenvPosixBase(c: Category, useVirtualenv: bool, h: Host)
    requires !IsSite(c) && !DetectPlatform(h.platform).windows && useVirtualenv && InVirtualenv(h.interp)
    requires h.interp.prefix != [] && h.interp.prefix[|h.interp.prefix| - 1] != '/'
    ensures BasePaths(c, None, false, useVirtualenv, h) == Ok([h.interp.prefix + "/" + Kind(c)])
  {
    assert FlavourOf(DetectPlatform(h.platform)) == Posix;
    VirtualenvBase(c, None, false, h);
    KindPlain(c);
    JoinPlain(h.interp.prefix, Kind(c));
  }

  /** A category's kind is a plain word: not empty, with no '/' at either end. */
  lemma KindPlain(c: Category)
    ensures Kind(c) != [] && Kind(c)[0] != '/' && Kind(c)[|Kind(c)| - 1] != '/'
  {
  }

  /** On POSIX, two plain names are joined with a single '/'. */
  lemma JoinPlain(a: string, b: string)
    requires a != [] && a[|a| - 1] != '/'
    requires b != [] && b[0] != '/'
    ensures Join(Posix, a, b) == a + "/" + b
  {
  }

  /**
   * Inside a virtualenv on macOS or Linux, a user category of app_name with
   * a version lives at <sys.prefix>/<kind>/<app_name>/<version>.
   */
  lemma VirtualenvLayout(c: Category, appName: string, version: string, useVirtualenv: bool, h: Host)
    requires !IsSite(c) && !DetectPlatform(h.platform).windows && useVirtualenv && InVirtualenv(h.interp)
    requires h.interp.prefix != [] && h.interp.prefix[|h.interp.prefix| - 1] != '/'
    requires appName != [] && appName[0] != '/' && appName[|appName| - 1] != '/'
    requires version != [] && version[0] != '/'
    ensures Resolve(c, Some(appName), None, Some(version), false, useVirtualenv, h)
      == Ok([h.interp.prefix + "/" + Kind(c) + "/" + appName + "/" + version])
  {
    VirtualenvPosixBase(c, useVirtualenv, h);
    var kind := Kind(c);
    var base := h.interp.prefix + "/" + kind;
    ResolveFrom(c, appName, None, Some(version), false, useVirtualenv, h, [base]);
    assert FlavourOf(DetectPlatform(h.platform)) == Posix;
    FinalPathsSmall(Posix, base, "", appName, Some(version));
    assert kind != [] && base[|base| - 1] == kind[|kind| - 1] && kind[|kind| - 1] != '/';
    AppPathPlain(base, appName, version);
  }
}
