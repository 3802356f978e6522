/**
 * appdirs: the older copy of the resolver. It differs from dwave_appdirs in
 * four places: inside a virtualenv every category (site ones included) is
 * based at sys.prefix itself; the version is appended only when truthy; with
 * `create` the loop calls os.path.exists() without an argument, which raises
 * TypeError before anything is created; and user_log_dir returns the whole
 * list. The platform branch is word for word the shared Convention.
 */
module Appdirs {
  import opened Types
  import opened OsPath
  import opened Host
  import opened Convention
  import D = DwaveAppdirs

  /** The base folders of _get_folder: [sys.prefix] inside a virtualenv, whatever the category. */
  function BasePaths(c: Category, appAuthor: Option<string>, roaming: bool, useVirtualenv: bool, h: Host)
    : (r: Result<seq<string>>)
    ensures r.Ok? ==> |r.value| >= 1
    ensures useVirtualenv && InVirtualenv(h.interp) ==> r == Ok([h.interp.prefix])
  {
    if useVirtualenv && InVirtualenv(h.interp) then Ok([h.interp.prefix])
    else PlatformBase(Tag(c), appAuthor, roaming, h)
  }

  /** The version segment `if version:` appends: none for None and for the empty string. */
  function Appended(version: Option<string>): (r: Option<string>)
    ensures r.Some? <==> version.Some? && version.value != ""
    ensures r.Some? ==> r == version
  {
    if version.Some? && version.value != "" then version else None
  }

  /**
   * What _get_folder returns when `create` is false: the error of the base
   * selection, TypeError for a None app_name, or each base joined with the
   * app name and the truthy version.
   */
  function Resolve(c: Category, appName: Option<string>, appAuthor: Option<string>,
                   version: Option<string>, roaming: bool, useVirtualenv: bool, h: Host)
    : (r: Result<seq<string>>)
    ensures r.Ok? ==> |r.value| >= 1
  {
    var paths :- BasePaths(c, appAuthor, roaming, useVirtualenv, h);
    D.Joined(FlavourOf(DetectPlatform(h.platform)), paths, appName, Appended(version))
  }

  /**
   * _get_folder as the source runs it. With `create` the first iteration
   * raises TypeError (os.path.join on a None app_name, or os.path.exists()
   * called without its argument), so no directory is ever created; without
   * it the result is Resolve.
   */
  method GetFolder(c: Category, appName: Option<string>, appAuthor: Option<string>,
                   version: Option<string>, roaming: bool, useVirtualenv: bool, create: bool, h: Host)
    returns (r: Result<seq<string>>)
    ensures BasePaths(c, appAuthor, roaming, useVirtualenv, h).Err? ==>
      r == Err(BasePaths(c, appAuthor, roaming, useVirtualenv, h).error)
    ensures BasePaths(c, appAuthor, roaming, useVirtualenv, h).Ok? && create ==> r == Err(TypeError)
    ensures !create ==> r == Resolve(c, appName, appAuthor, version, roaming, useVirtualenv, h)
  {
    var base := BasePaths(c, appAuthor, roaming, useVirtualenv, h);
    if base.Err? {
      return Err(base.error);
    }
    if appName.None? {
      // the first os.path.join(path, None) raises; the base list is never empty
      return Err(TypeError);
    }
    var fl := FlavourOf(DetectPlatform(h.platform));
    D.FinalPathsAt(fl, base.value, appName.value, Appended(version));
    r := JoinAll(fl, base.value, appName.value, version, create,
                 D.FinalPaths(fl, base.value, appName.value, Appended(version)));
  }

  /**
   * The loop of _get_folder over the base folders: join the app name and the
   * truthy version onto each and collect it. With `create` the existence
   * test raises on the first base folder.
   */
  method JoinAll(fl: Flavour, paths: seq<string>, appName: string, version: Option<string>, create: bool,
                 ghost all: seq<string>)
    returns (r: Result<seq<string>>)
    requires |paths| >= 1 && |all| == |paths|
    requires forall k :: 0 <= k < |paths| ==> all[k] == D.AppPath(fl, paths[k], appName, Appended(version))
    ensures create ==> r == Err(TypeError)
    ensures !create ==> r == Ok(all)
  {
    var finalPaths: seq<string> := [];
    var i := 0;
    while i < |paths|
      invariant 0 <= i <= |paths|
      invariant create ==> i == 0
      invariant finalPaths == all[..i]
    {
      var finalPath := Join(fl, paths[i], appName);
      if version.Some? && version.value != "" {
        finalPath := Join(fl, finalPath, version.value);
      }
      if create {
        // os.path.exists() without its argument raises TypeError
        return Err(TypeError);
      }
      assert finalPath == all[i];
      D.TakeOneMore(all, i);
      finalPaths := finalPaths + [finalPath];
      i := i + 1;
    }
    assert all[..i] == all;
    return Ok(finalPaths);
  }

  /** user_data_dir: the first path, or TypeError whenever `create` is set. */
  method UserDataDir(h: Host, appName: Option<string>, appAuthor: Option<string> := None,
                     version: Option<string> := None, roaming: bool := false, useVirtualenv: bool := true,
                     create: bool := true)
    returns (r: Result<string>)
    ensures !create ==> r == D.First(Resolve(UserData, appName, appAuthor, version, roaming, useVirtualenv, h))
    ensures create && BasePaths(UserData, appAuthor, roaming, useVirtualenv, h).Ok? ==> r == Err(TypeError)
    ensures create && BasePaths(UserData, appAuthor, roaming, useVirtualenv, h).Err? ==> r == Err(BasePaths(UserData, appAuthor, roaming, useVirtualenv, h).error)
  {
    var paths := GetFolder(UserData, appName, appAuthor, version, roaming, useVirtualenv, create, h);
    r := D.First(paths);
  }

  /** user_config_dir: the first path, or TypeError whenever `create` is set. */
  method UserConfigDir(h: Host, appName: Option<string>, appAuthor: Option<string> := None,
                       version: Option<string> := None, roaming: bool := false, useVirtualenv: bool := true,
                       create: bool := true)
    returns (r: Result<string>)
    ensures !create ==> r == D.First(Resolve(UserConfig, appName, appAuthor, version, roaming, useVirtualenv, h))
    ensures create && BasePaths(UserConfig, appAuthor, roaming, useVirtualenv, h).Ok? ==> r == Err(TypeError)
    ensures create && BasePaths(UserConfig, appAuthor, roaming, useVirtualenv, h).Err? ==> r == Err(BasePaths(UserConfig, appAuthor, roaming, useVirtualenv, h).error)
  {
    var paths := GetFolder(UserConfig, appName, appAuthor, version, roaming, useVirtualenv, create, h);
    r := D.First(paths);
  }

  /** user_cache_dir: the first path, never roaming. */
  method UserCacheDir(h: Host, appName: Option<string> := None, appAuthor: Option<string> := None,
                      version: Option<string> := None, useVirtualenv: bool := true, create: bool := true)
    returns (r: Result<string>)
    ensures !create ==> r == D.First(Resolve(UserCache, appName, appAuthor, version, false, useVirtualenv, h))
    ensures create && BasePaths(UserCache, appAuthor, false, useVirtualenv, h).Ok? ==> r == Err(TypeError)
    ensures create && BasePaths(UserCache, appAuthor, false, useVirtualenv, h).Err? ==> r == Err(BasePaths(UserCache, appAuthor, false, useVirtualenv, h).error)
  {
    var paths := GetFolder(UserCache, appName, appAuthor, version, false, useVirtualenv, create, h);
    r := D.First(paths);
  }

  /** user_state_dir: the first path. */
  method UserStateDir(h: Host, appName: Option<string> := None, appAuthor: Option<string> := None,
                      version: Option<string> := None, roaming: bool := false, useVirtualenv: bool := true,
                      create: bool := true)
    returns (r: Result<string>)
    ensures !create ==> r == D.First(Resolve(UserState, appName, appAuthor, version, roaming, useVirtualenv, h))
    ensures create && BasePaths(UserState, appAuthor, roaming, useVirtualenv, h).Ok? ==> r == Err(TypeError)
    ensures create && BasePaths(UserState, appAuthor, roaming, useVirtualenv, h).Err? ==> r == Err(BasePaths(UserState, appAuthor, roaming, useVirtualenv, h).error)
  {
    var paths := GetFolder(UserState, appName, appAuthor, version, roaming, useVirtualenv, create, h);
    r := D.First(paths);
  }

  /** user_log_dir: as written, the whole list rather than its first path. */
  method UserLogDir(h: Host, appName: Option<string> := None, appAuthor: Option<string> := None,
                    version: Option<string> := None, useVirtualenv: bool := true, create: bool := true)
    returns (r: Result<seq<string>>)
    ensures !create ==> r == Resolve(UserLog, appName, appAuthor, version, false, useVirtualenv, h)
    ensures create && BasePaths(UserLog, appAuthor, false, useVirtualenv, h).Ok? ==> r == Err(TypeError)
    ensures create && BasePaths(UserLog, appAuthor, false, useVirtualenv, h).Err? ==> r == Err(BasePaths(UserLog, appAuthor, false, useVirtualenv, h).error)
  {
    r := GetFolder(UserLog, appName, appAuthor, version, false, useVirtualenv, create, h);
  }

  /** site_data_dir: every site_data folder; not created by default. */
  method SiteDataDir(h: Host, appName: Option<string> := None, appAuthor: Option<string> := None,
                     version: Option<string> := None, useVirtualenv: bool := true, create: bool := false)
    returns (r: Result<seq<string>>)
    ensures !create ==> r == Resolve(SiteData, appName, appAuthor, version, false, useVirtualenv, h)
    ensures create && BasePaths(SiteData, appAuthor, false, useVirtualenv, h).Ok? ==> r == Err(TypeError)
    ensures create && BasePaths(SiteData, appAuthor, false, useVirtualenv, h).Err? ==> r == Err(BasePaths(SiteData, appAuthor, false, useVirtualenv, h).error)
  {
    r := GetFolder(SiteData, appName, appAuthor, version, false, useVirtualenv, create, h);
  }

  /** site_config_dir: every site_config folder; `create` is set by default, so by default it raises. */
  method SiteConfigDir(h: Host, appName: Option<string> := None, appAuthor: Option<string> := None,
                       version: Option<string> := None, useVirtualenv: bool := true, create: bool := true)
    returns (r: Result<seq<string>>)
    ensures !create ==> r == Resolve(SiteConfig, appName, appAuthor, version, false, useVirtualenv, h)
    ensures create && BasePaths(SiteConfig, appAuthor, false, useVirtualenv, h).Ok? ==> r == Err(TypeError)
    ensures create && BasePaths(SiteConfig, appAuthor, false, useVirtualenv, h).Err? ==> r == Err(BasePaths(SiteConfig, appAuthor, false, useVirtualenv, h).error)
  {
    r := GetFolder(SiteConfig, appName, appAuthor, version, false, useVirtualenv, create, h);
  }

  /**
   * Inside a virtualenv with use_virtualenv, every category -- site ones
   * included -- resolves to the single path sys.prefix/app_name[/version],
   * with no category sub-folder; dwave_appdirs instead adds the category's
   * kind for user categories and leaves site categories to the platform.
   */
  lemma VirtualenvAll(c: Category, appName: string, appAuthor: Option<string>, version: Option<string>,
                      roaming: bool, h: Host)
    requires InVirtualenv(h.interp)
    ensures Resolve(c, Some(appName), appAuthor, version, roaming, true, h)
      == Ok([D.AppPath(FlavourOf(DetectPlatform(h.platform)), h.interp.prefix, appName, Appended(version))])
    ensures !IsSite(c) ==> (D.BasePaths(c, appAuthor, roaming, true, h)
      == Ok([Join(FlavourOf(DetectPlatform(h.platform)), h.interp.prefix, Kind(c))]))
    ensures IsSite(c) ==> (D.BasePaths(c, appAuthor, roaming, true, h) == PlatformBase(Tag(c), appAuthor, roaming, h))
  {
    var fl := FlavourOf(DetectPlatform(h.platform));
    D.FinalPathsSmall(fl, h.interp.prefix, "", appName, Appended(version));
    if IsSite(c) {
      D.SiteIgnoresVirtualenv(c, appAuthor, roaming, true, h);
    } else {
      D.VirtualenvBase(c, appAuthor, roaming, h);
    }
  }

  /**
   * An empty-string version is falsy and adds no segment: the result is the
   * one without a version. A non-empty version adds exactly one trailing
   * segment to every path.
   */
  lemma EmptyVersionNoSegment(c: Category, appName: Option<string>, appAuthor: Option<string>, v: string,
                              roaming: bool, useVirtualenv: bool, h: Host)
    ensures v == "" ==> (Resolve(c, appName, appAuthor, Some(v), roaming, useVirtualenv, h)
      == Resolve(c, appName, appAuthor, None, roaming, useVirtualenv, h))
    ensures var with := Resolve(c, appName, appAuthor, Some(v), roaming, useVirtualenv, h);
      var without := Resolve(c, appName, appAuthor, None, roaming, useVirtualenv, h);
      v != "" ==> ((with.Ok? <==> without.Ok?) &&
        (with.Ok? ==> (|with.value| == |without.value| &&
          forall k :: 0 <= k < |with.value| ==>
            with.value[k] == Join(FlavourOf(DetectPlatform(h.platform)), without.value[k], v))))
  {
    var fl := FlavourOf(DetectPlatform(h.platform));
    var base := BasePaths(c, appAuthor, roaming, useVirtualenv, h);
    if base.Ok? && appName.Some? {
      D.FinalPathsAt(fl, base.value, appName.value, Some(v));
      D.FinalPathsAt(fl, base.value, appName.value, None);
    }
  }

  /**
   * Outside the virtualenv override the two copies agree, except that
   * appdirs drops an empty-string version that dwave_appdirs appends.
   */
  lemma AgreesWithDwave(c: Category, appName: Option<string>, appAuthor: Option<string>,
                        version: Option<string>, roaming: bool, useVirtualenv: bool, h: Host)
    requires !(useVirtualenv && InVirtualenv(h.interp))
    ensures Resolve(c, appName, appAuthor, version, roaming, useVirtualenv, h)
      == D.Resolve(c, appName, appAuthor, Appended(version), roaming, useVirtualenv, h)
    ensures version != Some("") ==> (Resolve(c, appName, appAuthor, version, roaming, useVirtualenv, h)
      == D.Resolve(c, appName, appAuthor, version, roaming, useVirtualenv, h))
  {
    D.NoOverrideBase(c, appAuthor, roaming, useVirtualenv, h);
  }

  /**
   * The only exceptions of _get_folder without `create` are the missing
   * Windows author outside a virtualenv and a None app_name; the
   * unsupported-platform branch cannot be reached.
   */
  lemma ResolveErrors(c: Category, appName: Option<string>, appAuthor: Option<string>,
                      version: Option<string>, roaming: bool, useVirtualenv: bool, h: Host)
    ensures var r := Resolve(c, appName, appAuthor, version, roaming, useVirtualenv, h);
      r.Err? ==> r.error == MissingAuthor || r.error == TypeError
    ensures var r := Resolve(c, appName, appAuthor, version, roaming, useVirtualenv, h);
      r == Err(MissingAuthor) <==>
        DetectPlatform(h.platform).windows && appAuthor.None? && !(useVirtualenv && InVirtualenv(h.interp))
    ensures var r := Resolve(c, appName, appAuthor, version, roaming, useVirtualenv, h);
      r == Err(TypeError) <==> appName.None? && BasePaths(c, appAuthor, roaming, useVirtualenv, h).Ok?
  {
  }

  /**
   * As written, user_log shares the site folder on Windows (the branch tests
   * for "user_logs") and the XDG_CONFIG_DIRS list on Linux, as in
   * dwave_appdirs.
   */
  lemma UserLogAsWritten(appAuthor: Option<string>, useVirtualenv: bool, h: Host)
    requires !(useVirtualenv && InVirtualenv(h.interp))
    ensures DetectPlatform(h.platform).windows ==>
      BasePaths(UserLog, appAuthor, false, useVirtualenv, h) == BasePaths(SiteData, appAuthor, false, useVirtualenv, h)
    ensures DetectPlatform(h.platform).linux ==>
      BasePaths(UserLog, appAuthor, false, useVirtualenv, h) == BasePaths(SiteConfig, appAuthor, false, useVirtualenv, h)
  {
    UserLogFallsToSite(appAuthor, false, h);
    assert Tag(UserLog) == "user_log" && Tag(SiteData) == "site_data" && Tag(SiteConfig) == "site_config";
  }
}
