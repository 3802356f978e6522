/**
 * The per-platform base folders, the branch of _get_folder that both copies
 * share word for word once the virtualenv test has failed: Windows shell
 * folders, the fixed macOS Library folders, and the XDG variables on Linux.
 */
module Convention {
  import opened Types
  import opened OsPath
  import opened Host
  import opened Windows

  /** os.pathsep.join(['/usr/local/share', '/usr/share']): the XDG_DATA_DIRS default. */
  function DataDirsDefault(): (r: string)
    ensures r == "/usr/local/share:/usr/share"
  {
    JoinWith(["/usr/local/share", "/usr/share"], ':')
  }

  /**
   * The list comprehension of the Linux site branches: split the value on
   * ':', strip trailing '/' from each piece and expand a leading '~'.
   */
  function SiteList(value: string, home: string): (r: seq<string>)
    ensures |r| == |Split(value, ':')| && |r| >= 1
  {
    var parts := Split(value, ':');
    seq(|parts|, k requires 0 <= k < |parts| => ExpandUser(home, RStrip(parts[k], '/')))
  }

  /**
   * The base folders for folder_type on the host's platform, without the
   * virtualenv override. Exactly one platform flag is set, so the only error
   * is a missing author on Windows; every success is a non-empty list.
   */
  function PlatformBase(folderType: string, appAuthor: Option<string>, roaming: bool, h: Host)
    : (r: Result<seq<string>>)
    ensures r.Ok? ==> |r.value| >= 1
    ensures r.Err? <==> DetectPlatform(h.platform).windows && appAuthor.None?
    ensures r.Err? ==> r.error == MissingAuthor
  {
    var flags := DetectPlatform(h.platform);
    if flags.windows then
      if folderType in ["user_data", "user_config", "user_state"] then
        var f :- WinFolder(false, roaming, appAuthor, h);
        Ok([h.normpath(f)])
      else if folderType == "user_cache" then
        var f :- WinFolder(false, false, appAuthor, h);
        Ok([Join(Nt, h.normpath(f), "Caches")])
      else if folderType == "user_logs" then
        var f :- WinFolder(false, false, appAuthor, h);
        Ok([Join(Nt, h.normpath(f), "Logs")])
      else
        var f :- WinFolder(true, roaming, appAuthor, h);
        Ok([h.normpath(f)])
    else if flags.macosx then
      if folderType in ["user_data", "user_config", "user_state"] then
        Ok([ExpandUser(h.home, "~/Library/Application Support")])
      else if folderType == "user_cache" then
        Ok([ExpandUser(h.home, "~/Library/Caches")])
      else if folderType == "user_log" then
        Ok([ExpandUser(h.home, "~/Library/Logs")])
      else
        Ok([ExpandUser(h.home, "/Library/Application Support")])
    else if flags.linux then
      if folderType == "user_data" then
        Ok([Getenv(h.env, "XDG_DATA_HOME", ExpandUser(h.home, "~/.local/share"))])
      else if folderType == "user_config" then
        Ok([Getenv(h.env, "XDG_CONFIG_HOME", ExpandUser(h.home, "~/.config"))])
      else if folderType == "user_state" then
        Ok([Getenv(h.env, "XDG_STATE_HOME", ExpandUser(h.home, "~/.local/state"))])
      else if folderType == "user_cache" then
        Ok([Getenv(h.env, "XDG_CACHE_HOME", ExpandUser(h.home, "~/.cache"))])
      else if folderType == "site_data" then
        Ok(SiteList(Getenv(h.env, "XDG_DATA_DIRS", DataDirsDefault()), h.home))
      else
        Ok(SiteList(Getenv(h.env, "XDG_CONFIG_DIRS", "/etc/xdg"), h.home))
    else
      Err(UnsupportedOS(h.platform))
  }

  /** The XDG variable that overrides a user category's base on Linux. */
  function XdgVariable(c: Category): string
    requires !IsSite(c) && c != UserLog
  {
    match c
    case UserData => "XDG_DATA_HOME"
    case UserConfig => "XDG_CONFIG_HOME"
    case UserState => "XDG_STATE_HOME"
    case UserCache => "XDG_CACHE_HOME"
  }

  /** Where a user category lives under the home directory when its XDG variable is unset. */
  function XdgDefault(c: Category): string
    requires !IsSite(c) && c != UserLog
  {
    match c
    case UserData => "/.local/share"
    case UserConfig => "/.config"
    case UserState => "/.local/state"
    case UserCache => "/.cache"
  }

  /**
   * On Linux a user category's base is its XDG variable whenever that is set,
   * even to the empty string, and otherwise the default under the home
   * directory (trailing slashes of the home directory dropped).
   */
  lemma LinuxUserBase(c: Category, appAuthor: Option<string>, roaming: bool, h: Host)
    requires DetectPlatform(h.platform).linux
    requires !IsSite(c) && c != UserLog
    ensures XdgVariable(c) in h.env ==>
      PlatformBase(Tag(c), appAuthor, roaming, h) == Ok([h.env[XdgVariable(c)]])
    ensures XdgVariable(c) !in h.env ==>
      PlatformBase(Tag(c), appAuthor, roaming, h) == Ok([RStrip(h.home, '/') + XdgDefault(c)])
  {
    var flags := DetectPlatform(h.platform);
    assert !flags.windows && !flags.macosx && flags.linux;
    match c
    case UserData =>
    case UserConfig => assert Tag(c) != "user_data";
    case UserState => assert Tag(c) != "user_data" && Tag(c) != "user_config";
    case UserCache => assert Tag(c) != "user_data" && Tag(c) != "user_config" && Tag(c) != "user_state";
  }

  /**
   * A ':'-joined list of plain directories (no ':', no trailing '/', no
   * leading '~') comes out of the site-list comprehension unchanged and in
   * the same order.
   */
  lemma SiteListPlain(dirs: seq<string>, home: string)
    requires |dirs| >= 1
    requires forall k :: 0 <= k < |dirs| ==> ':' !in dirs[k]
    requires forall k :: 0 <= k < |dirs| ==> dirs[k] == [] || (dirs[k][|dirs[k]| - 1] != '/' && dirs[k][0] != '~')
    ensures SiteList(JoinWith(dirs, ':'), home) == dirs
  {
    SplitJoin(dirs, ':');
  }

  /**
   * Entry k of the list is the k-th ':'-piece with its trailing '/'s
   * stripped, so it never ends in '/', unless the stripped piece starts
   * with '~' and is expanded against the home directory.
   */
  lemma SiteListEntry(value: string, home: string, k: int)
    requires 0 <= k < |Split(value, ':')|
    requires var q := RStrip(Split(value, ':')[k], '/'); q == [] || q[0] != '~'
    ensures SiteList(value, home)[k] == RStrip(Split(value, ':')[k], '/')
    ensures var e := SiteList(value, home)[k]; e == [] || e[|e| - 1] != '/'
  {
  }

  /** "/a/:/b//" names the two folders /a and /b. */
  lemma SiteListExample(home: string)
    ensures SiteList("/a/:/b//", home) == ["/a", "/b"]
  {
    assert "/a/:/b//" == "/a/" + [':'] + "/b//";
    SplitPrefix("/a/", "/b//", ':');
    SplitFree("/b//", ':');
    assert RStrip("/a/", '/') == "/a";
    assert RStrip("/b//", '/') == "/b";
  }

  /**
   * On Linux the site_data folders are the pieces of XDG_DATA_DIRS in order,
   * one per piece, defaulting to /usr/local/share then /usr/share.
   */
  lemma LinuxSiteDataBase(appAuthor: Option<string>, roaming: bool, h: Host)
    requires DetectPlatform(h.platform).linux
    ensures "XDG_DATA_DIRS" in h.env ==>
      PlatformBase("site_data", appAuthor, roaming, h) == Ok(SiteList(h.env["XDG_DATA_DIRS"], h.home))
    ensures "XDG_DATA_DIRS" !in h.env ==>
      PlatformBase("site_data", appAuthor, roaming, h) == Ok(["/usr/local/share", "/usr/share"])
  {
    if "XDG_DATA_DIRS" !in h.env {
      assert PlatformBase("site_data", appAuthor, roaming, h) == Ok(SiteList(DataDirsDefault(), h.home));
      DefaultSiteLists(h.home);
    }
  }

  /**
   * On Linux the site_config folders are the pieces of XDG_CONFIG_DIRS in
   * order, one per piece, defaulting to /etc/xdg.
   */
  lemma LinuxSiteConfigBase(appAuthor: Option<string>, roaming: bool, h: Host)
    requires DetectPlatform(h.platform).linux
    ensures "XDG_CONFIG_DIRS" in h.env ==>
      PlatformBase("site_config", appAuthor, roaming, h) == Ok(SiteList(h.env["XDG_CONFIG_DIRS"], h.home))
    ensures "XDG_CONFIG_DIRS" !in h.env ==>
      PlatformBase("site_config", appAuthor, roaming, h) == Ok(["/etc/xdg"])
  {
    if "XDG_CONFIG_DIRS" !in h.env {
      assert PlatformBase("site_config", appAuthor, roaming, h) == Ok(SiteList("/etc/xdg", h.home));
      DefaultSiteLists(h.home);
    }
  }

  /** The two defaults split into their directories unchanged. */
  lemma DefaultSiteLists(home: string)
    ensures SiteList(DataDirsDefault(), home) == ["/usr/local/share", "/usr/share"]
    ensures SiteList("/etc/xdg", home) == ["/etc/xdg"]
  {
    var data := ["/usr/local/share", "/usr/share"];
    assert ':' !in data[0] && ':' !in data[1];
    SiteListPlain(data, home);
    var config := ["/etc/xdg"];
    assert JoinWith(config, ':') == "/etc/xdg";
    SiteListPlain(config, home);
  }

  /** No accessor passes the tag "user_logs" that the Windows branch tests for. */
  lemma NoUserLogsTag(c: Category)
    ensures Tag(c) != "user_logs"
  {
  }

  /**
   * As written, user_log gets the site folder on Windows (the Windows branch
   * tests for "user_logs", so user_log reaches its final else), and the
   * XDG_CONFIG_DIRS list on Linux (the Linux branch has no user_log case).
   */
  lemma UserLogFallsToSite(appAuthor: Option<string>, roaming: bool, h: Host)
    ensures DetectPlatform(h.platform).windows ==>
      PlatformBase("user_log", appAuthor, roaming, h) == PlatformBase("site_data", appAuthor, roaming, h)
    ensures DetectPlatform(h.platform).windows && appAuthor.Some? ==>
      PlatformBase("user_log", appAuthor, roaming, h) == Ok([h.normpath(WinFolder(true, roaming, appAuthor, h).value)])
    ensures DetectPlatform(h.platform).linux ==>
      PlatformBase("user_log", appAuthor, roaming, h) == PlatformBase("site_config", appAuthor, roaming, h)
  {
  }

  /**
   * On Windows, given an author, user_data, user_config and user_state are
   * the normalised roaming (CSIDL 26) or local (CSIDL 28) folder of the
   * author, as `roaming` says.
   */
  lemma WindowsUserBase(c: Category, appAuthor: Option<string>, roaming: bool, h: Host)
    requires DetectPlatform(h.platform).windows && appAuthor.Some?
    requires c == UserData || c == UserConfig || c == UserState
    ensures PlatformBase(Tag(c), appAuthor, roaming, h) == Ok([h.normpath(WinFolder(false, roaming, appAuthor, h).value)])
  {
    assert Tag(c) in ["user_data", "user_config", "user_state"];
  }

  /**
   * On Windows the cache folder ignores `roaming`: it is always "Caches"
   * under the local (non-roaming, CSIDL 28) folder of the author.
   */
  lemma WindowsCacheBase(appAuthor: Option<string>, roaming: bool, h: Host)
    requires DetectPlatform(h.platform).windows && appAuthor.Some?
    ensures PlatformBase("user_cache", appAuthor, roaming, h)
      == Ok([Join(Nt, h.normpath(WinFolder(false, false, appAuthor, h).value), "Caches")])
  {
  }

  /**
   * On Windows user_log and the two site categories are the normalised
   * machine-wide folder (CSIDL 35) of the author.
   */
  lemma WindowsSiteBase(c: Category, appAuthor: Option<string>, roaming: bool, h: Host)
    requires DetectPlatform(h.platform).windows && appAuthor.Some?
    requires c == UserLog || IsSite(c)
    ensures PlatformBase(Tag(c), appAuthor, roaming, h) == Ok([h.normpath(WinFolder(true, roaming, appAuthor, h).value)])
  {
    assert Tag(c) !in ["user_data", "user_config", "user_state"] && Tag(c) != "user_cache" && Tag(c) != "user_logs";
  }

  /**
   * On macOS user_data, user_config and user_state are Application Support
   * in the user's Library.
   */
  lemma MacUserBase(c: Category, appAuthor: Option<string>, roaming: bool, h: Host)
    requires DetectPlatform(h.platform).macosx
    requires c == UserData || c == UserConfig || c == UserState
    ensures PlatformBase(Tag(c), appAuthor, roaming, h) == Ok([RStrip(h.home, '/') + "/Library/Application Support"])
  {
    assert Tag(c) in ["user_data", "user_config", "user_state"];
    ExpandHome(h.home, "/Library/Application Support");
  }

  /** On macOS the cache is Caches and user_log is Logs in the user's Library. */
  lemma MacCacheLogBase(appAuthor: Option<string>, roaming: bool, h: Host)
    requires DetectPlatform(h.platform).macosx
    ensures PlatformBase("user_cache", appAuthor, roaming, h) == Ok([RStrip(h.home, '/') + "/Library/Caches"])
    ensures PlatformBase("user_log", appAuthor, roaming, h) == Ok([RStrip(h.home, '/') + "/Library/Logs"])
  {
    ExpandHome(h.home, "/Library/Caches");
    ExpandHome(h.home, "/Library/Logs");
  }

  /** On macOS the site categories are the machine-wide /Library/Application Support. */
  lemma MacSiteBase(c: Category, appAuthor: Option<string>, roaming: bool, h: Host)
    requires DetectPlatform(h.platform).macosx && IsSite(c)
    ensures PlatformBase(Tag(c), appAuthor, roaming, h) == Ok(["/Library/Application Support"])
  {
    assert Tag(c) !in ["user_data", "user_config", "user_state"] && Tag(c) != "user_cache" && Tag(c) != "user_log";
  }
}
