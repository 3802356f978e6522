# appdirs directory resolver, modelled in Dafny

This project models the directory resolver of the `dwave_appdirs` package. The
resolver decides where an application keeps its data, configuration, state,
cache and log files, per user or machine-wide. The package holds two copies of
it:

- `dwave_appdirs/dwave_appdirs.py` is the maintained copy;
- `appdirs/appdirs.py` is an older copy with different behaviour in a few places.

Both copies run the same pipeline in `_get_folder`:

1. Detect the platform once, from `sys.platform`.
2. Pick the base folders for the requested folder type, one of:
   - the virtualenv prefix;
   - the Windows shell folder of the author;
   - the fixed macOS Library folders;
   - the XDG variables on Linux.
3. Append the app name and the version to every base.
4. With `create`, make the directories that are missing.

Modules, one per file:

- `Types` (types.dfy): the `Result`/`Option` wrappers, the exceptions the resolver raises, and the seven folder categories with the tag strings the accessors pass.
- `OsPath` (os_path.dfy):
  - `os.path.join` for posixpath and for ntpath without drive letters;
  - `str.rstrip`, `str.split` and `str.join` on one character;
  - `os.path.expanduser`, with the home directory given;
  - the ancestors that `os.makedirs` creates;
  - split/join round trips.
- `Host` (host.dfy):
  - the platform flags;
  - `_in_virtualenv_folder`;
  - everything read from outside: the environment, the home directory, the interpreter prefixes, and the Windows shell calls. These are passed in as values.
- `Windows` (win_folder.dfy): `_get_win_folder`. It checks the author, selects the CSIDL, scans the folder for a character above 255, and swaps in the short name. The scan is a loop in the method `GetWinFolder`, proved equal to the function `WinFolder`; the base selection is a function, so it uses `WinFolder`.
- `Convention` (convention.dfy): the platform branch of `_get_folder`. It is identical in both copies. Its properties: exactly one platform branch is taken, the Windows shell folder and the macOS Library folder of every category, the XDG variables and their defaults, and how user_log falls through.
- `Disk` (file_system.dfy): the directories that exist, and `os.makedirs`, as a class whose set of directories the methods update. The function `MakeAll` is the reference for the create steps of the loop: it runs them over the final paths in order and gives the directories afterwards and the index of the first refused path. The loop of `_get_folder` is proved to do exactly what it gives.
- `DwaveAppdirs` (dwave_appdirs.dfy): the maintained `_get_folder`, its loop that creates directories, and its seven accessors.
- `Appdirs` (appdirs.dfy): the older `_get_folder` and its accessors. It differs from the maintained copy in four ways:
  - inside a virtualenv, the base is `[sys.prefix]` for every category;
  - the version is appended only when it is truthy;
  - with `create`, `os.path.exists()` is called without an argument, which raises TypeError before anything is created;
  - `user_log_dir` returns the whole list.

Both copies are modelled as written, quirks included:

- The Windows branch tests for `'user_logs'`, so `user_log` gets the site folder.
- The Linux branch has no `user_log` case, so `user_log` gets the `XDG_CONFIG_DIRS` list.

Where the docstrings disagree with the code, the model follows the code:

- The docstrings say an `app_name` of None returns "just the system directory" (appdirs/appdirs.py:169). In the code, `os.path.join` raises TypeError instead (on Python 3).
- The docstrings promise a Logs folder on Windows and a log folder under the cache on Linux (dwave_appdirs/dwave_appdirs.py:176-177). In the code, user_log gets the site folders instead (see the two points above).
- The older copy says app_author "falls back to appname" (appdirs/appdirs.py:172). In the code, a missing author on Windows raises RuntimeError (appdirs/appdirs.py:358-359).
- The older copy says user_config_dir does "NOT create" the directory (appdirs/appdirs.py:137). In the code, `create` defaults to True (appdirs/appdirs.py:133).
- The older copy says site_data_dir returns the first item of XDG_DATA_DIRS (appdirs/appdirs.py:284-288). In the code, it returns the whole list (appdirs/appdirs.py:301).
- site_config_dirs documents /usr/local/share and `$XDG_DATA_DIRS` (dwave_appdirs/dwave_appdirs.py:228, 233). In the code, it reads XDG_CONFIG_DIRS with the default /etc/xdg (dwave_appdirs/dwave_appdirs.py:316-318).
- The Windows cache is documented as `<AppAuthor>\<AppName>\Cache` (dwave_appdirs/dwave_appdirs.py:115-116). In the code, it is `<AppAuthor>\Caches\<AppName>` (dwave_appdirs/dwave_appdirs.py:285-286, 324).

## Model

| member | source | states |
|---|---|---|
| Types.Tag | dwave_appdirs/dwave_appdirs.py:70-247 | the folder_type string each accessor passes: user_data, user_config, user_state, user_cache, user_log, site_data, site_config |
| Types.TagInjective | dwave_appdirs/dwave_appdirs.py:70-247 | two categories pass the same folder_type string exactly when they are the same category |
| Host.DetectPlatform | dwave_appdirs/dwave_appdirs.py:26-34 | "win32" is Windows, "darwin" is macOS, and every other platform string is Linux; exactly one flag is set; the copy in appdirs/appdirs.py:23-32 is the same |
| Host.FlavourOf | dwave_appdirs/dwave_appdirs.py:324-326 | os.path is ntpath on Windows and posixpath on macOS and Linux |
| Host.InVirtualenv | dwave_appdirs/dwave_appdirs.py:351 | `_in_virtualenv_folder`: a real_prefix, or a base_prefix different from prefix; UseVirtualenvOutside states what it decides; the copy in appdirs/appdirs.py:352 is the same |
| Host.Getenv | dwave_appdirs/dwave_appdirs.py:305-318 | `os.getenv(name, default)`: the variable's value whenever it is set, even to "", else the default |
| OsPath.Join | dwave_appdirs/dwave_appdirs.py:324-326 | `os.path.join` of two components; JoinLast states what it returns |
| OsPath.ExpandUser | dwave_appdirs/dwave_appdirs.py:296-315 | `os.path.expanduser` with the current user's home directory given; ExpandHome states what it returns for "~/..." |
| OsPath.ExpandHome | dwave_appdirs/dwave_appdirs.py:296-300 | "~/rest" expands to the home directory, trailing slashes dropped, followed by /rest |
| OsPath.JoinLast | dwave_appdirs/dwave_appdirs.py:324-326 | the result of os.path.join ends with the joined component as its last path component, and a relative component keeps the base in front |
| OsPath.JoinWith | dwave_appdirs/dwave_appdirs.py:314 | `os.pathsep.join` on one character; JoinSplit and SplitJoin state that it undoes Split and is undone by it |
| OsPath.Parents | dwave_appdirs/dwave_appdirs.py:329 | the ancestors os.makedirs makes on the way: proper non-empty prefixes of the path that end just before a separator and not in one |
| OsPath.RStrip | dwave_appdirs/dwave_appdirs.py:315 | the stripped piece is a prefix of the original that does not end in the separator, and only separators were removed |
| OsPath.Split | dwave_appdirs/dwave_appdirs.py:315 | str.split always yields at least one piece |
| OsPath.SplitMany | dwave_appdirs/dwave_appdirs.py:276 | str.split yields two or more pieces exactly when the separator occurs |
| OsPath.SplitPiecesFree | dwave_appdirs/dwave_appdirs.py:315 | no piece of a split contains the separator |
| OsPath.JoinSplit | dwave_appdirs/dwave_appdirs.py:314-315 | joining the pieces of a split with the separator gives the original string back |
| OsPath.SplitJoin | dwave_appdirs/dwave_appdirs.py:314-315 | splitting a join of separator-free pieces gives the same pieces back, in the same order |
| OsPath.SplitFree | dwave_appdirs/dwave_appdirs.py:317-318 | a value without the separator (such as /etc/xdg) splits into itself alone |
| OsPath.SplitPrefix | dwave_appdirs/dwave_appdirs.py:276 | a separator-free head followed by the separator is split off as the first piece |
| Windows.Csidl | dwave_appdirs/dwave_appdirs.py:360-371 | CSIDL 35 exactly for site folders, 26 exactly for roaming user folders, 28 exactly for local user folders; site wins over roaming |
| Windows.HasHighChar | dwave_appdirs/dwave_appdirs.py:379-383 | the has_high_char scan: some character of the folder is above 255; GetWinFolder's loop is proved to compute it |
| Windows.WinFolder | dwave_appdirs/dwave_appdirs.py:354-389 | RuntimeError exactly when app_author is None; otherwise a folder whose last path component is the author: the shell folder of the selected CSIDL joined with the author, or its short name exactly when the folder has a character above 255 and the short-name call succeeds; the copy in appdirs/appdirs.py:355-389 is the same |
| Windows.GetWinFolder | dwave_appdirs/dwave_appdirs.py:379-389 | the scan of the folder name for a character above 255, stopping at the first, followed by the short-name swap, computes WinFolder |
| Disk.FileSystem.MakeDirs | dwave_appdirs/dwave_appdirs.py:328-329 | os.makedirs fails exactly when the path exists, or when the system refuses the path or one of the missing ancestors it has to make; otherwise the path and its ancestors exist afterwards and nothing else changes |
| Disk.FileSystem.Exists | dwave_appdirs/dwave_appdirs.py:328 | `os.path.exists`: the directory is among those that exist |
| Disk.Refuses | dwave_appdirs/dwave_appdirs.py:328-329 | making a path needs a mkdir the system refuses: of the path itself or of a missing ancestor |
| Disk.MakeAll | dwave_appdirs/dwave_appdirs.py:322-331 | the reference for the create steps of the loop: running them over the paths in order only adds directories, and a run that stops does so at one of the paths |
| Disk.MakeAllTake | dwave_appdirs/dwave_appdirs.py:328-329 | one more path extends the run by one step: skipped when the run has stopped or the path exists, a stop at that index when making it is refused, otherwise the path and its ancestors are added |
| Disk.MakeAllStopped | dwave_appdirs/dwave_appdirs.py:322-331 | once the run has stopped, the paths after it change nothing |
| Disk.MakeAllBound | dwave_appdirs/dwave_appdirs.py:322-331 | a run only makes the paths and their ancestors |
| Disk.MakeAllMade | dwave_appdirs/dwave_appdirs.py:322-331 | a run that does not stop leaves every path in place |
| Disk.MakeAllExisting | dwave_appdirs/dwave_appdirs.py:328 | when every path exists already, the run changes nothing and does not stop |
| Disk.MakeAllStopIndex | dwave_appdirs/dwave_appdirs.py:328-329 | a run that stops at i got through the earlier paths, found path i missing and refused, and made nothing more |
| Disk.FootprintHas | dwave_appdirs/dwave_appdirs.py:322-333 | every final path, with its ancestors, lies in the set of directories the loop may create |
| Convention.PlatformBase | dwave_appdirs/dwave_appdirs.py:279-320 | the base list is never empty; the only error is a missing author on Windows, so the unsupported-platform branch is unreachable; the copy in appdirs/appdirs.py:39-80 is the same |
| Convention.LinuxUserBase | dwave_appdirs/dwave_appdirs.py:305-312 | on Linux a user category's base is its XDG variable whenever it is set, even to "", else ~/.local/share, ~/.config, ~/.local/state or ~/.cache under the home directory |
| Convention.SiteList | dwave_appdirs/dwave_appdirs.py:313-318 | the site-list comprehension gives one entry per ':'-separated piece, at least one |
| Convention.DataDirsDefault | dwave_appdirs/dwave_appdirs.py:314 | the XDG_DATA_DIRS default is exactly "/usr/local/share:/usr/share" |
| Convention.SiteListEntry | dwave_appdirs/dwave_appdirs.py:313-318 | entry k is the k-th ':'-piece with its trailing '/'s stripped, and so never ends in '/', whenever the stripped piece does not start with '~' |
| Convention.SiteListExample | dwave_appdirs/dwave_appdirs.py:313-318 | "/a/:/b//" gives exactly [/a, /b] |
| Convention.SiteListPlain | dwave_appdirs/dwave_appdirs.py:313-318 | a ':'-list of plain directories comes out of the site comprehension unchanged, one entry per piece, in order |
| Convention.LinuxSiteDataBase | dwave_appdirs/dwave_appdirs.py:313-315 | site_data on Linux is the processed XDG_DATA_DIRS, or [/usr/local/share, /usr/share] when it is unset |
| Convention.LinuxSiteConfigBase | dwave_appdirs/dwave_appdirs.py:316-318 | site_config on Linux is the processed XDG_CONFIG_DIRS, or [/etc/xdg] when it is unset |
| Convention.DefaultSiteLists | dwave_appdirs/dwave_appdirs.py:314-318 | the defaults /usr/local/share:/usr/share and /etc/xdg split into exactly those directories |
| Convention.NoUserLogsTag | dwave_appdirs/dwave_appdirs.py:287 | no accessor passes the tag "user_logs" that the Windows branch tests for |
| Convention.UserLogFallsToSite | dwave_appdirs/dwave_appdirs.py:287-318 | as written, user_log gets the site_data folder on Windows (the common application-data folder of the author) and the site_config list on Linux |
| Convention.WindowsUserBase | dwave_appdirs/dwave_appdirs.py:280-281 | on Windows user_data, user_config and user_state are the normalised roaming (CSIDL 26) or local (CSIDL 28) folder of the author, as roaming says |
| Convention.WindowsCacheBase | dwave_appdirs/dwave_appdirs.py:282-286 | on Windows the cache is always "Caches" under the local, non-roaming folder, whatever roaming says |
| Convention.WindowsSiteBase | dwave_appdirs/dwave_appdirs.py:287-292 | on Windows user_log and the site categories are the normalised machine-wide folder (CSIDL 35) of the author |
| Convention.MacUserBase | dwave_appdirs/dwave_appdirs.py:294-296 | on macOS user_data, user_config and user_state are ~/Library/Application Support |
| Convention.MacCacheLogBase | dwave_appdirs/dwave_appdirs.py:297-300 | on macOS the cache is ~/Library/Caches and user_log is ~/Library/Logs |
| Convention.MacSiteBase | dwave_appdirs/dwave_appdirs.py:301-302 | on macOS the site categories are /Library/Application Support |
| DwaveAppdirs.SubFolder | dwave_appdirs/dwave_appdirs.py:276 | `folder_type.split('_')[1]`: IndexError exactly when the tag has no '_', otherwise a '_'-free word |
| DwaveAppdirs.BasePaths | dwave_appdirs/dwave_appdirs.py:275-320 | a successful base selection is never empty |
| DwaveAppdirs.AppPath | dwave_appdirs/dwave_appdirs.py:324-326 | one final path: the base joined with the app name, then with the version unless it is None; FinalPathsAt, LastComponent and AppPathPlain state what it gives |
| DwaveAppdirs.FinalPaths | dwave_appdirs/dwave_appdirs.py:322-333 | one final path per base folder |
| DwaveAppdirs.Joined | dwave_appdirs/dwave_appdirs.py:322-326 | TypeError exactly when app_name is None, otherwise one final path per base folder |
| DwaveAppdirs.Resolve | dwave_appdirs/dwave_appdirs.py:250-333 | a successful result is never empty |
| DwaveAppdirs.GetFolder | dwave_appdirs/dwave_appdirs.py:250-333 | the result is Resolve, except that with create the first final path the system refuses to make raises OSError naming it; existing directories stay; without create, on an exception of the base selection or the join, or when every final path exists, nothing changes; with create a successful call leaves every returned path in place; only final paths and their ancestors are created; an OSError comes at the first final path that could not be made, after the earlier ones exist and with only their footprint created; with create the directories afterwards are exactly those MakeAll gives for the final paths, and OSError is raised exactly when that run stops, naming the path it stopped at |
| DwaveAppdirs.JoinAndCreate | dwave_appdirs/dwave_appdirs.py:322-333 | the loop returns every final path in order, or, when creating, stops with an OSError at the first one it cannot make, every earlier one existing and only their directories created; without create, or when every path exists, nothing changes; with create every returned path exists afterwards and only final paths and their ancestors are added; with create the directories afterwards are exactly those MakeAll gives for the paths, and the loop raises OSError exactly when that run stops, naming the path it stopped at |
| DwaveAppdirs.EnsureDir | dwave_appdirs/dwave_appdirs.py:328-329 | a directory is created only with create and only when it does not exist yet, and the step fails exactly when that creation is refused |
| DwaveAppdirs.First | dwave_appdirs/dwave_appdirs.py:70 | `[0]` of the resolver's list, and an exception passes through unchanged |
| DwaveAppdirs.UserDataDir | dwave_appdirs/dwave_appdirs.py:37-70 | the first user_data path, with the source's defaults, after the whole list has been made; with create, the same effect on the directories as _get_folder for that category: existing ones stay, every final path exists after a success, only final paths and their ancestors are created, nothing changes when all exist, and an OSError stops at the first final path that cannot be made; with create the directories afterwards are exactly those MakeAll gives for the final paths, and OSError is raised exactly when that run stops, naming the path it stopped at |
| DwaveAppdirs.UserConfigDir | dwave_appdirs/dwave_appdirs.py:73-102 | the first user_config path, after the whole list has been made; with create, the same effect on the directories as _get_folder for that category: existing ones stay, every final path exists after a success, only final paths and their ancestors are created, nothing changes when all exist, and an OSError stops at the first final path that cannot be made; with create the directories afterwards are exactly those MakeAll gives for the final paths, and OSError is raised exactly when that run stops, naming the path it stopped at |
| DwaveAppdirs.UserCacheDir | dwave_appdirs/dwave_appdirs.py:105-130 | the first user_cache path, never roaming, after the whole list has been made; with create, the same effect on the directories as _get_folder for that category: existing ones stay, every final path exists after a success, only final paths and their ancestors are created, nothing changes when all exist, and an OSError stops at the first final path that cannot be made; with create the directories afterwards are exactly those MakeAll gives for the final paths, and OSError is raised exactly when that run stops, naming the path it stopped at |
| DwaveAppdirs.UserStateDir | dwave_appdirs/dwave_appdirs.py:133-164 | the first user_state path, after the whole list has been made; with create, the same effect on the directories as _get_folder for that category: existing ones stay, every final path exists after a success, only final paths and their ancestors are created, nothing changes when all exist, and an OSError stops at the first final path that cannot be made; with create the directories afterwards are exactly those MakeAll gives for the final paths, and OSError is raised exactly when that run stops, naming the path it stopped at |
| DwaveAppdirs.UserLogDir | dwave_appdirs/dwave_appdirs.py:167-191 | the first user_log path, never roaming, after the whole list has been made; with create, the same effect on the directories as _get_folder for that category: existing ones stay, every final path exists after a success, only final paths and their ancestors are created, nothing changes when all exist, and an OSError stops at the first final path that cannot be made; with create the directories afterwards are exactly those MakeAll gives for the final paths, and OSError is raised exactly when that run stops, naming the path it stopped at |
| DwaveAppdirs.SiteDataDirs | dwave_appdirs/dwave_appdirs.py:194-219 | the whole site_data list; not created by default; with create, the same effect on the directories as _get_folder for that category: existing ones stay, every final path exists after a success, only final paths and their ancestors are created, nothing changes when all exist, and an OSError stops at the first final path that cannot be made; with create the directories afterwards are exactly those MakeAll gives for the final paths, and OSError is raised exactly when that run stops, naming the path it stopped at |
| DwaveAppdirs.SiteConfigDirs | dwave_appdirs/dwave_appdirs.py:222-247 | the whole site_config list; with create, the same effect on the directories as _get_folder for that category: existing ones stay, every final path exists after a success, only final paths and their ancestors are created, nothing changes when all exist, and an OSError stops at the first final path that cannot be made; with create the directories afterwards are exactly those MakeAll gives for the final paths, and OSError is raised exactly when that run stops, naming the path it stopped at |
| DwaveAppdirs.RefusedSiteData | dwave_appdirs/dwave_appdirs.py:313-331 | on Linux with XDG_DATA_DIRS="/a:/b" and a system that refuses /a/app, site_data_dir with create raises OSError for /a/app and makes nothing |
| DwaveAppdirs.FirstRefused | dwave_appdirs/dwave_appdirs.py:322-331 | making /a/app then /b/app where /a/app is refused stops at the first path with nothing made |
| DwaveAppdirs.CreateTwice | dwave_appdirs/dwave_appdirs.py:328-329 | a second call with create returns the same paths as a successful first one, and they all exist |
| DwaveAppdirs.FinalPathsIndex | dwave_appdirs/dwave_appdirs.py:323-326 | the i-th final path is the i-th base joined with the app name and the version |
| DwaveAppdirs.FinalPathsAt | dwave_appdirs/dwave_appdirs.py:322-333 | every final path comes from the base folder at the same position |
| DwaveAppdirs.FinalPathsSmall | dwave_appdirs/dwave_appdirs.py:322-333 | one and two base folders give one and two final paths, in order |
| DwaveAppdirs.TagSplit | dwave_appdirs/dwave_appdirs.py:276 | the text after the '_' of a two-word tag is its second word |
| DwaveAppdirs.SubFolderIsKind | dwave_appdirs/dwave_appdirs.py:276 | every tag has a '_', so the IndexError cannot happen, and the text after it is the category's kind |
| DwaveAppdirs.SitePrefix | dwave_appdirs/dwave_appdirs.py:275 | only the two site categories have tags starting with "site" |
| DwaveAppdirs.VirtualenvBase | dwave_appdirs/dwave_appdirs.py:275-277 | inside a virtualenv with use_virtualenv, a user category is based at prefix/<data, config, state, cache or log> on every platform |
| DwaveAppdirs.SiteIgnoresVirtualenv | test/test_dwave_appdirs.py:402-404 | site categories get the platform folders with or without use_virtualenv |
| DwaveAppdirs.NoOverrideBase | dwave_appdirs/dwave_appdirs.py:275-320 | without the virtualenv override the base is the platform convention |
| DwaveAppdirs.UseVirtualenvOutside | dwave_appdirs/dwave_appdirs.py:275-351 | with no sys.real_prefix and a sys.base_prefix absent or equal to sys.prefix, use_virtualenv makes no difference to the result |
| DwaveAppdirs.ResolveShape | dwave_appdirs/dwave_appdirs.py:322-333 | success exactly when the base selection succeeds and app_name is given; then one path per base folder, in order, each being the base joined with the app name and the version |
| DwaveAppdirs.ResolveErrors | dwave_appdirs/dwave_appdirs.py:250-333 | the only exceptions are the missing author (exactly: Windows, no author, no virtualenv override) and TypeError (exactly: app_name None) |
| DwaveAppdirs.VersionSegment | dwave_appdirs/dwave_appdirs.py:325-326 | a version, even "", adds exactly one trailing segment to every path |
| DwaveAppdirs.LastComponent | dwave_appdirs/dwave_appdirs.py:324-326 | the last path component of every result is the version when one is given, otherwise the app name |
| DwaveAppdirs.SameBaseSameResult | dwave_appdirs/dwave_appdirs.py:322-333 | the result depends on the category only through its base folders |
| DwaveAppdirs.UserLogBase | dwave_appdirs/dwave_appdirs.py:287-318 | outside the virtualenv override, user_log has the base folders of site_data on Windows and of site_config on Linux |
| DwaveAppdirs.WindowsUserLogAsWritten | dwave_appdirs/dwave_appdirs.py:287-292 | as written, user_log_dir on Windows resolves to the same paths as site_data |
| DwaveAppdirs.LinuxUserLogAsWritten | dwave_appdirs/dwave_appdirs.py:316-318 | as written, user_log_dir on Linux resolves to the same paths as site_config |
| DwaveAppdirs.ResolveFrom | dwave_appdirs/dwave_appdirs.py:322-333 | given the base folders and an app name, the result is their final paths |
| DwaveAppdirs.XdgCacheHomeExample | dwave_appdirs/dwave_appdirs.py:311-312 | XDG_CACHE_HOME=/tmp/x gives exactly [/tmp/x/app] |
| DwaveAppdirs.ConfigDefaultExample | dwave_appdirs/dwave_appdirs.py:307-308 | with XDG_CONFIG_HOME unset and home /home/u, the config folder is exactly [/home/u/.config/app] |
| DwaveAppdirs.XdgDataDirsExample | dwave_appdirs/dwave_appdirs.py:313-315 | XDG_DATA_DIRS="/a:/b" gives exactly [/a/app, /b/app] |
| DwaveAppdirs.XdgDataDirsBase | dwave_appdirs/dwave_appdirs.py:313-315 | XDG_DATA_DIRS="/a:/b" gives exactly the base folders [/a, /b], with or without use_virtualenv |
| DwaveAppdirs.AppPathPlain | dwave_appdirs/dwave_appdirs.py:324-326 | on POSIX, plain names are joined with a single '/' between them |
| DwaveAppdirs.JoinPlain | dwave_appdirs/dwave_appdirs.py:277 | on POSIX, a base without a trailing '/' and a relative name are joined with exactly one '/' |
| DwaveAppdirs.VirtualenvPosixBase | dwave_appdirs/dwave_appdirs.py:275-277 | inside a virtualenv on macOS or Linux, a user category is based at exactly prefix/<kind> |
| DwaveAppdirs.VirtualenvLayout | test/test_dwave_appdirs.py:458-462 | inside a virtualenv on macOS or Linux, a user category resolves to exactly prefix/<kind>/<app>/<version> |
| Appdirs.BasePaths | appdirs/appdirs.py:36-80 | inside a virtualenv with use_virtualenv the base is exactly [sys.prefix] for every category; a successful selection is never empty |
| Appdirs.Appended | appdirs/appdirs.py:85-86 | a version segment is appended exactly when the version is given and non-empty |
| Appdirs.Resolve | appdirs/appdirs.py:82-93 | a successful result is never empty |
| Appdirs.GetFolder | appdirs/appdirs.py:82-93 | an error of the base selection passes through; with create, every call that gets past it raises TypeError; without create, the result is Resolve |
| Appdirs.JoinAll | appdirs/appdirs.py:82-93 | the loop returns every final path in order without create, and raises TypeError on the first base folder with create |
| Appdirs.UserDataDir | appdirs/appdirs.py:96-130 | the first user_data path without create; TypeError with create, which is the default; an exception of the base selection (the missing Windows author) comes first, with or without create |
| Appdirs.UserConfigDir | appdirs/appdirs.py:133-162 | the first user_config path without create; TypeError with create; an exception of the base selection (the missing Windows author) comes first, with or without create |
| Appdirs.UserCacheDir | appdirs/appdirs.py:165-198 | the first user_cache path, never roaming, without create; TypeError with create; an exception of the base selection (the missing Windows author) comes first, with or without create |
| Appdirs.UserStateDir | appdirs/appdirs.py:201-232 | the first user_state path without create; TypeError with create; an exception of the base selection (the missing Windows author) comes first, with or without create |
| Appdirs.UserLogDir | appdirs/appdirs.py:235-267 | as written, the whole user_log list rather than its first path; an exception of the base selection (the missing Windows author) comes first, with or without create |
| Appdirs.SiteDataDir | appdirs/appdirs.py:270-301 | the whole site_data list; not created by default; an exception of the base selection (the missing Windows author) comes first, with or without create |
| Appdirs.SiteConfigDir | appdirs/appdirs.py:304-334 | the whole site_config list; create is the default, so by default it raises TypeError; an exception of the base selection (the missing Windows author) comes first, with or without create |
| Appdirs.VirtualenvAll | appdirs/appdirs.py:36-37 | inside a virtualenv every category, site ones included, resolves to the single path prefix/app[/version], while the maintained copy adds the kind for user categories and ignores the virtualenv for site ones |
| Appdirs.EmptyVersionNoSegment | appdirs/appdirs.py:85-86 | an empty version adds no segment; a non-empty one adds exactly one trailing segment to every path |
| Appdirs.AgreesWithDwave | appdirs/appdirs.py:35-93 | outside the virtualenv override the older copy returns what the maintained one returns for the truthy version, and exactly the same unless the version is "" |
| Appdirs.ResolveErrors | appdirs/appdirs.py:35-93 | the only exceptions are the missing Windows author outside a virtualenv and TypeError for a None app_name |
| Appdirs.UserLogAsWritten | appdirs/appdirs.py:47-52 | as written, user_log takes the site folder on Windows and the site_config list on Linux |

## Left out

- The ctypes calls SHGetFolderPathW and GetShortPathNameW, and the 1024-character buffers, are not modelled. They are opaque functions of the host; a failed short-name call leaves the folder unchanged. A folder longer than the buffer is not modelled.
- os.path.normpath is an opaque function of the host. Its output is not related to its input.
- ntpath drive letters and UNC paths are not modelled: on Windows, os.path.join is modelled without them.
- os.path.expanduser for "~name" is not modelled: other users' home directories are not looked up, and such a path is returned unchanged. The current user's home directory is a given value.
- How sys.platform, os.environ and the interpreter prefixes are read is not modelled. They are fields of the host value.
- Disk.FileSystem.MakeDirs: a makedirs that fails part-way is modelled as creating nothing, although os.makedirs keeps the ancestors it made before the refused one. Races with other processes between the existence check and makedirs are not modelled. Like Exists, it compares paths by exact string, so it adds another spelling of an existing directory ("/x/app/" beside "/x/app") as a new entry instead of raising FileExistsError, and it succeeds or fails by the ancestors missing from the set, not by those missing on a real filesystem.
- DwaveAppdirs.GetFolder: the OSError is modelled as naming the final path, whereas Python's exception names the directory whose mkdir failed, which may be an ancestor of it.
- DwaveAppdirs.ResolveErrors: Python 3's os.path.join is modelled, so a None app_name raises TypeError. On Python 2, which the package also supports, posixpath.join(path, None) raises AttributeError instead.
- Appdirs.ResolveErrors: the same choice of Python 3 for a None app_name. Python 2's posixpath raises AttributeError.
- Disk.FileSystem.Exists: a directory is its exact path string. "/x/app/" and "/x/app" are different entries, so with a version of "" (whose final path ends in '/') an existing "/x/app" is not seen, and MakeDirs adds "/x/app/" where os.path.exists would return True and nothing would be made. The set of existing directories need not contain the ancestors of its members, which a real filesystem guarantees. Regular files are not modelled.
- Appdirs.GetFolder: with create the call always raises, so the older copy's makedirs is never reached and no filesystem is modelled for it.
- The test module is not modelled: it needs a real filesystem and a virtualenv.
- Type annotations, docstrings and the `__version__` tuple are not modelled.
