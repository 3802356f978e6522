/**
 * _get_win_folder: the per-author Windows application-data folder. The
 * shell call that maps a CSIDL number to a folder and the short-name call
 * are the injected Host.shellFolder and Host.shortPath.
 */
module Windows {
  import opened Types
  import opened OsPath
  import opened Host

  const CSIDL_APPDATA: int := 26
  const CSIDL_COMMON_APPDATA: int := 35
  const CSIDL_LOCAL_APPDATA: int := 28

  /**
   * The special folder asked for: the machine-wide one for site folders,
   * whatever `roaming` says; otherwise the roaming or the local one.
   */
  function Csidl(site: bool, roaming: bool): (n: int)
    ensures n == CSIDL_COMMON_APPDATA <==> site
    ensures n == CSIDL_APPDATA <==> !site && roaming
    ensures n == CSIDL_LOCAL_APPDATA <==> !site && !roaming
  {
    if site then CSIDL_COMMON_APPDATA
    else if roaming then CSIDL_APPDATA
    else CSIDL_LOCAL_APPDATA
  }

  /** Some character of s lies outside Latin-1 (ord(c) > 255). */
  predicate HasHighChar(s: string)
  {
    exists i :: 0 <= i < |s| && s[i] as int > 255
  }

  /**
   * What _get_win_folder returns: RuntimeError without an author; otherwise
   * the shell folder, replaced by its short name when it has a character
   * above 255 and the short-name call succeeds, joined with the author.
   */
  function WinFolder(site: bool, roaming: bool, appAuthor: Option<string>, h: Host): (r: Result<string>)
    ensures appAuthor.None? <==> r == Err(MissingAuthor)
    ensures appAuthor.Some? ==> r.Ok?
    ensures appAuthor.Some? ==> LastSegment(Nt, r.value, appAuthor.value)
    ensures var buf := h.shellFolder(Csidl(site, roaming));
      appAuthor.Some? && !(HasHighChar(buf) && h.shortPath(buf).Some?) ==> r == Ok(Join(Nt, buf, appAuthor.value))
    ensures var buf := h.shellFolder(Csidl(site, roaming));
      appAuthor.Some? && HasHighChar(buf) && h.shortPath(buf).Some? ==>
        r == Ok(Join(Nt, h.shortPath(buf).value, appAuthor.value))
  {
    if appAuthor.None? then Err(MissingAuthor)
    else
      var buf := h.shellFolder(Csidl(site, roaming));
      var value := if HasHighChar(buf) && h.shortPath(buf).Some? then h.shortPath(buf).value else buf;
      JoinLast(Nt, value, appAuthor.value);
      Ok(Join(Nt, value, appAuthor.value))
  }

  /**
   * _get_win_folder as the source runs it, scanning the folder name for a
   * high character and stopping at the first one.
   */
  method GetWinFolder(site: bool, roaming: bool, appAuthor: Option<string>, h: Host)
    returns (r: Result<string>)
    ensures r == WinFolder(site, roaming, appAuthor, h)
  {
    if appAuthor.None? {
      return Err(MissingAuthor);
    }
    var buf := h.shellFolder(Csidl(site, roaming));
    var hasHighChar := false;
    var i := 0;
    while i < |buf|
      invariant 0 <= i <= |buf|
      invariant forall j :: 0 <= j < i ==> buf[j] as int <= 255
      invariant !hasHighChar
    {
      if buf[i] as int > 255 {
        hasHighChar := true;
        break;
      }
      i := i + 1;
    }
    assert hasHighChar <==> HasHighChar(buf);
    if hasHighChar {
      var buf2 := h.shortPath(buf);
      if buf2.Some? {
        buf := buf2.value;
      }
    }
    return Ok(Join(Nt, buf, appAuthor.value));
  }
}
