/**
 The Emacs window test used by the focus-or-launch shortcut: a window is an
 Emacs frame if its class name says so, or if it belongs to one of the known
 X-server / remote-desktop host processes and its title begins with "Emacs ".
 */
module EmacsClassifier {

  /** The three things the test reads from a window. */
  datatype Window = Window(processName: string, className: string, title: string)

  /** Processes that host X11 or WSLg windows and so hide the client's own identity. */
  const XServerHosts: seq<string> := [
    "mstsc.exe",               // WSLg
    "msrdc.exe",               // WSLg
    "XWin.exe",                // Cygwin/X
    "XWin_MobaX.exe",          // MobaXterm/X
    "XWin_MobaX_1.16.3.exe",   // MobaXterm/X
    "XWin_Cygwin_1.14.5.exe",  // MobaXterm/X
    "XWin_Cygwin_1.16.3.exe",  // MobaXterm/X
    "Xming.exe",               // Xming
    "vcxsrv.exe",              // VcXsrv
    "GWSL_vcxsrv.exe",         // GWSL
    "GWSL_vcxsrv_lowdpi.exe",  // GWSL
    "X410.exe",                // X410
    "Xpra-Launcher.exe"        // Xpra
  ]

  /** The title prefix an Emacs frame is configured to show; case and trailing space matter. */
  const EmacsTitlePrefix: string := "Emacs "

  /** `s` begins with `prefix`, character for character. */
  predicate StartsWith(s: string, prefix: string)
  {
    |prefix| <= |s| && s[..|prefix|] == prefix
  }

  /** Declarative statement of the test. */
  predicate IsEmacsWindow(w: Window)
  {
    || w.className == "Emacs"
    || (w.processName in XServerHosts && StartsWith(w.title, EmacsTitlePrefix))
  }

  /** Linear scan of a list for an equal string, as a list membership test does. */
  method ListContains(list: seq<string>, x: string) returns (found: bool)
    ensures found <==> x in list
  {
    found := false;
    var i := 0;
    while i < |list| && !found
      invariant 0 <= i <= |list|
      invariant found <==> x in list[..i]
    {
      found := list[i] == x;
      assert list[..i + 1] == list[..i] + [list[i]];
      i := i + 1;
    }
    assert !found ==> list[..i] == list;
  }

  /** Character-by-character prefix test, as a string's prefix check does. */
  method HasPrefix(s: string, prefix: string) returns (r: bool)
    ensures r <==> StartsWith(s, prefix)
  {
    if |s| < |prefix| {
      return false;
    }
    var i := 0;
    while i < |prefix|
      invariant 0 <= i <= |prefix|
      invariant s[..i] == prefix[..i]
    {
      if s[i] != prefix[i] {
        assert s[..|prefix|][i] != prefix[i];
        return false;
      }
      assert s[..i + 1] == s[..i] + [s[i]];
      assert prefix[..i + 1] == prefix[..i] + [prefix[i]];
      i := i + 1;
    }
    assert prefix[..i] == prefix;
    return true;
  }

  /**
   The test as the configuration runs it: class name first, and only when
   that fails, the host-process list and then the title.
   */
  method CheckFuncEmacs(w: Window) returns (r: bool)
    ensures r <==> IsEmacsWindow(w)
  {
    if w.className == "Emacs" {
      return true;
    }
    var hosted := ListContains(XServerHosts, w.processName);
    if !hosted {
      return false;
    }
    r := HasPrefix(w.title, EmacsTitlePrefix);
  }

  /** A window whose class is "Emacs" matches, whatever its process and title. */
  lemma ClassNameSuffices(processName: string, title: string)
    ensures IsEmacsWindow(Window(processName, "Emacs", title))
  {
  }

  /** Outside the host list, a non-Emacs class never matches, even with an Emacs-like title. */
  lemma UnlistedHostNeverMatches(w: Window)
    requires w.className != "Emacs"
    requires w.processName !in XServerHosts
    ensures !IsEmacsWindow(w)
  {
  }

  /** Under a listed host, a non-Emacs class matches exactly when the title begins with "Emacs ". */
  lemma ListedHostNeedsTitle(w: Window)
    requires w.className != "Emacs"
    requires w.processName in XServerHosts
    ensures IsEmacsWindow(w) <==> StartsWith(w.title, "Emacs ")
  {
  }

  /** The title test: "Emacs" alone and a lower-case "emacs x" are rejected, "Emacs foo" accepted. */
  lemma TitleExamples()
    ensures !IsEmacsWindow(Window("vcxsrv.exe", "", "Emacs"))
    ensures !IsEmacsWindow(Window("vcxsrv.exe", "", "emacs x"))
    ensures IsEmacsWindow(Window("vcxsrv.exe", "", "Emacs foo"))
    ensures !IsEmacsWindow(Window("emacs.exe", "", "Emacs foo"))
  {
    assert "vcxsrv.exe" == XServerHosts[8];
    assert "Emacs foo"[..6] == "Emacs ";
    assert "emacs x"[..6][0] != "Emacs "[0];
  }
}
