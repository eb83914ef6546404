/**
 * The main window: four-way navigation with its button styles, the
 * window-centring arithmetic, cache-path resolution, the help and
 * model-info texts, and the session state shared with the home views.
 *
 * `os.environ`, `os.path.expanduser`, the screen and window sizes Tk
 * reports and the reads of the two resource files are inputs.
 */
module Gui {
  import opened Wrappers
  import opened Text
  import opened History
  import opened Home

  /** The navigation targets, in the order `_apply_nav_styles` restyles their buttons. */
  const NAV_KEYS := ["home", "model", "help", "settings"]
  const NAV_STYLE := "Nav.TButton"
  const ACTIVE_NAV_STYLE := "ActiveNav.TButton"
  const DEFAULT_WINDOW_WIDTH := 1000
  const DEFAULT_WINDOW_HEIGHT := 700
  const HELP_FALLBACK :=
    "If an error occurs during testing an input, it will appear here.\n"
    + "Check your internet connection, requirements, or contact support."
  const LAST_ERROR_HEADER := "\n\nLast error:\n"
  const MODEL_INFO_FAILURE := "Could not load model info: "

  /** The outcome of reading a resource file: its contents, or the exception's message. */
  datatype FileRead = Contents(text: string) | ReadFailed(message: string)

  /** The window geometry `center_window` sets: `{w}x{h}+{x}+{y}`. */
  datatype Geometry = Geometry(width: nat, height: nat, x: int, y: int)

  /** What the content container holds. */
  datatype View = NoView | HomePage(home: HomeView) | ModelPage(text: string) | HelpPage(text: string) | SettingsPage

  // ---------------------------------------------------------------------
  // Pure helpers

  /** `os.path.join(a, b)` on POSIX. */
  function JoinPath(a: string, b: string): string {
    if StartsWith(b, "/") then b
    else if a == "" || EndsWith(a, "/") then a + b
    else a + "/" + b
  }

  /** The joined path ends with the second part, and keeps the first unless the second is absolute. */
  lemma JoinPathParts(a: string, b: string)
    ensures EndsWith(JoinPath(a, b), b)
    ensures StartsWith(b, "/") ==> JoinPath(a, b) == b
    ensures !StartsWith(b, "/") ==> StartsWith(JoinPath(a, b), a) && |JoinPath(a, b)| <= |a| + 1 + |b|
  {
  }

  /** `os.environ.get("HF_HOME", os.path.join(home, ".cache", "huggingface"))`. */
  function CachePath(hfHome: Option<string>, home: string): (r: string)
    ensures hfHome.Some? ==> r == hfHome.value
    ensures hfHome.None? ==>
      r == (if home == "" || EndsWith(home, "/") then home else home + "/") + ".cache/huggingface"
  {
    match hfHome
    case Some(dir) => dir
    case None =>
      var prefix := if home == "" || EndsWith(home, "/") then home else home + "/";
      assert !StartsWith(".cache", "/") by { assert ".cache"[..1][0] == '.'; }
      assert !StartsWith("huggingface", "/") by { assert "huggingface"[..1][0] == 'h'; }
      var cache := JoinPath(home, ".cache");
      assert cache == prefix + ".cache";
      assert cache != "" && cache[|cache| - 1] == 'e';
      assert cache + "/" + "huggingface" == prefix + ".cache/huggingface";
      JoinPath(cache, "huggingface")
  }

  /** Without `HF_HOME` the cache lies under the home directory. */
  lemma DefaultCacheUnderHome(home: string)
    ensures StartsWith(CachePath(None, home), home)
    ensures EndsWith(CachePath(None, home), ".cache/huggingface")
  {
    var r := CachePath(None, home);
    var prefix := if home == "" || EndsWith(home, "/") then home else home + "/";
    assert r == prefix + ".cache/huggingface";
    assert r[..|home|] == prefix[..|home|];
  }

  /**
   * `center_window`: a reported size of 0 falls back to 1000 by 700, and the
   * window's centre lies within one pixel of the screen's centre (exactly on
   * it when both sizes are even); an odd size rounds the offset down.
   */
  function CenterWindow(reportedWidth: nat, reportedHeight: nat, screenWidth: nat, screenHeight: nat): (g: Geometry)
    ensures g.width == (if reportedWidth == 0 then DEFAULT_WINDOW_WIDTH else reportedWidth)
    ensures g.height == (if reportedHeight == 0 then DEFAULT_WINDOW_HEIGHT else reportedHeight)
    ensures -1 <= 2 * g.x + g.width - screenWidth <= 1
    ensures -1 <= 2 * g.y + g.height - screenHeight <= 1
    ensures 2 * g.x + g.width - screenWidth == g.width % 2 - screenWidth % 2
    ensures 2 * g.y + g.height - screenHeight == g.height % 2 - screenHeight % 2
    ensures g.width % 2 == screenWidth % 2 == 0 ==> 2 * g.x + g.width == screenWidth
    ensures g.height % 2 == screenHeight % 2 == 0 ==> 2 * g.y + g.height == screenHeight
  {
    var w := if reportedWidth == 0 then DEFAULT_WINDOW_WIDTH else reportedWidth;
    var h := if reportedHeight == 0 then DEFAULT_WINDOW_HEIGHT else reportedHeight;
    Geometry(w, h, screenWidth / 2 - w / 2, screenHeight / 2 - h / 2)
  }

  /** The model-info page: the file's contents, or the failure with its reason. */
  function ModelInfoText(read: FileRead): (r: string)
    ensures read.Contents? ==> r == read.text
    ensures read.ReadFailed? ==> StartsWith(r, MODEL_INFO_FAILURE) && r[|MODEL_INFO_FAILURE|..] == read.message
  {
    match read
    case Contents(text) => text
    case ReadFailed(message) => MODEL_INFO_FAILURE + message
  }

  /** The help page's body before any error: the file's contents or the fixed fallback. */
  function HelpBody(read: FileRead): string {
    if read.Contents? then read.text else HELP_FALLBACK
  }

  /** The help page: the body, followed by the last error exactly when there is one. */
  function HelpText(read: FileRead, lastError: Option<string>): (r: string)
    ensures StartsWith(r, HelpBody(read))
    ensures Truthy(lastError) ==> r[|HelpBody(read)|..] == LAST_ERROR_HEADER + lastError.value
    ensures !Truthy(lastError) ==> r == HelpBody(read)
  {
    var body := HelpBody(read);
    if Truthy(lastError) then body + LAST_ERROR_HEADER + lastError.value else body
  }

  /** The help page shows the last error iff there is one, and the error can be read back off its end. */
  lemma HelpTextShowsLastError(read: FileRead, lastError: Option<string>)
    ensures var r := HelpText(read, lastError);
      (Truthy(lastError) <==> |r| > |HelpBody(read)|) &&
      (Truthy(lastError) ==> EndsWith(r, lastError.value))
  {
    var r := HelpText(read, lastError);
    if Truthy(lastError) {
      assert r[|r| - |lastError.value|..] == lastError.value;
    }
  }

  /** A failed help read ignores the reason, unlike a failed model-info read, which keeps it. */
  lemma FailureTexts(m1: string, m2: string, lastError: Option<string>)
    ensures HelpText(ReadFailed(m1), lastError) == HelpText(ReadFailed(m2), lastError)
    ensures ModelInfoText(ReadFailed(m1)) == ModelInfoText(ReadFailed(m2)) <==> m1 == m2
  {
    if ModelInfoText(ReadFailed(m1)) == ModelInfoText(ReadFailed(m2)) {
      assert m1 == ModelInfoText(ReadFailed(m1))[|MODEL_INFO_FAILURE|..];
    }
  }

  /** The button styles `_apply_nav_styles` leaves for the active target. */
  function NavStyles(active: string): (r: map<string, string>) {
    map k | k in NAV_KEYS :: if k == active then ACTIVE_NAV_STYLE else NAV_STYLE
  }

  /** The buttons that carry the active style. */
  function ActiveButtons(styles: map<string, string>): set<string> {
    set k | k in styles && styles[k] == ACTIVE_NAV_STYLE
  }

  /**
   * For one of the four targets exactly its own button is active and the other
   * three are plain; for any other target no button is active.
   */
  lemma ExactlyOneActive(target: string)
    ensures NavStyles(target).Keys == set k | k in NAV_KEYS
    ensures target in NAV_KEYS ==> ActiveButtons(NavStyles(target)) == {target}
    ensures target !in NAV_KEYS ==> ActiveButtons(NavStyles(target)) == {}
    ensures forall k :: k in NAV_KEYS && k != target ==> NavStyles(target)[k] == NAV_STYLE
  {
    assert |ACTIVE_NAV_STYLE| != |NAV_STYLE|;
  }

  // ---------------------------------------------------------------------
  // The window

  class MainApp {
    var activeNav: string
    var lastError: Option<string>
    var logs: seq<string>
    /** `history_items`: one list for the whole session, handed to every home view. */
    const history: HistoryList
    const cachePath: string
    /** The style of each navigation button, by target. */
    var navStyles: map<string, string>
    var currentView: View
    var geometry: Geometry

    /** The buttons show the active target, and a home view shares the app's history list. */
    ghost predicate Valid()
      reads this
    {
      && navStyles == NavStyles(activeNav)
      && (currentView.HomePage? ==> currentView.home.history == history)
    }

    /** `MainApp()`: centre the window, set up the session state, then show the home view. */
    constructor (hfHome: Option<string>, home: string,
                 reportedWidth: nat, reportedHeight: nat, screenWidth: nat, screenHeight: nat)
      ensures Valid()
      ensures geometry == CenterWindow(reportedWidth, reportedHeight, screenWidth, screenHeight)
      ensures activeNav == "home" && lastError == None && logs == []
      ensures fresh(history) && history.items == []
      ensures cachePath == CachePath(hfHome, home)
      ensures currentView.HomePage? && fresh(currentView.home) && currentView.home.Valid()
      ensures currentView.home.history == history && !currentView.home.running
    {
      geometry := CenterWindow(reportedWidth, reportedHeight, screenWidth, screenHeight);
      activeNav := "home";
      lastError := None;
      logs := [];
      history := new HistoryList();
      cachePath := CachePath(hfHome, home);
      navStyles := map k | k in NAV_KEYS :: NAV_STYLE;
      currentView := NoView;
      new;
      // switch_nav("home")
      activeNav := "home";
      ApplyNavStyles();
      ShowHome();
    }

    /** `_apply_nav_styles`: restyles the four buttons one by one. */
    method ApplyNavStyles()
      requires forall k :: k in navStyles <==> k in NAV_KEYS
      modifies this`navStyles
      ensures navStyles == NavStyles(activeNav)
    {
      var styles := navStyles;
      ghost var done: set<string> := {};
      var i := 0;
      while i < |NAV_KEYS|
        invariant 0 <= i <= |NAV_KEYS|
        invariant forall j :: 0 <= j < i ==> NAV_KEYS[j] in done
        invariant forall k :: k in styles <==> k in NAV_KEYS
        invariant forall k :: k in done && k in styles ==>
          styles[k] == if k == activeNav then ACTIVE_NAV_STYLE else NAV_STYLE
      {
        var key := NAV_KEYS[i];
        if key == activeNav {
          styles := styles[key := ACTIVE_NAV_STYLE];
        } else {
          styles := styles[key := NAV_STYLE];
        }
        done := done + {key};
        i := i + 1;
      }
      assert forall k :: k in styles ==> k in done;
      navStyles := styles;
    }

    /** `show_home`: a fresh home view over the app's own history list. */
    method ShowHome()
      modifies this`currentView
      ensures currentView.HomePage? && fresh(currentView.home) && currentView.home.Valid()
      ensures currentView.home.history == history && currentView.home.hasApp
      ensures currentView.home.historyLines == HistoryLines(history.items)
      ensures !currentView.home.running && currentView.home.requests == []
    {
      var view := new HomeView(history);
      currentView := HomePage(view);
    }

    /** `show_model`. */
    method ShowModel(modelFile: FileRead)
      modifies this`currentView
      ensures currentView == ModelPage(ModelInfoText(modelFile))
    {
      currentView := ModelPage(ModelInfoText(modelFile));
    }

    /** `show_help`. */
    method ShowHelp(helpFile: FileRead)
      modifies this`currentView
      ensures currentView == HelpPage(HelpText(helpFile, lastError))
    {
      currentView := HelpPage(HelpText(helpFile, lastError));
    }

    /** `show_settings` (its body is not part of this model): only the container change is kept. */
    method ShowSettings()
      modifies this`currentView
      ensures currentView == SettingsPage
    {
      currentView := SettingsPage;
    }

    /**
     * `switch_nav(target)`: the target becomes active and alone styled active;
     * a known target rebuilds its view, any other leaves the container as it was.
     * The history list is neither replaced nor changed.
     */
    method SwitchNav(target: string, modelFile: FileRead, helpFile: FileRead)
      requires Valid()
      modifies this`activeNav, this`navStyles, this`currentView
      ensures Valid()
      ensures activeNav == target && navStyles == NavStyles(target)
      ensures history.items == old(history.items)
      ensures target == "home" ==>
        currentView.HomePage? && fresh(currentView.home) && currentView.home.Valid() &&
        currentView.home.historyLines == HistoryLines(history.items)
      ensures target == "model" ==> currentView == ModelPage(ModelInfoText(modelFile))
      ensures target == "help" ==> currentView == HelpPage(HelpText(helpFile, lastError))
      ensures target == "settings" ==> currentView == SettingsPage
      ensures target !in NAV_KEYS ==> currentView == old(currentView)
    {
      activeNav := target;
      ApplyNavStyles();
      if target == "home" {
        ShowHome();
      } else if target == "model" {
        ShowModel(modelFile);
      } else if target == "help" {
        ShowHelp(helpFile);
      } else if target == "settings" {
        ShowSettings();
      }
    }
  }

  /**
   * An entry added to the history while one home view is shown is listed by
   * the home view built after navigating away and back: both views share the
   * app's list.
   */
  method HistorySurvivesNavigation(entry: HistoryRecord, modelFile: FileRead, helpFile: FileRead)
    returns (lines: seq<string>)
    ensures lines == [HistoryLine(entry)]
  {
    var app := new MainApp(None, "/home/user", 1000, 700, 1920, 1080);
    var first := app.currentView.home;
    first.history.items := first.history.items + [entry];
    app.SwitchNav("help", modelFile, helpFile);
    app.SwitchNav("home", modelFile, helpFile);
    lines := app.currentView.home.historyLines;
  }
}
