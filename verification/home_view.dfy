/**
 * The home view: image and text inputs, the run lifecycle with its selector
 * snapshot, task-panel toggling and the narrow/wide layout choice.
 *
 * The file dialog, `os.path.getsize`, `Image.open`, the clipboard and the
 * model controller are outside the view; their results arrive as method
 * parameters, and what the view hands to code that is not part of this
 * model (`_handle_error`, `app.set_status`, the controller) is recorded as
 * a sequence of events.
 */
module Home {
  import opened Wrappers
  import opened Text
  import opened History

  // ---------------------------------------------------------------------
  // Values

  /** What `cget("state")` reports and `configure(state=...)` sets. */
  datatype WidgetState = Normal | Readonly | Disabled

  /** A task selector widget: its state, and whether `cget("state")` answers (else it raises). */
  datatype Selector = Selector(state: WidgetState, reportsState: bool)

  datatype Task = ImageTask | SentimentTask

  /** A decoded image; only the file it was opened from is kept. */
  datatype Picture = Picture(source: string)

  /** What `run_image_caption` receives: a path, or the decoded image. */
  datatype ImageInput = FromFile(path: string) | FromPicture(picture: Picture)

  /** One call into the model controller. */
  datatype Request = CaptionRequest(input: ImageInput) | SentimentRequest(text: string)

  /** The outcome of `_validate_image`; `SizeUnavailable` is `os.path.getsize` raising. */
  datatype Verdict = Accepted | Rejected(reason: string) | SizeUnavailable

  /** What a run does once it has started: call the controller, or fail locally. */
  datatype Plan = Dispatch(request: Request) | Refuse(reason: string)

  /**
   * How far `choose_file` gets with an accepted file: `Image.open` raises, or
   * it succeeds and `_set_preview` raises (its `copy()` loads the pixel data,
   * so a truncated file fails there), or both succeed.
   */
  datatype Decoding = OpenFails | PreviewFails | Decoded

  /** A child of the output frame. */
  datatype OutputItem = LoadingIndicator | Rendered(content: string)

  datatype InputPanel = ImagePanel | TextPanel

  datatype Layout = Wide | Narrow

  /** One `app.set_status(message, running=...)` call. */
  datatype Status = Status(message: string, running: bool)

  const PLACEHOLDER := "Type or paste " + "text here — up to 3000 " + "characters"
  const SAMPLE_TEXT := "I absolutely love this product. It exceeded my expectations!"
  const CHAR_LIMIT := 3000
  const MAX_IMAGE_BYTES := 25 * 1024 * 1024
  const IMAGE_EXTENSIONS := [".png", ".jpg", ".jpeg", ".bmp"]
  const BAD_FORMAT := "Invalid file format. Use PNG, JPG, JPEG, or BMP."
  const TOO_LARGE := "File too large. Maximum size is 25 MB."
  const BAD_IMAGE := "Invalid image file"
  const NO_IMAGE := "No image selected"
  const NO_TEXT := "No text entered"
  const AUTO_DETECT := "Auto-detect"
  const RUNNING_LABEL := "Running…"
  const RUN_LABEL := "Run"
  /** The attribute names `run_task` probes for task selectors, in probing order. */
  const SELECTOR_NAMES := ["task_select", "task_cb", "task_menu", "task_option"]
  const COMPACT_BELOW := 900
  const DEFAULT_WIDTH := 1000

  // ---------------------------------------------------------------------
  // Image validation

  predicate EndsWithAny(s: string, suffixes: seq<string>) {
    exists e :: e in suffixes && EndsWith(s, e)
  }

  predicate HasImageExtension(path: string) {
    EndsWithAny(Lower(path), IMAGE_EXTENSIONS)
  }

  /**
   * `_validate_image`: the extension is checked first and the size is
   * looked up only for an allowed extension.
   */
  function ValidateImage(path: string, size: Option<nat>): (v: Verdict)
    ensures v == Accepted <==> HasImageExtension(path) && size.Some? && size.value <= MAX_IMAGE_BYTES
    ensures !HasImageExtension(path) ==> v == Rejected(BAD_FORMAT)
    ensures v == SizeUnavailable <==> HasImageExtension(path) && size.None?
    ensures HasImageExtension(path) && size.Some? && size.value > MAX_IMAGE_BYTES ==> v == Rejected(TOO_LARGE)
    ensures v.Rejected? ==> v.reason in {BAD_FORMAT, TOO_LARGE}
  {
    if !HasImageExtension(path) then Rejected(BAD_FORMAT)
    else if size.None? then SizeUnavailable
    else if size.value > MAX_IMAGE_BYTES then Rejected(TOO_LARGE)
    else Accepted
  }

  /** For a disallowed extension the verdict is the same whatever the size, even when the size cannot be read. */
  lemma BadFormatIgnoresSize(path: string, s1: Option<nat>, s2: Option<nat>)
    requires !HasImageExtension(path)
    ensures ValidateImage(path, s1) == ValidateImage(path, s2) == Rejected(BAD_FORMAT)
  {
  }

  /** The check is case-insensitive: a path and its lower-cased form get the same verdict. */
  lemma ValidateCaseInsensitive(path: string, size: Option<nat>)
    ensures ValidateImage(Lower(path), size) == ValidateImage(path, size)
  {
    LowerIdempotent(path);
  }

  /** The text from the last `.` to the end, or `""` when there is no dot. */
  function ExtensionOf(s: string): (e: string)
    ensures e == [] || (e[0] == '.' && EndsWith(s, e) && '.' !in e[1..])
  {
    if s == [] then []
    else if s[|s| - 1] == '.' then "."
    else
      var e := ExtensionOf(s[..|s| - 1]);
      if e == [] then [] else e + [s[|s| - 1]]
  }

  /** For a suffix with one leading dot, "ends with it" and "is its extension" agree. */
  lemma {:induction false} ExtensionMatches(s: string, e: string)
    requires |e| >= 1 && e[0] == '.' && '.' !in e[1..]
    ensures ExtensionOf(s) == e <==> EndsWith(s, e)
  {
    if s == [] {
    } else if s[|s| - 1] == '.' {
      if |e| > 1 {
        assert e[|e| - 1] in e[1..];
      }
    } else if |e| == 1 {
    } else {
      var s', e' := s[..|s| - 1], e[..|e| - 1];
      assert e'[1..] == e[1..|e| - 1];
      assert e == e' + [e[|e| - 1]];
      ExtensionMatches(s', e');
      EndsWithLast(s, e);
      assert ExtensionOf(s) == (if ExtensionOf(s') == [] then [] else ExtensionOf(s') + [s[|s| - 1]]);
    }
  }

  /** A non-empty suffix matches iff its last character does and the rest matches one position earlier. */
  lemma EndsWithLast(s: string, e: string)
    requires |s| >= 1 && |e| >= 1
    ensures EndsWith(s, e) <==> EndsWith(s[..|s| - 1], e[..|e| - 1]) && s[|s| - 1] == e[|e| - 1]
  {
    if |e| <= |s| {
      assert s[|s| - |e|..] == s[..|s| - 1][|s| - |e|..] + [s[|s| - 1]];
      assert e == e[..|e| - 1] + [e[|e| - 1]];
    }
  }

  /** The allow-list test is an extension test: the lower-cased path's extension is one of the four. */
  lemma ImageExtensionIsExtension(path: string)
    ensures HasImageExtension(path) <==> ExtensionOf(Lower(path)) in IMAGE_EXTENSIONS
  {
    var s := Lower(path);
    forall e | e in IMAGE_EXTENSIONS
      ensures ExtensionOf(s) == e <==> EndsWith(s, e)
    {
      ExtensionMatches(s, e);
    }
  }

  // ---------------------------------------------------------------------
  // The text buffer

  /**
   * `_enforce_char_limit`: a buffer whose stripped text is longer than the
   * limit becomes the first 3000 characters of that stripped text; any other
   * buffer is left exactly as it is (it is not stripped).
   */
  function CharLimited(buf: string): (r: string)
    ensures |Strip(r)| <= CHAR_LIMIT
    ensures |Strip(buf)| <= CHAR_LIMIT ==> r == buf
    ensures |Strip(buf)| > CHAR_LIMIT ==> |r| == CHAR_LIMIT && StartsWith(Strip(buf), r)
  {
    var t := Strip(buf);
    if |t| > CHAR_LIMIT then t[..CHAR_LIMIT] else buf
  }

  /** Enforcing the limit twice is enforcing it once. */
  lemma CharLimitIdempotent(buf: string)
    ensures CharLimited(CharLimited(buf)) == CharLimited(buf)
  {
  }

  /** `txt[:3000]`: the longest prefix of the clipboard text that fits the limit. */
  function ClipboardText(clip: string): (r: string)
    ensures |r| <= CHAR_LIMIT && StartsWith(clip, r)
    ensures |r| == CHAR_LIMIT || r == clip
  {
    if |clip| <= CHAR_LIMIT then clip else clip[..CHAR_LIMIT]
  }

  /** `_clear_placeholder` on focus-in. */
  function FocusIn(buf: string): string {
    if Strip(buf) == PLACEHOLDER then "" else buf
  }

  /** `_restore_placeholder` on focus-out. */
  function FocusOut(buf: string): string {
    if Strip(buf) == [] then PLACEHOLDER else buf
  }

  lemma PlaceholderIsTrimmed()
    ensures !IsSpace(PLACEHOLDER[0]) && !IsSpace(PLACEHOLDER[|PLACEHOLDER| - 1])
  {
    assert PLACEHOLDER[0] == "Type or paste "[0] == 'T';
    assert PLACEHOLDER[|PLACEHOLDER| - 1] == "characters"[9] == 's';
  }

  lemma PlaceholderIsStripped()
    ensures Strip(PLACEHOLDER) == PLACEHOLDER
  {
    PlaceholderIsTrimmed();
    StripKeepsTrimmed(PLACEHOLDER);
  }

  /** Focus-in and focus-out touch only a buffer showing the placeholder or holding nothing but whitespace. */
  lemma FocusKeepsUserText(buf: string)
    requires Strip(buf) != [] && Strip(buf) != PLACEHOLDER
    ensures FocusIn(buf) == buf && FocusOut(buf) == buf
  {
  }

  /** Leaving an empty field shows the placeholder, and focusing it again clears it. */
  lemma FocusOutThenIn(buf: string)
    requires Strip(buf) == []
    ensures FocusOut(buf) == PLACEHOLDER && FocusIn(FocusOut(buf)) == []
  {
    PlaceholderIsStripped();
  }

  /** Focusing a field that shows the placeholder empties it, and leaving it restores the placeholder. */
  lemma FocusInThenOut(buf: string)
    requires Strip(buf) == PLACEHOLDER
    ensures FocusIn(buf) == [] && FocusOut(FocusIn(buf)) == PLACEHOLDER
  {
  }

  // ---------------------------------------------------------------------
  // Which input a run sends

  /** The task is "image" iff the lower-cased label starts with "image". */
  function TaskOf(choice: string): Task {
    if StartsWith(Lower(choice), "image") then ImageTask else SentimentTask
  }

  /** The task depends on the label only up to case. */
  lemma TaskOfIgnoresCase(choice: string)
    ensures TaskOf(Lower(choice)) == TaskOf(choice)
  {
    LowerIdempotent(choice);
  }

  /** The two labels the task menu offers select the two tasks. */
  lemma MenuLabelsSelectTasks()
    ensures TaskOf("Image to Text") == ImageTask && TaskOf("Sentiment Analysis") == SentimentTask
  {
    var img := Lower("Image to Text");
    assert img[..5] == Lower("Image") by {
      assert "Image to Text" == "Image" + " to Text";
    }
    var sen := Lower("Sentiment Analysis");
    assert sen[0] == LowerChar('S') == 's';
  }

  /** The sentiment text with the chosen language appended unless it is auto-detect. */
  function SentimentPayload(txt: string, language: string): string {
    if language != AUTO_DETECT then txt + " (in " + language + ")" else txt
  }

  /** The payload splits back into the text and the language suffix. */
  lemma SentimentPayloadSplits(txt: string, language: string)
    ensures var p := SentimentPayload(txt, language);
      StartsWith(p, txt) &&
      (language == AUTO_DETECT <==> p == txt) &&
      (language != AUTO_DETECT ==> p[|txt|..] == " (in " + language + ")")
  {
    var p := SentimentPayload(txt, language);
    if language != AUTO_DETECT {
      assert |p| > |txt|;
    }
  }

  /**
   * What a started run does with the current inputs: the image task prefers the
   * chosen file to the decoded image and fails with no image; the sentiment task
   * fails on empty or placeholder text.
   */
  function RunPlan(task: Task, file: Option<string>, picture: Option<Picture>, text: string, language: string): Plan {
    match task
    case ImageTask =>
      if Truthy(file) then Dispatch(CaptionRequest(FromFile(file.value)))
      else if picture.Some? then Dispatch(CaptionRequest(FromPicture(picture.value)))
      else Refuse(NO_IMAGE)
    case SentimentTask =>
      var t := Strip(text);
      if t == [] || t == PLACEHOLDER then Refuse(NO_TEXT)
      else Dispatch(SentimentRequest(SentimentPayload(t, language)))
  }

  /** The image task is refused iff there is neither a chosen file nor a decoded image, and prefers the file. */
  lemma RunPlanImage(file: Option<string>, picture: Option<Picture>, text: string, language: string)
    ensures var p := RunPlan(ImageTask, file, picture, text, language);
      (p.Refuse? <==> !Truthy(file) && picture.None?) &&
      (p.Refuse? ==> p.reason == NO_IMAGE) &&
      (Truthy(file) ==> p == Dispatch(CaptionRequest(FromFile(file.value)))) &&
      (!Truthy(file) && picture.Some? ==> p == Dispatch(CaptionRequest(FromPicture(picture.value))))
  {
  }

  /**
   * The sentiment task is refused iff the stripped text is empty or the
   * placeholder, and otherwise sends the stripped text with the language
   * suffix unless the language is auto-detect.
   */
  lemma RunPlanText(file: Option<string>, picture: Option<Picture>, text: string, language: string)
    ensures var p := RunPlan(SentimentTask, file, picture, text, language);
      (p.Refuse? <==> Strip(text) == [] || Strip(text) == PLACEHOLDER) &&
      (p.Refuse? ==> p.reason == NO_TEXT) &&
      (p.Dispatch? ==> p.request.SentimentRequest? &&
                       StartsWith(p.request.text, Strip(text)) &&
                       (language == AUTO_DETECT <==> p.request.text == Strip(text)) &&
                       (language != AUTO_DETECT ==> p.request.text[|Strip(text)|..] == " (in " + language + ")"))
  {
    var t := Strip(text);
    if !(t == [] || t == PLACEHOLDER) {
      SentimentPayloadSplits(t, language);
    }
  }



  /**
   * What the view records once a plan is carried out: a dispatch adds exactly
   * its request and keeps the loading indicator; a refusal reports its reason
   * and clears the output.
   */
  ghost predicate Performed(p: Plan, requests0: seq<Request>, errors0: seq<string>,
                            requests: seq<Request>, errors: seq<string>, output: seq<OutputItem>)
  {
    match p
    case Dispatch(req) => requests == requests0 + [req] && errors == errors0 && output == [LoadingIndicator]
    case Refuse(reason) => requests == requests0 && errors == errors0 + [reason] && output == []
  }

  // ---------------------------------------------------------------------
  // The selector snapshot

  /** What `run_task` records for one selector: its state, or `None` when `cget` raises. */
  function Captured(w: Selector): Option<WidgetState> {
    if w.reportsState then Some(w.state) else None
  }

  /** The snapshot taken of the existing selectors. */
  function Snapshot(sel: map<string, Selector>): (snap: map<string, Option<WidgetState>>)
    ensures snap.Keys == sel.Keys
    ensures forall n :: n in sel ==> snap[n] == Captured(sel[n])
  {
    map n | n in sel :: Captured(sel[n])
  }

  /** Every existing selector after `configure(state="disabled")`. */
  function DisableAll(sel: map<string, Selector>): (r: map<string, Selector>)
    ensures r.Keys == sel.Keys
    ensures forall n :: n in sel ==> r[n] == sel[n].(state := Disabled)
  {
    map n | n in sel :: sel[n].(state := Disabled)
  }

  /** One selector put back to its captured state; a captured `None` becomes normal. */
  function Restored(w: Selector, captured: Option<WidgetState>): Selector {
    w.(state := if captured.Some? then captured.value else Normal)
  }

  /** `_reset_run_state`'s loop: every snapshotted selector that exists is restored, the others are untouched. */
  function Restore(sel: map<string, Selector>, snap: map<string, Option<WidgetState>>): (r: map<string, Selector>)
    ensures r.Keys == sel.Keys
    ensures forall n :: n in sel ==> r[n] == if n in snap then Restored(sel[n], snap[n]) else sel[n]
  {
    map n | n in sel :: if n in snap then Restored(sel[n], snap[n]) else sel[n]
  }

  /**
   * A run started from idle and then reset gives every selector back the state
   * it had, except that a selector whose state could not be read comes back normal.
   */
  lemma RestoreUndoesRun(sel: map<string, Selector>)
    ensures forall n :: n in sel ==>
      Restore(DisableAll(sel), Snapshot(sel))[n] ==
        (if sel[n].reportsState then sel[n] else sel[n].(state := Normal))
    ensures (forall n :: n in sel ==> sel[n].reportsState) ==> Restore(DisableAll(sel), Snapshot(sel)) == sel
  {
    var r := Restore(DisableAll(sel), Snapshot(sel));
    if forall n :: n in sel ==> sel[n].reportsState {
      assert forall n :: n in sel ==> r[n] == sel[n];
    }
  }

  /**
   * A snapshot retaken while the selectors are already disabled records
   * "disabled", so the reset that follows leaves a readable selector disabled.
   */
  lemma RetakenSnapshotKeepsDisabled(sel: map<string, Selector>)
    ensures Restore(DisableAll(DisableAll(sel)), Snapshot(DisableAll(sel))) == DisableAll(sel)
      <==> (forall n :: n in sel ==> sel[n].reportsState)
  {
    var d := DisableAll(sel);
    var r := Restore(DisableAll(d), Snapshot(d));
    if forall n :: n in sel ==> sel[n].reportsState {
      assert forall n :: n in sel ==> r[n] == d[n];
    } else {
      var n :| n in sel && !sel[n].reportsState;
      assert r[n].state == Normal != d[n].state;
    }
  }

  /** Once every selector has been probed, the loop's maps are the snapshot and the disabled selectors. */
  lemma ProbedAll(sel0: map<string, Selector>, sel: map<string, Selector>,
                  snap: map<string, Option<WidgetState>>, probed: seq<string>)
    requires (forall n :: n in sel0 ==> n in probed) && sel.Keys == sel0.Keys
    requires forall n :: n in snap <==> n in sel0 && n in probed
    requires forall n :: n in snap ==> snap[n] == Captured(sel0[n])
    requires forall n :: n in sel0 ==> sel[n] == if n in probed then sel0[n].(state := Disabled) else sel0[n]
    ensures snap == Snapshot(sel0) && sel == DisableAll(sel0)
  {
  }

  /** Once every snapshotted name has been handled, the reset loop's map is `Restore` of the selectors. */
  lemma RestoredAll(sel0: map<string, Selector>, sel: map<string, Selector>, snap: map<string, Option<WidgetState>>)
    requires sel.Keys == sel0.Keys
    requires forall n :: n in sel0 ==> sel[n] == if n in snap then Restored(sel0[n], snap[n]) else sel0[n]
    ensures sel == Restore(sel0, snap)
  {
  }

  lemma SelectorNamesDistinct()
    ensures forall j, k :: 0 <= j < k < |SELECTOR_NAMES| ==> SELECTOR_NAMES[j] != SELECTOR_NAMES[k]
  {
    assert SELECTOR_NAMES[0][5] != SELECTOR_NAMES[3][5];
  }

  // ---------------------------------------------------------------------
  // Layout

  /** `_on_resize`: a reported width of 0 counts as 1000; narrow below 900. */
  function LayoutFor(width: nat): (l: Layout) {
    var w := if width == 0 then DEFAULT_WIDTH else width;
    if w < COMPACT_BELOW then Narrow else Wide
  }

  /** The layout is a threshold on the width: narrow exactly for widths 1 to 899, and wider never means narrower. */
  lemma LayoutThreshold(w1: nat, w2: nat)
    ensures LayoutFor(w1) == Narrow <==> 0 < w1 < COMPACT_BELOW
    ensures 0 < w1 <= w2 && LayoutFor(w1) == Wide ==> LayoutFor(w2) == Wide
  {
  }

  // ---------------------------------------------------------------------
  // The view

  class HomeView {
    /** The history list: the app's own list object when there is an app. */
    const history: HistoryList
    const hasApp: bool
    var historyLines: seq<string>
    var taskLabel: string
    var language: string
    var text: string
    var selectedFile: Option<string>
    var previewImage: Option<Picture>
    var running: bool
    /** The task selector widgets that exist, by attribute name. */
    var selectors: map<string, Selector>
    /** `_task_prev_state`. */
    var snapshot: map<string, Option<WidgetState>>
    var runButton: WidgetState
    var runLabel: string
    var output: seq<OutputItem>
    var visibleInput: InputPanel
    var textBoxSize: (nat, nat)
    var layout: Layout
    /** Calls made to the model controller. */
    var requests: seq<Request>
    /** Messages handed to `_handle_error`. */
    var errors: seq<string>
    /** Calls made to `app.set_status`. */
    var statusUpdates: seq<Status>

    /**
     * Selectors are among the probed names; the Run button is disabled and
     * labelled "Running…" exactly while a run is in progress, and so is every
     * selector.
     */
    ghost predicate Valid()
      reads this`selectors, this`runButton, this`runLabel, this`running
    {
      && (forall n :: n in selectors ==> n in SELECTOR_NAMES)
      && runButton == (if running then Disabled else Normal)
      && runLabel == (if running then RUNNING_LABEL else RUN_LABEL)
      && (running ==> forall n :: n in selectors ==> selectors[n].state == Disabled)
    }

    /** `HomeView(parent, controller, app)` followed by `_build_ui`. */
    constructor (app: HistoryList?)
      ensures Valid()
      ensures app != null ==> history == app
      ensures app == null ==> fresh(history) && history.items == []
      ensures hasApp == (app != null)
      ensures historyLines == HistoryLines(history.items)
      ensures taskLabel == "Image to Text" && language == AUTO_DETECT && text == PLACEHOLDER
      ensures selectedFile == None && previewImage == None && !running
      ensures selectors == map["task_menu" := Selector(Readonly, true)] && snapshot == map[]
      ensures output == [] && visibleInput == ImagePanel && textBoxSize == (0, 0) && layout == Wide
      ensures requests == [] && errors == [] && statusUpdates == []
    {
      var shared: HistoryList;
      if app != null {
        shared := app;
      } else {
        shared := new HistoryList();
      }
      history := shared;
      hasApp := app != null;
      historyLines := HistoryLines(shared.items);
      taskLabel := "Image to Text";
      language := AUTO_DETECT;
      text := PLACEHOLDER;
      selectedFile, previewImage := None, None;
      running := false;
      selectors := map["task_menu" := Selector(Readonly, true)];
      snapshot := map[];
      runButton, runLabel := Normal, RUN_LABEL;
      output := [];
      visibleInput, textBoxSize := ImagePanel, (0, 0);
      layout := Wide;
      requests, errors, statusUpdates := [], [], [];
    }

    /** `_set_placeholder`. */
    method SetPlaceholder()
      modifies this`text
      ensures text == PLACEHOLDER
    {
      text := PLACEHOLDER;
    }

    /** `_clear_placeholder`, bound to focus-in. */
    method ClearPlaceholder()
      modifies this`text
      ensures text == FocusIn(old(text))
    {
      if Strip(text) == PLACEHOLDER {
        text := "";
      }
    }

    /** `_restore_placeholder`, bound to focus-out. */
    method RestorePlaceholder()
      modifies this`text
      ensures text == FocusOut(old(text))
    {
      if Strip(text) == [] {
        SetPlaceholder();
      }
    }

    /** `_enforce_char_limit`, bound to key release. */
    method EnforceCharLimit()
      modifies this`text
      ensures text == CharLimited(old(text))
    {
      var t := Strip(text);
      if |t| > CHAR_LIMIT {
        text := t[..CHAR_LIMIT];
      }
    }

    /** `paste_clipboard`; `clip` is `None` when `pyperclip` cannot be used. */
    method PasteClipboard(clip: Option<string>)
      modifies this`text
      ensures Truthy(clip) ==> text == ClipboardText(clip.value)
      ensures !Truthy(clip) ==> text == old(text)
    {
      if clip.Some? {
        var txt := clip.value;
        if txt != "" {
          text := ClipboardText(txt);
        }
      }
    }

    /** `use_sample_text`. */
    method UseSampleText()
      modifies this`text
      ensures text == SAMPLE_TEXT
    {
      text := SAMPLE_TEXT;
    }

    /**
     * `choose_file`: `path` is what the dialog returned (`""` when cancelled),
     * `size` what `os.path.getsize` gives (`None` when it raises), `decoding`
     * how far `Image.open` and `_set_preview` get.
     */
    method ChooseFile(path: string, size: Option<nat>, decoding: Decoding)
      requires Valid()
      modifies this`selectedFile, this`previewImage, this`errors
      ensures Valid()
      ensures path == "" || ValidateImage(path, size) != Accepted ==>
        selectedFile == old(selectedFile) && previewImage == old(previewImage)
      ensures path != "" && ValidateImage(path, size) == Accepted ==>
        selectedFile == Some(path) &&
        previewImage == (if decoding == OpenFails then old(previewImage) else Some(Picture(path)))
      ensures errors == old(errors) +
        (if path == "" then []
         else match ValidateImage(path, size)
           case Rejected(reason) => [reason]
           case Accepted => if decoding == Decoded then [] else [BAD_IMAGE]
           case SizeUnavailable => [])
    {
      if path != "" {
        var verdict := ValidateImage(path, size);
        match verdict
        case Rejected(reason) =>
          errors := errors + [reason];
        case SizeUnavailable =>
          // getsize raised: the exception leaves the callback before any change
        case Accepted =>
          selectedFile := Some(path);
          if decoding == OpenFails {
            errors := errors + [BAD_IMAGE];
          } else {
            previewImage := Some(Picture(path));
            if decoding == PreviewFails {
              errors := errors + [BAD_IMAGE];
            }
          }
      }
    }

    /** The probing loop of `run_task`: snapshot every existing selector, then disable it. */
    method DisableSelectors()
      requires Valid()
      modifies this`selectors, this`snapshot
      ensures snapshot == Snapshot(old(selectors))
      ensures selectors == DisableAll(old(selectors))
      ensures Valid()
    {
      var sel0 := selectors;
      var sel, snap := selectors, map[];
      var i := 0;
      while i < |SELECTOR_NAMES|
        invariant 0 <= i <= |SELECTOR_NAMES|
        invariant sel.Keys == sel0.Keys
        invariant forall n :: n in snap <==> n in sel0 && n in SELECTOR_NAMES[..i]
        invariant forall n :: n in snap ==> snap[n] == Captured(sel0[n])
        invariant forall n :: n in sel0 ==>
          sel[n] == if n in SELECTOR_NAMES[..i] then sel0[n].(state := Disabled) else sel0[n]
      {
        var name := SELECTOR_NAMES[i];
        assert SELECTOR_NAMES[..i + 1] == SELECTOR_NAMES[..i] + [name];
        assert name !in SELECTOR_NAMES[..i] by { SelectorNamesDistinct(); }
        if name in sel {
          snap := snap[name := Captured(sel[name])];
          sel := sel[name := sel[name].(state := Disabled)];
        }
        i := i + 1;
      }
      assert SELECTOR_NAMES[..i] == SELECTOR_NAMES;
      ProbedAll(sel0, sel, snap, SELECTOR_NAMES);
      snapshot, selectors := snap, sel;
    }

    /** What a run started now would do with the current inputs. */
    ghost function CurrentPlan(): Plan
      reads this`taskLabel, this`selectedFile, this`previewImage, this`text, this`language
    {
      RunPlan(TaskOf(taskLabel), selectedFile, previewImage, text, language)
    }

    /** The part of `run_task` after the `running` check. */
    method Launch()
      requires Valid() && !running
      requires forall n :: n in selectors ==> selectors[n].state == Disabled
      modifies this`running, this`output, this`runButton, this`runLabel, this`requests, this`errors, this`statusUpdates
      ensures Valid() && running
      ensures statusUpdates == old(statusUpdates) + (if hasApp then [Status(RUNNING_LABEL, true)] else [])
      ensures Performed(CurrentPlan(), old(requests), old(errors), requests, errors, output)
    {
      var task := TaskOf(taskLabel);
      ghost var plan := CurrentPlan();
      ghost var requests0, errors0 := requests, errors;
      output := [LoadingIndicator];
      MarkRunning();
      if task == ImageTask {
        SendImage(plan);
      } else {
        SendText(plan);
      }
      assert Performed(plan, requests0, errors0, requests, errors, output);
    }

    /** `running` set, "Running…" reported to the app, and the Run button disabled and relabelled. */
    method MarkRunning()
      requires Valid()
      requires forall n :: n in selectors ==> selectors[n].state == Disabled
      modifies this`running, this`runButton, this`runLabel, this`statusUpdates
      ensures Valid() && running
      ensures statusUpdates == old(statusUpdates) + (if hasApp then [Status(RUNNING_LABEL, true)] else [])
    {
      running := true;
      if hasApp {
        statusUpdates := statusUpdates + [Status(RUNNING_LABEL, true)];
      }
      runButton, runLabel := Disabled, RUNNING_LABEL;
    }

    /** The image branch of `run_task`: the chosen file, else the decoded image, else a local error. */
    method SendImage(ghost plan: Plan)
      requires plan == RunPlan(ImageTask, selectedFile, previewImage, text, language)
      requires output == [LoadingIndicator]
      modifies this`output, this`requests, this`errors
      ensures Performed(plan, old(requests), old(errors), requests, errors, output)
    {
      if !(Truthy(selectedFile) || previewImage.Some?) {
        assert plan == Refuse(NO_IMAGE);
        errors := errors + [NO_IMAGE];
        output := [];
        return;
      }
      var input := if Truthy(selectedFile) then FromFile(selectedFile.value) else FromPicture(previewImage.value);
      assert plan == Dispatch(CaptionRequest(input));
      requests := requests + [CaptionRequest(input)];
    }

    /** The sentiment branch of `run_task`: the stripped text with the language suffix, or a local error. */
    method SendText(ghost plan: Plan)
      requires plan == RunPlan(SentimentTask, selectedFile, previewImage, text, language)
      requires output == [LoadingIndicator]
      modifies this`output, this`requests, this`errors
      ensures Performed(plan, old(requests), old(errors), requests, errors, output)
    {
      var txt := Strip(text);
      if txt == [] || txt == PLACEHOLDER {
        assert plan == Refuse(NO_TEXT);
        errors := errors + [NO_TEXT];
        output := [];
        return;
      }
      if language != AUTO_DETECT {
        txt := txt + " (in " + language + ")";
      }
      assert plan == Dispatch(SentimentRequest(txt));
      requests := requests + [SentimentRequest(txt)];
    }

    /**
     * `run_task` as written: the snapshot is retaken and the selectors
     * disabled BEFORE `running` is checked.
     */
    method RunTask()
      requires Valid()
      modifies this`selectors, this`snapshot, this`running, this`output, this`runButton, this`runLabel,
               this`requests, this`errors, this`statusUpdates
      ensures Valid() && running
      ensures snapshot == Snapshot(old(selectors)) && selectors == DisableAll(old(selectors))
      ensures old(running) ==>
        output == old(output) && requests == old(requests) && errors == old(errors) &&
        statusUpdates == old(statusUpdates)
      ensures !old(running) ==>
        statusUpdates == old(statusUpdates) + (if hasApp then [Status(RUNNING_LABEL, true)] else []) &&
        Performed(CurrentPlan(), old(requests), old(errors), requests, errors, output)
    {
      DisableSelectors();
      if running {
        return;
      }
      Launch();
    }

    /** `run_task` with the `running` check moved in front of the snapshot. */
    method RunTaskGuarded()
      requires Valid()
      modifies this`selectors, this`snapshot, this`running, this`output, this`runButton, this`runLabel,
               this`requests, this`errors, this`statusUpdates
      ensures Valid() && running
      ensures old(running) ==>
        selectors == old(selectors) && snapshot == old(snapshot) &&
        output == old(output) && requests == old(requests) && errors == old(errors) &&
        statusUpdates == old(statusUpdates)
      ensures !old(running) ==>
        snapshot == Snapshot(old(selectors)) && selectors == DisableAll(old(selectors)) &&
        statusUpdates == old(statusUpdates) + (if hasApp then [Status(RUNNING_LABEL, true)] else []) &&
        Performed(CurrentPlan(), old(requests), old(errors), requests, errors, output)
    {
      if running {
        return;
      }
      DisableSelectors();
      Launch();
    }

    /**
     * A click on the Run button: Tk ignores clicks on a disabled button, so
     * `run_task` runs only when the button is enabled.
     */
    method ClickRun()
      requires Valid()
      modifies this`selectors, this`snapshot, this`running, this`output, this`runButton, this`runLabel,
               this`requests, this`errors, this`statusUpdates
      ensures Valid() && running
      ensures old(running) ==>
        selectors == old(selectors) && snapshot == old(snapshot) &&
        output == old(output) && requests == old(requests) && errors == old(errors) &&
        statusUpdates == old(statusUpdates)
      ensures !old(running) ==>
        snapshot == Snapshot(old(selectors)) && selectors == DisableAll(old(selectors)) &&
        statusUpdates == old(statusUpdates) + (if hasApp then [Status(RUNNING_LABEL, true)] else []) &&
        Performed(CurrentPlan(), old(requests), old(errors), requests, errors, output)
    {
      if runButton != Disabled {
        RunTask();
      }
    }

    /** `_reset_run_state`: back to idle, every snapshotted selector restored, snapshot emptied. */
    method ResetRunState()
      requires Valid()
      modifies this`running, this`selectors, this`snapshot, this`runButton, this`runLabel, this`statusUpdates
      ensures Valid() && !running
      ensures selectors == Restore(old(selectors), old(snapshot))
      ensures snapshot == map[]
      ensures runButton == Normal && runLabel == RUN_LABEL
      ensures statusUpdates == old(statusUpdates) + (if hasApp then [Status("Ready", false)] else [])
    {
      running := false;
      var sel0, prev := selectors, snapshot;
      var sel := sel0;
      var todo := prev.Keys;
      while todo != {}
        invariant todo <= prev.Keys
        invariant sel.Keys == sel0.Keys
        invariant forall n :: n in sel ==>
          sel[n] == if n in prev && n !in todo then Restored(sel0[n], prev[n]) else sel0[n]
        decreases todo
      {
        var name :| name in todo;
        if name in sel {
          sel := sel[name := Restored(sel[name], prev[name])];
        }
        todo := todo - {name};
      }
      RestoredAll(sel0, sel, prev);
      selectors := sel;
      snapshot := map[];
      runButton, runLabel := Normal, RUN_LABEL;
      if hasApp {
        statusUpdates := statusUpdates + [Status("Ready", false)];
      }
    }

    /** `clear_inputs`: drops both image inputs, restores the placeholder, empties the output and resets the run. */
    method ClearInputs()
      requires Valid()
      modifies this`selectedFile, this`previewImage, this`text, this`output,
               this`running, this`selectors, this`snapshot, this`runButton, this`runLabel, this`statusUpdates
      ensures Valid() && !running
      ensures selectedFile == None && previewImage == None && text == PLACEHOLDER && output == []
      ensures selectors == Restore(old(selectors), old(snapshot)) && snapshot == map[]
      ensures statusUpdates == old(statusUpdates) + (if hasApp then [Status("Ready", false)] else [])
    {
      selectedFile := None;
      previewImage := None;
      SetPlaceholder();
      output := [];
      ResetRunState();
    }

    /** `_toggle_inputs`: shows the panel for the current task; the inputs themselves are untouched. */
    method ToggleInputs()
      modifies this`visibleInput, this`textBoxSize
      ensures TaskOf(taskLabel) == ImageTask ==> visibleInput == ImagePanel && textBoxSize == (0, 0)
      ensures TaskOf(taskLabel) == SentimentTask ==> visibleInput == TextPanel && textBoxSize == (40, 4)
    {
      if StartsWith(Lower(taskLabel), "image") {
        visibleInput, textBoxSize := ImagePanel, (0, 0);
      } else {
        visibleInput, textBoxSize := TextPanel, (40, 4);
      }
    }

    /** A selection in the task menu: the label changes and the panels are toggled. */
    method SelectTask(choice: string)
      modifies this`taskLabel, this`visibleInput, this`textBoxSize
      ensures taskLabel == choice
      ensures visibleInput == (if TaskOf(choice) == ImageTask then ImagePanel else TextPanel)
      ensures textBoxSize == (if TaskOf(choice) == ImageTask then (0, 0) else (40, 4))
    {
      taskLabel := choice;
      ToggleInputs();
    }

    /** `_on_resize`; `width` is what `winfo_width()` reports. */
    method OnResize(width: nat)
      modifies this`layout
      ensures layout == LayoutFor(width)
    {
      var w := if width == 0 then DEFAULT_WIDTH else width;
      layout := if w < COMPACT_BELOW then Narrow else Wide;
    }
  }

  // ---------------------------------------------------------------------
  // Runs of the view from a fresh start

  /**
   * `run_task` invoked twice, then reset, on a fresh view with an acceptable
   * image chosen: the first run sends one caption request and leaves the view
   * running; the second retakes the snapshot while the menu is disabled; the
   * reset leaves the menu disabled.
   */
  method RepeatedRunKeepsMenuDisabled(path: string, size: nat) returns (before: WidgetState, sent: nat, after: WidgetState)
    requires path != "" && ValidateImage(path, Some(size)) == Accepted
    ensures before == Readonly && sent == 1 && after == Disabled
  {
    var view := ViewWithImage(path, size);
    before := view.selectors["task_menu"].state;
    view.RunTask();
    assert view.requests == [CaptionRequest(FromFile(path))];
    view.RunTask();
    assert view.snapshot["task_menu"] == Some(Disabled);
    view.ResetRunState();
    sent, after := |view.requests|, view.selectors["task_menu"].state;
  }

  /** The same sequence with the `running` check first: the menu comes back read-only. */
  method GuardedRepeatedRunRestoresMenu(path: string, size: nat) returns (before: WidgetState, sent: nat, after: WidgetState)
    requires path != "" && ValidateImage(path, Some(size)) == Accepted
    ensures before == Readonly && sent == 1 && after == Readonly
  {
    var view := ViewWithImage(path, size);
    before := view.selectors["task_menu"].state;
    view.RunTaskGuarded();
    view.RunTaskGuarded();
    view.ResetRunState();
    sent, after := |view.requests|, view.selectors["task_menu"].state;
  }

  /** Through the Run button the second click is ignored, so the menu comes back read-only. */
  method ClickedRepeatedRunRestoresMenu(path: string, size: nat) returns (before: WidgetState, sent: nat, after: WidgetState)
    requires path != "" && ValidateImage(path, Some(size)) == Accepted
    ensures before == Readonly && sent == 1 && after == Readonly
  {
    var view := ViewWithImage(path, size);
    before := view.selectors["task_menu"].state;
    view.ClickRun();
    view.ClickRun();
    view.ResetRunState();
    sent, after := |view.requests|, view.selectors["task_menu"].state;
  }

  /** A fresh view without an app, with an acceptable and readable image chosen: an image run would dispatch it. */
  method ViewWithImage(path: string, size: nat) returns (view: HomeView)
    requires path != "" && ValidateImage(path, Some(size)) == Accepted
    ensures fresh(view) && view.Valid() && !view.running
    ensures view.selectors == map["task_menu" := Selector(Readonly, true)] && view.snapshot == map[]
    ensures view.requests == [] && view.CurrentPlan() == Dispatch(CaptionRequest(FromFile(path)))
  {
    view := new HomeView(null);
    view.ChooseFile(path, Some(size), Decoded);
    MenuLabelsSelectTasks();
    assert Truthy(view.selectedFile);
  }

  /** A small PNG is an acceptable image, so the runs above have an input. */
  lemma SmallPngAccepted()
    ensures ValidateImage("cat.png", Some(10)) == Accepted
  {
    assert Lower("cat.png") == "cat.png";
    assert EndsWith("cat.png", ".png");
  }
}
