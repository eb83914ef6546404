# Tkinter AI GUI: home view and main window, modelled in Dafny

This project models the state logic of a desktop front-end. The front-end lets a user pick one of two tasks, image captioning or sentiment analysis. The user supplies an image file or a block of text and sends it to a model controller. The front-end has two parts:

- **The home view** (`app/views/home_view.py`, module `Home`, class `Home.HomeView`). It covers:
  - validating a chosen image: an extension allow-list and a 25 MB cap;
  - the text-buffer rules: placeholder on focus, a 3000-character cap, clipboard paste;
  - choosing what a run sends to the controller;
  - the run lifecycle: the `running` flag, the snapshot of the task selectors taken before they are disabled, and the restore in `_reset_run_state`;
  - toggling the task panel;
  - the narrow/wide layout choice.
- **The main window** (`app/gui.py`, module `Gui`, class `Gui.MainApp`). It covers:
  - four-way navigation, with exactly one navigation button styled active;
  - window-centring arithmetic;
  - cache-path resolution from `HF_HOME`;
  - the help and model-info texts with their fallbacks;
  - the one `history_items` list that every home view shares by reference (module `History`, class `History.HistoryList`).

Module `Text` defines Python's `str.strip()`, `lower()`, `startswith` and `endswith` over `seq<char>`. Module `Wrappers` holds `Option` and Python truthiness for optional strings.

Outside effects become inputs:
- the file-dialog result becomes a path (`""` when cancelled);
- `os.path.getsize` becomes `Option<nat>`, with `None` when it raises;
- `Image.open` and `_set_preview` become a `Decoding` value: opening fails, opening succeeds but the preview's `copy()` fails (a truncated file), or both succeed;
- the clipboard becomes `Option<string>`, with `None` when `pyperclip` fails;
- `HF_HOME` and the home directory become parameters;
- a resource-file read becomes `FileRead`, either the contents or the exception's message;
- the window and screen sizes become numbers.

Calls into methods defined outside app/gui.py and app/views/home_view.py are recorded as event sequences on the view. `_handle_error` calls go to `errors`. `app.set_status` calls go to `statusUpdates`. Controller calls go to `requests`.

## Model

| member | source | states |
|---|---|---|
| `Home.ValidateImage` | app/views/home_view.py:294-302 | Accepted iff the lower-cased path ends in .png/.jpg/.jpeg/.bmp and the size is known and at most 25·1024·1024. A bad extension gives the format error whatever the size. An allowed extension with a size over 25·1024·1024 gives the "File too large" error. The size is looked up only for an allowed extension: an unreadable size is `SizeUnavailable`, not a rejection. |
| `Home.BadFormatIgnoresSize` | app/views/home_view.py:296-298 | For a disallowed extension, two different sizes give the same format rejection, including a size that cannot be read. |
| `Home.ValidateCaseInsensitive` | app/views/home_view.py:296 | A path and its lower-cased form get the same verdict. |
| `Home.ImageExtensionIsExtension` | app/views/home_view.py:296 | The `endswith` allow-list test equals the test "the text from the last dot of the lower-cased path is one of the four extensions". |
| `Home.HomeView.ChooseFile` | app/views/home_view.py:319-330 | For an empty path or a path that fails validation, `selected_file` and `preview_image` are unchanged and only the validation message is reported. For an accepted path, `selected_file` becomes the path. If `Image.open` fails, `preview_image` keeps its old value and "Invalid image file" is reported. If it succeeds, `preview_image` becomes the opened image; "Invalid image file" is still reported when `_set_preview` then fails. |
| `Home.CharLimited` | app/views/home_view.py:206-212 | The result's stripped length is at most 3000. A buffer whose stripped text fits is returned unchanged (it is not stripped). An oversized one becomes exactly the first 3000 characters of its stripped text. |
| `Home.CharLimitIdempotent` | app/views/home_view.py:206-212 | Enforcing the limit twice is the same as enforcing it once. |
| `Home.HomeView.EnforceCharLimit` | app/views/home_view.py:206-212 | The buffer becomes `CharLimited` of the old buffer. No other field changes. |
| `Home.ClipboardText` | app/views/home_view.py:236-238 | The pasted text is a prefix of the clipboard of at most 3000 characters. It is the whole clipboard or exactly 3000 characters. |
| `Home.HomeView.PasteClipboard` | app/views/home_view.py:231-241 | A non-empty clipboard replaces the buffer with `ClipboardText` of it. An empty or unavailable clipboard leaves the buffer unchanged. |
| `Home.HomeView.SetPlaceholder` | app/views/home_view.py:189-193 | The buffer becomes the placeholder. |
| `Home.HomeView.ClearPlaceholder` | app/views/home_view.py:195-199 | Focus-in empties the buffer only when its stripped content equals the placeholder. |
| `Home.HomeView.RestorePlaceholder` | app/views/home_view.py:201-204 | Focus-out restores the placeholder only when the stripped content is empty. |
| `Home.FocusIn` | app/views/home_view.py:195-199 | The buffer after focus-in. It has no contract of its own: the three focus lemmas below state what it does. |
| `Home.FocusOut` | app/views/home_view.py:201-204 | The buffer after focus-out. It has no contract of its own: the three focus lemmas below state what it does. |
| `Home.FocusKeepsUserText` | app/views/home_view.py:195-204 | Focus-in and focus-out leave alone any buffer holding real text other than the placeholder. |
| `Home.FocusOutThenIn` | app/views/home_view.py:195-204 | Leaving a blank field shows the placeholder, and focusing it again empties it. |
| `Home.FocusInThenOut` | app/views/home_view.py:195-204 | Focusing a field showing the placeholder empties it, and leaving it restores the placeholder. |
| `Home.HomeView.UseSampleText` | app/views/home_view.py:261-266 | The buffer becomes the fixed sample sentence. |
| `Home.TaskOf` | app/views/home_view.py:359 | The task a label selects ("image" iff the lower-cased label starts with "image"; the same test is made at line 421). It has no contract of its own: `Home.TaskOfIgnoresCase` and `Home.MenuLabelsSelectTasks` state what it means. |
| `Home.TaskOfIgnoresCase` | app/views/home_view.py:359 | The task chosen from a label does not depend on the label's letter case. |
| `Home.MenuLabelsSelectTasks` | app/views/home_view.py:57 | "Image to Text" selects the image task and "Sentiment Analysis" selects the sentiment task. |
| `Home.SentimentPayload` | app/views/home_view.py:386-388 | The sentiment payload. It has no contract of its own: `Home.SentimentPayloadSplits` states what it is. |
| `Home.SentimentPayloadSplits` | app/views/home_view.py:386-388 | The sentiment payload starts with the text. It equals the text iff the language is "Auto-detect". Otherwise the rest of the payload is exactly " (in L)". |
| `Home.RunPlan` | app/views/home_view.py:373-389 | What a started run does with the inputs. It has no contract of its own: `Home.RunPlanImage` and `Home.RunPlanText` state it for each task. |
| `Home.RunPlanImage` | app/views/home_view.py:373-379 | Image task: refused with "No image selected" iff there is neither a truthy file nor a decoded image. Otherwise the file is preferred over the decoded image. |
| `Home.RunPlanText` | app/views/home_view.py:380-389 | Sentiment task: refused with "No text entered" iff the stripped text is empty or the placeholder. Otherwise one sentiment request whose payload starts with the stripped text. The payload equals the stripped text iff the language is "Auto-detect"; otherwise the rest of it is exactly " (in L)". |
| `Home.Captured` | app/views/home_view.py:341-343 | What the snapshot records for one selector. It has no contract of its own: `Home.Snapshot` and `Home.RestoreUndoesRun` state what it is for. |
| `Home.Restored` | app/views/home_view.py:402-405 | One selector after the restore. It has no contract of its own: `Home.Restore` and `Home.RestoreUndoesRun` state what it does. |
| `Home.Snapshot` | app/views/home_view.py:336-343 | The snapshot has one entry per existing selector. The entry is its state, or `None` when its state cannot be read. |
| `Home.DisableAll` | app/views/home_view.py:344-351 | Every existing selector is disabled, and nothing else about it changes. |
| `Home.Restore` | app/views/home_view.py:395-410 | Each existing selector that is in the snapshot gets its captured state back, with a captured `None` becoming normal. All other selectors are untouched. |
| `Home.RestoreUndoesRun` | app/views/home_view.py:335-351 | Starting a run from idle and then resetting gives each selector back exactly its earlier state. The exception is a selector whose state could not be read, which comes back normal. If all selectors are readable, the map is restored exactly. |
| `Home.RetakenSnapshotKeepsDisabled` | app/views/home_view.py:335-354 | A snapshot retaken while the selectors are already disabled makes the later restore leave them disabled. The restore gives back the disabled map iff every selector is readable. |
| `Home.HomeView.DisableSelectors` | app/views/home_view.py:335-351 | The probing loop over the four attribute names: the snapshot becomes `Snapshot` of the old selectors, and the selectors become `DisableAll` of them. |
| `Home.HomeView.CurrentPlan` | app/views/home_view.py:358-389 | What a run started now would do with the view's current task, file, image, text and language. It has no contract of its own: it is `Home.RunPlan` of those fields. |
| `Home.HomeView.Launch` | app/views/home_view.py:356-389 | After the `running` check: the view is running, the Run button is disabled and relabelled, and "Running…" is reported when there is an app. A dispatch adds exactly one controller request and leaves the loading indicator. A refusal reports its message, removes the indicator and makes no request. |
| `Home.HomeView.MarkRunning` | app/views/home_view.py:369-372 | The view becomes running and the invariant holds again: the Run button is disabled and labelled "Running…". "Running…" is reported iff there is an app. |
| `Home.HomeView.SendImage` | app/views/home_view.py:373-379 | The image branch carries out exactly the image plan: one caption request for the file or, failing that, the decoded image; otherwise "No image selected" and an empty output. |
| `Home.HomeView.SendText` | app/views/home_view.py:380-389 | The sentiment branch carries out exactly the sentiment plan: one request with the stripped, language-suffixed text; otherwise "No text entered" and an empty output. |
| `Home.HomeView.RunTask` | app/views/home_view.py:332-389 | As written: the snapshot is retaken and the selectors disabled on every call. When already running, nothing else changes: no output clearing, no request, no status, no error. When idle, the call behaves as `Launch`. |
| `Home.HomeView.RunTaskGuarded` | app/views/home_view.py:332-389 | `run_task` with the `running` check first: a call while running changes nothing at all, snapshot included. |
| `Home.HomeView.ClickRun` | app/views/home_view.py:113 | A click on the Run button runs the task only when the button is enabled. Because the view invariant ties the disabled button to `running`, a click while running changes nothing, snapshot included. |
| `Home.HomeView.ResetRunState` | app/views/home_view.py:391-414 | `running` becomes false. The selectors become `Restore` of the old selectors and the old snapshot. The snapshot is emptied. The Run button is normal and labelled "Run". "Ready" is reported when there is an app. |
| `Home.HomeView.ClearInputs` | app/views/home_view.py:304-317 | Both image inputs are dropped, the placeholder is restored and the output is emptied, followed by the effects of `_reset_run_state`. |
| `Home.HomeView.ToggleInputs` | app/views/home_view.py:418-430 | The image panel with a (0, 0) text box for the image task; the text panel with a (40, 4) text box otherwise. The text, file and image inputs are left untouched (they are outside the method's frame). |
| `Home.HomeView.SelectTask` | app/views/home_view.py:59 | Choosing a task sets the label and shows that task's panel: the image panel with a (0, 0) text box, or the text panel with a (40, 4) text box. The inputs are untouched. |
| `Home.LayoutFor` | app/views/home_view.py:172-173 | The layout for a reported width. It has no contract of its own: `Home.LayoutThreshold` states it. |
| `Home.LayoutThreshold` | app/views/home_view.py:170-173 | The layout is narrow exactly for reported widths 1 to 899. A reported 0 counts as 1000. A wider window is never narrower. |
| `Home.HomeView.OnResize` | app/views/home_view.py:170-187 | The layout becomes the one for the reported width. Nothing else changes. |
| `Home.HomeView.constructor` | app/views/home_view.py:18-33 | A new view is idle. Task "Image to Text", language "Auto-detect", placeholder text, no file, no image, task menu read-only, Run button normal. With an app, the view holds the app's own history list object. Without one, it holds a fresh empty list. The history listbox is the projection of that list. |
| `Home.RepeatedRunKeepsMenuDisabled` | app/views/home_view.py:335-354 | For any non-empty path whose size passes validation, a fresh view with that image chosen runs `run_task`, `run_task`, `_reset_run_state`. It sends exactly one caption request and leaves the read-only task menu disabled (see Findings). |
| `Home.GuardedRepeatedRunRestoresMenu` | app/views/home_view.py:332-354 | The same sequence with the `running` check first sends one request and brings the task menu back read-only. |
| `Home.ClickedRepeatedRunRestoresMenu` | app/views/home_view.py:113 | The same sequence through Run-button clicks sends one request and brings the task menu back read-only, because the second click is ignored. |
| `Home.ViewWithImage` | app/views/home_view.py:319-330 | A fresh view without an app, after `choose_file` with an acceptable, readable image, is idle. Its task menu is read-only, and an image run would send that file. |
| `Home.SmallPngAccepted` | app/views/home_view.py:294-302 | "cat.png" of 10 bytes passes validation, so the three runs above have an input. |
| `History.Field` | app/views/home_view.py:130 | `it.get(key, '')` on one history entry. It has no contract of its own: `History.HistoryLines` uses it. |
| `History.HistoryLine` | app/views/home_view.py:130 | The listbox line of one entry. It has no contract of its own: `History.HistoryLines` states that each line of the listbox is this line of its entry. |
| `History.HistoryLines` | app/views/home_view.py:126-132 | The history listbox has one line per history entry, in insertion order, each showing the entry's `ts` and `task` (empty when missing). |
| `History.HistoryLinesAppend` | app/views/home_view.py:126-132 | Appending an entry appends exactly its line: no reordering, no deduplication. |
| `History.HistoryList.constructor` | app/gui.py:42 | The shared history starts empty. |
| `Gui.JoinPath` | app/gui.py:43 | POSIX `os.path.join` of two parts. It has no contract of its own: `Gui.JoinPathParts` states it. |
| `Gui.JoinPathParts` | app/gui.py:43 | The joined path ends with the second part. An absolute second part is the whole result. Otherwise the result starts with the first part. |
| `Gui.CachePath` | app/gui.py:43 | `HF_HOME` when set (even to ""). Otherwise `<home>/.cache/huggingface`, joined the way POSIX `os.path.join` does. |
| `Gui.DefaultCacheUnderHome` | app/gui.py:43 | Without `HF_HOME`, the cache path starts with the home directory and ends with ".cache/huggingface". |
| `Gui.CenterWindow` | app/gui.py:99-106 | A reported width of 0 becomes 1000 and a height of 0 becomes 700. The window's centre is within one pixel of the screen's centre, and exactly on it when the sizes are even. When a size is odd, the offset is rounded down: 2x + w − sw equals w mod 2 − sw mod 2 (and likewise for y), which fixes x and y. |
| `Gui.ModelInfoText` | app/gui.py:149-153 | The model-info page is the file's contents, or "Could not load model info: " followed by the failure's message. |
| `Gui.HelpBody` | app/gui.py:182-191 | The help page before the last error: the file's contents or the fixed fallback. It has no contract of its own: `Gui.FailureTexts` and `Gui.HelpText` state it. |
| `Gui.HelpText` | app/gui.py:182-193 | The help page starts with the file's contents or the fixed fallback. "\n\nLast error:\n" plus the last error is appended iff the last error is truthy. |
| `Gui.HelpTextShowsLastError` | app/gui.py:192-193 | The help page is longer than its body iff there is a last error, and it then ends with that error. |
| `Gui.FailureTexts` | app/gui.py:149-153 | A failed help read ignores the failure's reason. A failed model-info read keeps it: two model-info failures read the same iff their messages are equal. |
| `Gui.NavStyles` | app/gui.py:123-133 | The style each navigation button gets for an active target. It has no contract of its own: `Gui.ExactlyOneActive` states what it means. |
| `Gui.ExactlyOneActive` | app/gui.py:121-133 | For one of home, model, help or settings, that target's button is the only one styled `ActiveNav.TButton` and the other three are `Nav.TButton`. For any other target no button is active. |
| `Gui.MainApp.ApplyNavStyles` | app/gui.py:121-133 | The restyling loop leaves the button styles equal to the styles for the active target. |
| `Gui.MainApp.SwitchNav` | app/gui.py:108-119 | `active_nav` becomes the target and the styles match it. A known target rebuilds its page: a fresh home view listing the shared history, the model-info text, the help text with the current last error, or the settings page. Any other target keeps the current page. The history entries are unchanged. |
| `Gui.MainApp.ShowHome` | app/gui.py:135-139 | A fresh, idle home view that holds the app's own history list object (aliased, not copied). |
| `Gui.MainApp.ShowModel` | app/gui.py:141-156 | The container shows the model-info text. |
| `Gui.MainApp.ShowHelp` | app/gui.py:174-197 | The container shows the help text built from the current last error. |
| `Gui.MainApp.ShowSettings` | app/gui.py:118-119 | The container shows the settings page. |
| `Gui.MainApp.constructor` | app/gui.py:17-97 | The window is centred. `active_nav` is "home". `last_error` is `None`. The logs and the fresh history are empty. The cache path is resolved once. The home button alone is active, and an idle home view sharing the history is shown. |
| `Gui.HistorySurvivesNavigation` | app/gui.py:135-139 | An entry added to the history while one home view is shown appears in the home view built after navigating to help and back. |

Both classes keep an invariant. For `HomeView`:
- the Run button is disabled and labelled "Running…" exactly while `running` is true, and every selector is disabled while `running` is true;
- every selector is one of the four names `run_task` probes.

For `MainApp`:
- the button styles always match `active_nav`;
- a shown home view holds the app's history list.

## Left out

- Widget construction, geometry management, fonts, colours and tooltips are not modelled: `_build_ui`, `_card`, the pack and grid calls, the text colour switches, the preview-box caption, and the drag-enter and drag-leave visuals. The listbox contents built in `_build_ui` are kept.
- PIL image work is not modelled: the thumbnail made in `_set_preview`, `_open_full_image` and `use_sample_image`. A decoded image is `Picture(path)`, and how far `Image.open` and `_set_preview` get is a parameter.
- Methods defined outside app/gui.py and app/views/home_view.py are not part of this model: `_handle_error`, `_on_result`, `_update_info_panel`, `_border_btn_effect`, `_open_history_item`, `copy_result`, `copy_panels`, `set_status`, `show_settings`, `_clear_container`, `_cache_badge_text`, `clear_cache`, `clear_logs`, `toggle_log_panel` and the model controller. Calls to `_handle_error`, `set_status` and the controller are recorded as events.
- Home.HomeView.Launch: after a local refusal ("No image selected" or "No text entered") the model leaves `running` true, as `run_task`'s own code does. Whether `_handle_error` then resets the run is not modelled.
- Home.HomeView.ClearInputs: the clearing of the model and info panels and their refill are not modelled.
- History entries are created by `_on_result`, which is not part of this model. The model has no operation that appends an entry. The save-to-history checkbox is not modelled.
- The progress bar, the status label, the log panel and the cache badge are not modelled: they are cosmetic or depend on methods defined outside these two files.
- Text.Lower lower-cases ASCII letters only; Python's `lower()` also lower-cases other letters. This matters only for non-ASCII paths and labels.
- Gui.JoinPath follows POSIX `os.path.join`; the Windows separator is not modelled.
- Gui.CenterWindow gives the numbers; formatting them into the `"{w}x{h}+{x}+{y}"` geometry string is not modelled.
- The Tk text widget's trailing newline is not part of the buffer. Every read of the buffer strips it anyway.
- Tk widgets are assumed truthy in `if w:`. `configure(state=...)` on the ttk Combobox does not raise for "disabled", "readonly" or "normal", so the fallback paths are not modelled. Those paths are the `w.state(["disabled"])` and `w.state(["!disabled"])` calls at lines 346-351 and 406-410, and the widget left unchanged when both calls raise.
- Home.HomeView.constructor takes the app's history list (null for no app). An app without a `history_items` attribute is not modelled.

The comments in `run_task` and `_reset_run_state` state the intent that the Findings row compares against:
- home_view.py:334 "remember previous state(s)";
- home_view.py:354 "# Already running";
- home_view.py:394 "Restore task selector(s) previous state(s)".

Read together, they say a call while running returns without touching anything, and the reset brings back the states from before the run.

## Findings

| source | as written | input that shows it | evidently intended | confidence | as-written member | corrected member |
|---|---|---|---|---|---|---|
| app/views/home_view.py:335-354 | The selector snapshot is rebuilt, and the selectors disabled, before `if self.running: return`. | A fresh view on the image task with "cat.png" (10 bytes) chosen. The first `run_task` sends one caption request and the view is running. A second `run_task` records "disabled" in the snapshot. `_reset_run_state` then leaves the read-only task menu disabled. | A call while running changes nothing, and the reset restores the state from before the run. | Low, not executed. The Run button is disabled while running (`Home.HomeView.ClickRun`), so only a direct call of `run_task` reaches this. | `Home.RepeatedRunKeepsMenuDisabled` | `Home.GuardedRepeatedRunRestoresMenu` |
