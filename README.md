# GoLab playground: request triage and editor page state, modelled in Dafny

GoLab is a browser playground for Go programs. The server's `/run` handler
takes the posted source. It decides with a quick line scanner (`isSimpleCode`)
whether the program is "simple": it splits into fewer than 30 lines, and every
trimmed line that starts with `import ` but not `import (`, and every line inside
an open block other than an `import (` line and the closing `)`, contains one
of the quoted names `"fmt"`, `"strings"`, `"time"`, `"math"`, `"os"`. The test is substring containment, so
`import "net/http" // "fmt"` passes, and a blank line inside a block of allowed
imports fails. The handler then sends the program to a quick or a full executor
and writes back the output or the error. The page script
wraps a CodeMirror editor. It keeps a Vim on/off flag with a badge, a toggle
button and a mode display. It watches the Vim engine's mode by wrapping the
engine's key handler. It turns the response of a run into the text of the
output panel.

Files:

- `wrappers.dfy` holds `Option` and `Result`.
- `go_strings.dfy` (module `GoStrings`) models the parts of Go's `strings`
  package the handler uses: `Split(s, "\n")` with its inverse `Join`,
  `TrimSpace` with the full `unicode.IsSpace` set, `HasPrefix` and `Contains`.
  Strings are sequences of Unicode scalar values.
- `handler.dfy` (module `Handler`) has two parts.
  - `IsSimpleCode` is the imperative scanner. It has the source's flags
    `inImportBlock` and `hasComplexImports` and uses `continue` and `break`.
    It is proved equal to `IsSimple`, a per-line definition: each trimmed line
    has a role (opens a block, closes one, is checked, is ignored), and the code
    is simple when it has fewer than 30 lines and no checked line misses all
    five quoted names.
  - `HandleRun` is the method with the source's early returns. The two
    executors are parameters of type `string -> Result<string, string>`. The
    out-parameter `used` records which executor ran.
- `js_text.dfy` (module `JsText`) has ASCII `toUpperCase` and the decimal
  rendering of a status in a template literal, with its round trip.
- `editor.dfy` (module `Editor`) has three parts.
  - Pure rules: mode to text and classes, the key-handler wrapper's change
    detection, and a fetch outcome to output text.
  - `PageView`, a value holding every element property the script writes,
    with one pure function per script function (`WithVimIndicator`,
    `WithModeDisplay`, `Toggled`, `Initialized`, `FellBack`, `AfterKey`,
    `RunStarted`, `RunFinished`).
  - Class `Page`, whose methods update the same fields in place. Each method
    is proved to produce `View() == F(old(View()))` for its pure function.
    The lemmas about the pure functions state the page's invariants.

Four behaviours of the code, modelled as written:

- After the fallback start the mode indicator is not necessarily hidden.
  `initEditor` never hides the mode container: it only returns early from
  `updateModeDisplay`. So the container keeps whatever display the markup
  gave it (`Editor.FallbackStartsWithVimOff`).
- The fallback start also leaves the editor's key map at `"vim"` while the
  flag is false, because `initEditor` hard-codes `keyMap: "vim"`. The first
  toggle makes the page consistent again (`Editor.ToggleMakesConsistent`).
- A one-line block such as `import ("fmt")` starts with `import (`, so it
  opens a block that its own `)` does not close. Every later line is then
  checked as an import, and `import ("fmt")` followed by `func main() {}` is
  not simple (`Handler.OneLineBlockStaysOpen`, `Handler.OneLineBlockExample`).
- `http.Error` writes the message followed by a newline and sets
  `Content-Type: text/plain; charset=utf-8`. The model's error bodies are
  therefore `"Method not allowed\n"` etc. The execution path writes the body
  without a newline, with `Content-Type: text/plain` and the implicit status 200.

## Model

| member | source | states |
|---|---|---|
| `GoStrings.SplitLines` | internal/handler/handler.go:83 | `strings.Split(code, "\n")`: one piece more than there are newlines (so a trailing newline adds an empty piece and "" gives one piece), no piece holds a newline, and joining the pieces with "\n" gives the input back |
| `GoStrings.SplitJoinLines` | internal/handler/handler.go:83 | the other half of the round trip: newline-free pieces joined with "\n" split back into the same pieces |
| `GoStrings.SplitAtNewline` | internal/handler/handler.go:83 | splitting `a + "\n" + b` gives the pieces of `a` followed by the pieces of `b` |
| `GoStrings.HasPrefix` | internal/handler/handler.go:91 | `strings.HasPrefix`: the line is at least as long as the prefix and starts with it |
| `GoStrings.Contains` | internal/handler/handler.go:102-106 | `strings.Contains` holds exactly when the needle occurs at some index of the line |
| `GoStrings.TrimSpace` | internal/handler/handler.go:89 | `strings.TrimSpace`: the result is no longer than the line and neither starts nor ends with a Unicode space |
| `GoStrings.TrimSpaceShape` | internal/handler/handler.go:89 | the trimmed line is a slice of the line with only spaces before and after it |
| `GoStrings.TrimSpaceIdempotent` | internal/handler/handler.go:89 | trimming twice equals trimming once |
| `GoStrings.TrimSpaceEmptyIff` | internal/handler/handler.go:89 | a line trims to "" exactly when it consists of spaces only |
| `Handler.Role` | internal/handler/handler.go:91-101 | the role the scanner gives a trimmed line: a ")" closes only an open block, and a line is ignored exactly when no block is open and it does not start with "import " |
| `Handler.IsSimple` | internal/handler/handler.go:84-113 | the per-line definition of simple code: fewer than 30 pieces and no offending line; simple code has at most 28 newlines |
| `Handler.IsSimpleCode` | internal/handler/handler.go:82-117 | the scanner's verdict equals the per-line definition `IsSimple`, and it is false whenever the split yields 30 or more pieces |
| `Handler.NoImportLinesSimple` | internal/handler/handler.go:84-113 | fewer than 30 lines and no trimmed line starting with "import " (which covers "import (") means simple, for a list of lines |
| `Handler.NoImportsIsSimple` | internal/handler/handler.go:84-113 | the same for submitted code, through its split |
| `Handler.NoOpenerNoBlock` | internal/handler/handler.go:91-99 | with no "import (" line so far, no import block is open |
| `Handler.OpenerStartsWithImport` | internal/handler/handler.go:91-101 | a line starting with "import (" also starts with "import " |
| `Handler.SingleImportLineDecides` | internal/handler/handler.go:101-109 | a single `import ...` line outside a block (not "import (") is offending exactly when it contains none of the five quoted names; substring containment, so `import f "fmt"` passes |
| `Handler.SingleImportDecides` | internal/handler/handler.go:101-113 | for submitted code of fewer than 30 lines whose only "import " line is that one, the code is simple exactly when the line mentions an allowed name |
| `Handler.OpenerAndCloserSkipped` | internal/handler/handler.go:91-99 | the "import (" opener and a ")" closing an open block are never checked; the opener opens a block, the closer closes it |
| `Handler.OneLineBlockStaysOpen` | internal/handler/handler.go:91-108 | a line whose trimmed text starts with "import (" leaves a block open for the next line even when it ends in ")", so the next line (not an opener, not ")") offends exactly when it names none of the five quoted packages |
| `Handler.OneLineBlockExample` | internal/handler/handler.go:91-108 | `import ("fmt")` followed by `func main() {}` is not simple |
| `GoStrings.AbsentFirstCharNotContained` | internal/handler/handler.go:102-106 | a needle cannot occur in a line that lacks the needle's first character |
| `Handler.InBlockLineChecked` | internal/handler/handler.go:101-108 | inside an open block every line other than an opener and the closing ")" is checked: it offends exactly when it names none of the five quoted packages, so a comment line offends unless it mentions one |
| `Handler.BlankLineInBlockNotSimple` | internal/handler/handler.go:96-108 | every other line in an open block is checked, so a blank line there makes the code non-simple |
| `Handler.InBlockBeforeDependsOnPrefix` | internal/handler/handler.go:88-99 | whether a block is open at line k depends only on the lines before k |
| `Handler.OffenceDependsOnPrefix` | internal/handler/handler.go:101-113 | two line lists that agree up to and including an offending line are both non-simple, whatever follows |
| `Handler.OffenceSurvivesAppend` | internal/handler/handler.go:107-113 | appending anything after code that holds an offending line keeps it non-simple |
| `Handler.ErrorResponse` | internal/handler/handler.go:42-58 | what `http.Error` writes: the given status and the message followed by one newline |
| `Handler.HandleRun` | internal/handler/handler.go:39-80 | non-POST gives 405 "Method not allowed", a failed body read gives 400 "Error reading request body", and an empty body gives 400 "No code provided", with no executor run in these three cases; otherwise the quick executor runs exactly when the code is simple, and the body is `"Error: " + err` or the output verbatim, with status 200; status 200 exactly when an executor ran |
| `JsText.ToUpper` | static/js/editor.js:153 | `toUpperCase` keeps the length and upper-cases each ASCII letter in place |
| `JsText.ToUpperIdempotent` | static/js/editor.js:153 | the upper-cased text has no lower-case letter and upper-casing it again changes nothing |
| `JsText.DecimalRoundTrip` | static/js/editor.js:19 | the status digits placed in the error message read back as the status |
| `JsText.DecimalString` | static/js/editor.js:19 | `${response.status}`: at least one character, all decimal digits, no leading zero |
| `Editor.ModeClassesExactlyOne` | static/js/editor.js:155-162 | the mode display carries "vim-mode-indicator" and exactly one of insert-mode (for "insert"), visual-mode (for "visual"), normal-mode (for every other mode) |
| `Editor.ModeTextCases` | static/js/editor.js:153 | an unknown mode shows "NORMAL" with normal-mode; a known one is shown upper-cased, same length, with no lower-case letter |
| `Editor.KnownModeNames` | static/js/editor.js:153-162 | "normal", "insert", "visual", "replace" show as NORMAL, INSERT, VISUAL, REPLACE; replace is styled normal-mode |
| `Editor.ModeText` | static/js/editor.js:153 | the display text is never empty; a known mode keeps its length |
| `Editor.ModeClass` | static/js/editor.js:156-162 | one of insert-mode, visual-mode, normal-mode: insert-mode exactly for "insert", visual-mode exactly for "visual" |
| `Editor.WrappedHandleKey` | static/js/editor.js:122-131 | the wrapper returns the original handler's result unchanged and emits `vim-mode-change` with the new mode exactly when the mode before differs from the mode after |
| `Editor.SteadyModeIsSilent` | static/js/editor.js:122-131 | keys that never change the mode emit no event |
| `Editor.AtMostOneEventPerKey` | static/js/editor.js:122-131 | at most one event per key |
| `Editor.LastEventCarriesFinalMode` | static/js/editor.js:122-131 | when keys end in a different mode from the start, some event is emitted and the last one carries the final mode |
| `Editor.TailEventsEndAt` | static/js/editor.js:122-131 | over keys that return to the starting mode, any last event carries that mode |
| `Editor.ResponseOk` | static/js/editor.js:17 | `response.ok`: the status is in the 200 range |
| `Editor.HttpErrorMessage` | static/js/editor.js:19 | the thrown message is never empty; for an empty body it is "HTTP error! status: " followed by digits that read back as the status |
| `Editor.RunOutput` | static/js/editor.js:16-28 | the text written to the output panel is never empty (its cases are stated by `Editor.RunOutputCases`) |
| `Editor.RunOutputCases` | static/js/editor.js:16-28 | an ok body is shown verbatim, an empty ok body as "// No output"; a non-ok body is shown verbatim, an empty one as "HTTP error! status: " plus digits that read back as the status; a rejected fetch shows its error message, or "An error occurred" when that is empty; the panel is never empty |
| `Editor.ServerErrorShowsStatus` | static/js/editor.js:19 | status 500 with an empty body shows "HTTP error! status: 500" |
| `Editor.RunSpinner` | static/js/editor.js:10-33 | the spinner is "flex" when a run starts and "none" after it settles, whatever the outcome; the output is the outcome's text |
| `Editor.IndicatorFollowsFlag` | static/js/editor.js:186-201 | after the badge update: "VIM", bg-rosepine-pine, "Disable Vim" when on; "NORMAL", bg-rosepine-muted, "Enable Vim" when off; exactly one of the two classes present; other classes kept |
| `Editor.ModeDisplayFrame` | static/js/editor.js:140-167 | the mode display changes nothing without an editor or with Vim off, and touches only its own text and classes |
| `Editor.ToggleMakesConsistent` | static/js/editor.js:169-179 | toggling negates the flag; the key map is "vim" exactly when the new flag is on; key map, badge and container then agree with the flag, whatever the state before |
| `Editor.ToggleShowsOrHidesContainer` | static/js/editor.js:174-179 | toggling on shows the container ("flex") and resets the display to "NORMAL" with normal-mode; toggling off hides it ("none") |
| `Editor.ToggleTwiceRestores` | static/js/editor.js:169-201 | from a consistent page two toggles restore the flag, key map, badge text, badge classes, button label and container display |
| `Editor.OtherEventsKeepConsistent` | static/js/editor.js:116-167 | mode refreshes, keys and runs keep a consistent page consistent (the container is shown exactly while Vim is on) |
| `Editor.KeyRefreshesOnChange` | static/js/editor.js:116-131 | a key leaving the mode unchanged changes nothing on the page; one that changes it shows the new mode's text and classes |
| `Editor.FallbackStartsWithVimOff` | static/js/editor.js:214-221 | when the plugin never arrives, the fallback leaves Vim off with the editor created and the badge on "NORMAL"/"Enable Vim"; the mode display and container stay as the markup had them, and the key map is still "vim" |
| `Editor.NormalStartHasVimOn` | static/js/editor.js:36-137 | with the plugin present the editor starts with Vim on, key map "vim", a matching badge and the engine's mode on display |
| `Editor.WithVimIndicator` | static/js/editor.js:186-201 | the badge matches the flag afterwards and nothing but badge text, badge classes and button label changes |
| `Editor.WithModeDisplay` | static/js/editor.js:140-167 | nothing changes without an editor, with Vim off or without the display element; otherwise only the display text and classes change: they become `ModeText` and `ModeClasses` (that is "vim-mode-indicator" plus one mode class) of the given mode, or of the engine's mode when the given one is falsy and the plugin is loaded |
| `Editor.Toggled` | static/js/editor.js:169-179 | the flag is negated and the page is consistent afterwards |
| `Editor.Initialized` | static/js/editor.js:36-137 | the editor exists with key map "vim", the flag is unchanged, the badge matches it and the mode container is untouched |
| `Editor.FellBack` | static/js/editor.js:214-221 | with an editor nothing changes; without one the editor is created with Vim off and key map "vim" |
| `Editor.AfterKey` | static/js/editor.js:116-131 | the engine is in the new mode; if the mode did not change nothing else changes, and otherwise only the display text and classes can |
| `Editor.RunStarted` | static/js/editor.js:10 | the spinner is "flex" and the output is untouched |
| `Editor.RunFinished` | static/js/editor.js:25-32 | the spinner is "none" and the output panel holds a non-empty text |
| `Editor.Page.constructor` | static/js/editor.js:1-2 | the page as loaded: no editor, `vimModeActive` true |
| `Editor.Page.UpdateVimModeIndicator` | static/js/editor.js:186-201 | the new page state is `WithVimIndicator` of the old |
| `Editor.Page.UpdateModeDisplay` | static/js/editor.js:140-167 | the new page state is `WithModeDisplay` of the old and the given mode |
| `Editor.Page.ToggleVimMode` | static/js/editor.js:169-184 | the new page state is `Toggled` of the old |
| `Editor.Page.InitEditor` | static/js/editor.js:36-138 | the new page state is `Initialized` of the old |
| `Editor.Page.DomContentLoaded` | static/js/editor.js:203-225 | with the plugin present the editor is created; otherwise nothing changes until polling or the fallback fires |
| `Editor.Page.VimPluginArrived` | static/js/editor.js:206-212 | the plugin is marked loaded and, if no editor exists yet, the editor is created |
| `Editor.Page.FallbackTimeout` | static/js/editor.js:214-221 | the new page state is `FellBack` of the old: without an editor, Vim is switched off before the editor is created |
| `Editor.Page.DispatchKey` | static/js/editor.js:122-131 | the handler's result is returned unchanged and the page becomes `AfterKey` of the old page and the new mode |
| `Editor.Page.StartRun` | static/js/editor.js:4-15 | only the spinner changes, to "flex" |
| `Editor.Page.FinishRun` | static/js/editor.js:16-33 | the output becomes `RunOutput` of the outcome and the spinner "none" |

## Left out

- `internal/executor/executor.go`: temp directories, file writes and the `go build`/`go run` subprocesses with their timeouts. The executors are parameters returning output or an error message. When Go returns both an output and an error, only the error is modelled, as the handler uses only the error.
- `cmd/server/main.go` and `HandleIndex`: route registration, the static file server, the `PORT` variable and template rendering are server plumbing.
- `io.ReadAll` is reduced to its outcome, a body or a failure. Logging is not modelled. Of the headers, only `Content-Type` is modelled; `X-Content-Type-Options` is not.
- Go strings are raw bytes; the model uses sequences of Unicode scalar values. Invalid UTF-8 is outside the model.
- `JsText.ToUpper`: ASCII only; JavaScript's full Unicode case mapping (such as "ß" to "SS") is not modelled, because Vim mode names are ASCII.
- `fetch` and its promise chain, `setTimeout`/`setInterval` timing and `editor.focus()` are not modelled. A run is split into its start (`StartRun`) and its settlement (`FinishRun`).
- The race between overlapping runs is not modelled. Each settlement hides the spinner, even while another request is pending; that race exists only through concurrency.
- The Escape handler (editor.js:86-99) and the key bindings (editor.js:39-44, 61-67, 103-114) are not modelled. They are event wiring into CodeMirror and the Vim engine, a foreign library. The engine's state is the abstract `engineMode`.
- The `try`/`catch` blocks are not modelled. An engine that throws while its state is read is not modelled.
- Mode-change events that the Vim engine raises on its own are not modelled. The model assumes `cm.trigger` delivers the wrapper's event to the `vim-mode-change` listener.
- `Editor.Page.DispatchKey` requires only an editor and a loaded plugin. It does not capture that the wrapper and its listener are installed only when the plugin was present at the time `initEditor` ran.
- `Editor.LastEventCarriesFinalMode`: assumes every mode transition goes through the wrapped key handler, so one key's mode after is the next key's mode before.
- `Editor.ToggleTwiceRestores`: needs a consistent page. Right after the fallback start the key map is "vim" while the flag is off, and the container is as the markup left it. From that state, two toggles end with key map "default" and container "none".
