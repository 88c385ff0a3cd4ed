/** The page script: the Vim toggle, the Vim badge, the mode display, the change
    detection wrapped around the Vim engine's key handler, and what a run request
    shows in the output panel. The DOM is reduced to the element properties the
    script writes; the editor widget and the Vim engine are reduced to whether
    they exist and the engine's current mode. */
module Editor {
  import opened Wrappers
  import opened JsText

  // ---------------------------------------------------------------------------
  // Names the script writes into the page

  const VimKeyMap := "vim"
  const DefaultKeyMap := "default"
  const PineClass := "bg-rosepine-pine"
  const MutedClass := "bg-rosepine-muted"
  const ModeIndicatorClass := "vim-mode-indicator"
  const InsertClass := "insert-mode"
  const VisualClass := "visual-mode"
  const NormalClass := "normal-mode"
  const Shown := "flex"
  const Hidden := "none"

  // ---------------------------------------------------------------------------
  // The mode display

  /** A mode as the script sees it: a string, or `undefined`. */
  type Mode = Option<string>

  /** JavaScript falsiness of a mode: `undefined` or the empty string. */
  predicate Falsy(m: Mode) {
    m.None? || m.value == ""
  }

  /** `mode ? mode.toUpperCase() : "NORMAL"`. */
  function ModeText(m: Mode): (text: string)
    ensures text != ""
    ensures !Falsy(m) ==> |text| == |m.value|
  {
    if Falsy(m) then "NORMAL" else ToUpper(m.value)
  }

  /** The class added after `className` is reset to "vim-mode-indicator". */
  function ModeClass(m: Mode): (c: string)
    ensures c == InsertClass || c == VisualClass || c == NormalClass
    ensures c == InsertClass <==> m == Some("insert")
    ensures c == VisualClass <==> m == Some("visual")
  {
    if m == Some("insert") then InsertClass
    else if m == Some("visual") then VisualClass
    else NormalClass
  }

  function ModeClasses(m: Mode): set<string> {
    {ModeIndicatorClass, ModeClass(m)}
  }

  /** The display always carries "vim-mode-indicator" and exactly one of the three
      mode classes: insert for "insert", visual for "visual", normal for the rest. */
  lemma ModeClassesExactlyOne(m: Mode)
    ensures ModeIndicatorClass in ModeClasses(m)
    ensures InsertClass in ModeClasses(m) <==> m == Some("insert")
    ensures VisualClass in ModeClasses(m) <==> m == Some("visual")
    ensures NormalClass in ModeClasses(m) <==> m != Some("insert") && m != Some("visual")
    ensures |ModeClasses(m)| == 2
  {
  }

  /** An unknown mode reads "NORMAL" and is styled as normal; a known one is shown
      upper-cased, as long as the name and with no lower-case letter left. */
  lemma ModeTextCases(m: Mode)
    ensures Falsy(m) ==> ModeText(m) == "NORMAL" && ModeClass(m) == NormalClass
    ensures !Falsy(m) ==> |ModeText(m)| == |m.value| && forall i :: 0 <= i < |m.value| ==> !IsLower(ModeText(m)[i])
  {
    if !Falsy(m) {
      ToUpperIdempotent(m.value);
    }
  }

  /** The engine's mode names as displayed: "replace" reads "REPLACE" but is styled
      as normal. */
  lemma KnownModeNames()
    ensures ModeText(Some("normal")) == "NORMAL" && ModeClass(Some("normal")) == NormalClass
    ensures ModeText(Some("insert")) == "INSERT" && ModeClass(Some("insert")) == InsertClass
    ensures ModeText(Some("visual")) == "VISUAL" && ModeClass(Some("visual")) == VisualClass
    ensures ModeText(Some("replace")) == "REPLACE" && ModeClass(Some("replace")) == NormalClass
  {
    NormalName();
    InsertName();
    VisualName();
    ReplaceName();
  }

  lemma NormalName()
    ensures ToUpper("normal") == "NORMAL" && "normal" != "insert" && "normal" != "visual"
  {
    UpperOf("normal", "NORMAL");
  }

  lemma InsertName()
    ensures ToUpper("insert") == "INSERT"
  {
    UpperOf("insert", "INSERT");
  }

  lemma VisualName()
    ensures ToUpper("visual") == "VISUAL" && "visual" != "insert"
  {
    UpperOf("visual", "VISUAL");
  }

  lemma ReplaceName()
    ensures ToUpper("replace") == "REPLACE" && "replace" != "insert" && "replace" != "visual"
  {
    UpperOf("replace", "REPLACE");
  }

  lemma UpperOf(s: string, u: string)
    requires |s| == |u| && forall i :: 0 <= i < |s| ==> IsLower(s[i]) && u[i] as int == s[i] as int - 32
    ensures ToUpper(s) == u
  {
  }

  // ---------------------------------------------------------------------------
  // Change detection around the engine's key handler

  /** The `vim-mode-change` event the wrapper emits, carrying the new mode. */
  datatype ModeChange = ModeChange(mode: Mode)

  /** The wrapper installed over `CodeMirror.Vim.handleKey`: given the engine's mode
      before and after the original handler ran, it passes the handler's result
      through and emits an event exactly when the two modes differ. */
  function WrappedHandleKey<R>(oldMode: Mode, result: R, newMode: Mode): (out: (R, Option<ModeChange>))
    ensures out.0 == result
    ensures out.1.Some? <==> oldMode != newMode
    ensures out.1.Some? ==> out.1.value.mode == newMode
  {
    (result, if oldMode != newMode then Some(ModeChange(newMode)) else None)
  }

  /** The events emitted while keys take the engine through the modes of `trace`,
      one key per step. */
  function ChangeEvents(trace: seq<Mode>): seq<ModeChange>
  {
    if |trace| < 2 then []
    else
      var event := WrappedHandleKey(trace[0], (), trace[1]).1;
      (if event.Some? then [event.value] else []) + ChangeEvents(trace[1..])
  }

  /** Keys that leave the mode alone emit nothing. */
  lemma {:induction false} SteadyModeIsSilent(trace: seq<Mode>)
    requires forall i :: 0 <= i < |trace| ==> trace[i] == trace[0]
    ensures ChangeEvents(trace) == []
  {
    if |trace| >= 2 {
      SteadyModeIsSilent(trace[1..]);
    }
  }

  /** At most one event per key. */
  lemma {:induction false} AtMostOneEventPerKey(trace: seq<Mode>)
    requires |trace| >= 1
    ensures |ChangeEvents(trace)| <= |trace| - 1
  {
    if |trace| >= 2 {
      AtMostOneEventPerKey(trace[1..]);
    }
  }

  /** If the keys end in a different mode from the one they started in, an event was
      emitted and the last one carries the final mode, so a listener that keeps the
      last event's mode is up to date. */
  lemma {:induction false} LastEventCarriesFinalMode(trace: seq<Mode>)
    requires |trace| >= 1 && trace[0] != trace[|trace| - 1]
    ensures |ChangeEvents(trace)| > 0
    ensures ChangeEvents(trace)[|ChangeEvents(trace)| - 1].mode == trace[|trace| - 1]
  {
    var rest := trace[1..];
    assert |trace| >= 2;
    if |rest| >= 1 && rest[0] != rest[|rest| - 1] {
      LastEventCarriesFinalMode(rest);
    } else if |rest| >= 2 {
      // rest starts and ends in the same mode; then trace[0] != trace[1] == final
      assert trace[1] == trace[|trace| - 1];
      assert ChangeEvents(trace) == [ModeChange(trace[1])] + ChangeEvents(rest);
      TailEventsEndAt(rest);
    }
  }

  /** Events emitted over a trace that returns to its starting mode, if any, end
      with that mode. */
  lemma {:induction false} TailEventsEndAt(trace: seq<Mode>)
    requires |trace| >= 1 && trace[0] == trace[|trace| - 1]
    ensures |ChangeEvents(trace)| > 0 ==> ChangeEvents(trace)[|ChangeEvents(trace)| - 1].mode == trace[|trace| - 1]
  {
    if |trace| >= 2 {
      var rest := trace[1..];
      if rest[0] != rest[|rest| - 1] {
        LastEventCarriesFinalMode(rest);
      } else {
        TailEventsEndAt(rest);
      }
    }
  }

  // ---------------------------------------------------------------------------
  // The run action's output

  /** How a `fetch("/run")` settles: a response with its status and body text, or a
      rejection with the error's message. */
  datatype FetchOutcome = Responded(status: nat, text: string) | Rejected(message: string)

  /** `response.ok`: a status in the 200 range. */
  predicate ResponseOk(status: nat) {
    200 <= status <= 299
  }

  /** The message of the `Error` thrown for a non-ok response. */
  function HttpErrorMessage(status: nat, text: string): (message: string)
    ensures message != ""
    ensures text == "" ==>
      && |message| > |HttpErrorPrefix| && message[..|HttpErrorPrefix|] == HttpErrorPrefix
      && message[|HttpErrorPrefix|..] == DecimalString(status)
      && DecimalValue(message[|HttpErrorPrefix|..]) == status
  {
    if text != "" then text
    else
      var message := HttpErrorPrefix + DecimalString(status);
      assert message[|HttpErrorPrefix|..] == DecimalString(status);
      DecimalRoundTrip(status);
      message
  }

  const HttpErrorPrefix := "HTTP error! status: "

  /** What `runCode` writes into the output panel for an outcome. */
  function RunOutput(o: FetchOutcome): (output: string)
    ensures output != ""
  {
    match o
    case Responded(status, text) =>
      if ResponseOk(status) then (if text != "" then text else "// No output")
      else
        var message := HttpErrorMessage(status, text);
        if message != "" then message else "An error occurred"
    case Rejected(message) =>
      if message != "" then message else "An error occurred"
  }

  /** An ok body is shown verbatim, an empty one as the placeholder; a failed
      response shows its body, or a message naming the status when the body is empty;
      the panel is never left empty. */
  lemma RunOutputCases(o: FetchOutcome)
    ensures o.Responded? && ResponseOk(o.status) ==> RunOutput(o) == (if o.text == "" then "// No output" else o.text)
    ensures o.Responded? && !ResponseOk(o.status) && o.text != "" ==> RunOutput(o) == o.text
    ensures o.Responded? && !ResponseOk(o.status) && o.text == "" ==>
      && RunOutput(o) == HttpErrorPrefix + DecimalString(o.status)
      && DecimalValue(RunOutput(o)[|HttpErrorPrefix|..]) == o.status
    ensures o.Rejected? ==> RunOutput(o) == (if o.message == "" then "An error occurred" else o.message)
    ensures RunOutput(o) != ""
  {
    if o.Responded? && !ResponseOk(o.status) && o.text == "" {
      assert RunOutput(o)[|HttpErrorPrefix|..] == DecimalString(o.status);
      DecimalRoundTrip(o.status);
    }
  }

  /** A 500 with an empty body shows "HTTP error! status: 500". */
  lemma ServerErrorShowsStatus()
    ensures RunOutput(Responded(500, "")) == "HTTP error! status: 500"
  {
    assert DecimalString(5) == "5";
    assert DecimalString(50) == "50";
    assert DecimalString(500) == "500";
  }

  // ---------------------------------------------------------------------------
  // The page, as a value

  /** Everything the script reads or writes. `editorPresent` says whether `editor` has
      been assigned, `vimLoaded` whether `CodeMirror.Vim` is defined, `engineMode` is
      `vimState.mode`; `keyMap` is the editor's keyMap option. */
  datatype PageView = PageView(
    editorPresent: bool,
    vimLoaded: bool,
    engineMode: Mode,
    vimModeActive: bool,
    keyMap: string,
    containerDisplay: string,
    indicatorText: string,
    indicatorClasses: set<string>,
    toggleLabel: string,
    hasModeDisplay: bool,
    modeText: string,
    modeClasses: set<string>,
    spinnerDisplay: string,
    outputText: string)

  /** `updateVimModeIndicator`. */
  function WithVimIndicator(v: PageView): (w: PageView)
    ensures IndicatorMatches(w)
    ensures w == v.(indicatorText := w.indicatorText, indicatorClasses := w.indicatorClasses, toggleLabel := w.toggleLabel)
  {
    if v.vimModeActive then
      v.(indicatorText := "VIM", indicatorClasses := v.indicatorClasses - {MutedClass} + {PineClass},
         toggleLabel := "Disable Vim")
    else
      v.(indicatorText := "NORMAL", indicatorClasses := v.indicatorClasses - {PineClass} + {MutedClass},
         toggleLabel := "Enable Vim")
  }

  /** `updateModeDisplay(mode)`: nothing without an editor or with Vim off; otherwise a
      missing mode is read from the engine when it is loaded, and the display element,
      if the page has one, gets the mode's text and classes. */
  function WithModeDisplay(v: PageView, mode: Mode): (w: PageView)
    ensures !v.editorPresent || !v.vimModeActive || !v.hasModeDisplay ==> w == v
    ensures w == v.(modeText := w.modeText, modeClasses := w.modeClasses)
    ensures w != v ==> ModeIndicatorClass in w.modeClasses && |w.modeClasses| == 2
    ensures v.editorPresent && v.vimModeActive && v.hasModeDisplay ==>
      var m := if Falsy(mode) && v.vimLoaded then v.engineMode else mode;
      w.modeText == ModeText(m) && w.modeClasses == ModeClasses(m)
  {
    if !v.editorPresent || !v.vimModeActive then v
    else
      var m := if Falsy(mode) && v.vimLoaded then v.engineMode else mode;
      if v.hasModeDisplay then v.(modeText := ModeText(m), modeClasses := ModeClasses(m)) else v
  }

  /** `toggleVimMode`. */
  function Toggled(v: PageView): (w: PageView)
    ensures w.vimModeActive == !v.vimModeActive
    ensures Consistent(w)
  {
    var active := !v.vimModeActive;
    var w := WithVimIndicator(v.(vimModeActive := active, keyMap := if active then VimKeyMap else DefaultKeyMap));
    if active then WithModeDisplay(w.(containerDisplay := Shown), Some("normal"))
    else w.(containerDisplay := Hidden)
  }

  /** `initEditor`: the editor is created with the Vim key map, then the badge and
      the mode display are refreshed. */
  function Initialized(v: PageView): (w: PageView)
    ensures w.editorPresent && w.keyMap == VimKeyMap && w.vimModeActive == v.vimModeActive
    ensures IndicatorMatches(w) && w.containerDisplay == v.containerDisplay
  {
    WithModeDisplay(WithVimIndicator(v.(editorPresent := true, keyMap := VimKeyMap)), None)
  }

  /** The 2000 ms fallback: without an editor, Vim is switched off and the editor
      is created; otherwise nothing happens. */
  function FellBack(v: PageView): (w: PageView)
    ensures v.editorPresent ==> w == v
    ensures !v.editorPresent ==> w.editorPresent && !w.vimModeActive && w.keyMap == VimKeyMap
  {
    if v.editorPresent then v else Initialized(v.(vimModeActive := false))
  }

  /** One key through the wrapped handler, taking the engine to `newMode`; the
      `vim-mode-change` listener hands the event's mode to `updateModeDisplay`. */
  function AfterKey(v: PageView, newMode: Mode): (w: PageView)
    ensures w.engineMode == newMode
    ensures newMode == v.engineMode ==> w == v.(engineMode := newMode)
    ensures w == v.(engineMode := newMode, modeText := w.modeText, modeClasses := w.modeClasses)
  {
    var w := v.(engineMode := newMode);
    var event := WrappedHandleKey(v.engineMode, (), newMode).1;
    if event.Some? then WithModeDisplay(w, event.value.mode) else w
  }

  function RunStarted(v: PageView): (w: PageView)
    ensures w.spinnerDisplay == Shown && w.outputText == v.outputText
  {
    v.(spinnerDisplay := Shown)
  }

  function RunFinished(v: PageView, o: FetchOutcome): (w: PageView)
    ensures w.spinnerDisplay == Hidden && w.outputText != ""
  {
    v.(outputText := RunOutput(o), spinnerDisplay := Hidden)
  }

  /** The badge matches the flag: its text, its one background class and the button. */
  predicate IndicatorMatches(v: PageView) {
    if v.vimModeActive then
      v.indicatorText == "VIM" && PineClass in v.indicatorClasses && MutedClass !in v.indicatorClasses
      && v.toggleLabel == "Disable Vim"
    else
      v.indicatorText == "NORMAL" && MutedClass in v.indicatorClasses && PineClass !in v.indicatorClasses
      && v.toggleLabel == "Enable Vim"
  }

  /** Key map, badge and mode container all agree with the flag: the container is
      shown exactly while Vim is on. */
  predicate Consistent(v: PageView) {
    && v.keyMap == (if v.vimModeActive then VimKeyMap else DefaultKeyMap)
    && IndicatorMatches(v)
    && (v.containerDisplay == Shown <==> v.vimModeActive)
    && (v.containerDisplay == Hidden <==> !v.vimModeActive)
  }

  // ---------------------------------------------------------------------------
  // Properties of the page transitions

  /** After the badge update, exactly one of the two background classes is present
      and text and button follow the flag; other classes are kept. */
  lemma IndicatorFollowsFlag(v: PageView)
    ensures IndicatorMatches(WithVimIndicator(v))
    ensures WithVimIndicator(v).indicatorClasses - {PineClass, MutedClass} == v.indicatorClasses - {PineClass, MutedClass}
  {
  }

  /** The mode display changes nothing without an editor or while Vim is off, and
      never touches anything but its own text and classes. */
  lemma ModeDisplayFrame(v: PageView, mode: Mode)
    ensures !v.editorPresent || !v.vimModeActive ==> WithModeDisplay(v, mode) == v
    ensures WithModeDisplay(v, mode) == v.(modeText := WithModeDisplay(v, mode).modeText,
                                           modeClasses := WithModeDisplay(v, mode).modeClasses)
  {
  }

  /** Toggling negates the flag, puts "vim" in the key map exactly when the flag is
      now on, and leaves the page consistent whatever state it was in. */
  lemma ToggleMakesConsistent(v: PageView)
    ensures Toggled(v).vimModeActive == !v.vimModeActive
    ensures Toggled(v).keyMap == VimKeyMap <==> Toggled(v).vimModeActive
    ensures Consistent(Toggled(v))
  {
  }

  /** Toggling on shows the container and, with an editor and a display element,
      resets the display to "NORMAL" with the normal class; toggling off hides it. */
  lemma ToggleShowsOrHidesContainer(v: PageView)
    ensures !v.vimModeActive ==> Toggled(v).containerDisplay == Shown
    ensures v.vimModeActive ==> Toggled(v).containerDisplay == Hidden
    ensures !v.vimModeActive && v.editorPresent && v.hasModeDisplay ==>
      Toggled(v).modeText == "NORMAL" && Toggled(v).modeClasses == {ModeIndicatorClass, NormalClass}
  {
    KnownModeNames();
  }

  /** From a consistent page, toggling twice restores the flag, the key map, the
      badge text, its classes, the button label and the container. */
  lemma ToggleTwiceRestores(v: PageView)
    requires Consistent(v)
    ensures var w := Toggled(Toggled(v));
      && w.vimModeActive == v.vimModeActive && w.keyMap == v.keyMap
      && w.indicatorText == v.indicatorText && w.indicatorClasses == v.indicatorClasses
      && w.toggleLabel == v.toggleLabel && w.containerDisplay == v.containerDisplay
  {
    var w := Toggled(Toggled(v));
    if v.vimModeActive {
      assert w.indicatorClasses == v.indicatorClasses - {PineClass} + {MutedClass} - {MutedClass} + {PineClass};
    } else {
      assert w.indicatorClasses == v.indicatorClasses - {MutedClass} + {PineClass} - {PineClass} + {MutedClass};
    }
  }

  /** Keys, mode refreshes and runs keep a consistent page consistent. */
  lemma OtherEventsKeepConsistent(v: PageView, m: Mode, o: FetchOutcome)
    requires Consistent(v)
    ensures Consistent(WithModeDisplay(v, m))
    ensures Consistent(AfterKey(v, m))
    ensures Consistent(RunStarted(v)) && Consistent(RunFinished(v, o))
  {
  }

  /** A key that leaves the mode where it was refreshes nothing; one that changes it
      shows the new mode (or, when that is unknown, the engine's). */
  lemma KeyRefreshesOnChange(v: PageView, m: Mode)
    requires v.editorPresent && v.vimModeActive && v.hasModeDisplay
    ensures m == v.engineMode ==> AfterKey(v, m) == v
    ensures m != v.engineMode ==> AfterKey(v, m).modeText == ModeText(m) && AfterKey(v, m).modeClasses == ModeClasses(m)
  {
  }

  /** The spinner is shown when a run starts and hidden after it settles, whatever
      the outcome, and the output is the outcome's text. */
  lemma RunSpinner(v: PageView, o: FetchOutcome)
    ensures RunStarted(v).spinnerDisplay == Shown
    ensures RunFinished(RunStarted(v), o).spinnerDisplay == Hidden
    ensures RunFinished(RunStarted(v), o).outputText == RunOutput(o) != ""
  {
    RunOutputCases(o);
  }

  /** The page as loaded: no editor yet and Vim on. */
  predicate Fresh(v: PageView) {
    !v.editorPresent && v.vimModeActive
  }

  /** When the Vim plugin never arrives, the fallback leaves Vim off, creates the
      editor and sets the badge to "NORMAL"/"Enable Vim"; the mode display and its
      container are left as the page had them, and the key map is still "vim". */
  lemma FallbackStartsWithVimOff(v: PageView)
    requires Fresh(v) && !v.vimLoaded
    ensures var w := FellBack(v);
      && w.editorPresent && !w.vimModeActive
      && w.indicatorText == "NORMAL" && w.toggleLabel == "Enable Vim"
      && w.containerDisplay == v.containerDisplay
      && w.modeText == v.modeText && w.modeClasses == v.modeClasses
      && w.keyMap == VimKeyMap && !Consistent(w)
  {
  }

  /** A start with the plugin present creates the editor with Vim on and the badge
      reading "VIM"; with a display element, the display shows the engine's mode. */
  lemma NormalStartHasVimOn(v: PageView)
    requires Fresh(v) && v.vimLoaded
    ensures var w := Initialized(v);
      && w.editorPresent && w.vimModeActive && w.keyMap == VimKeyMap
      && IndicatorMatches(w)
      && (v.hasModeDisplay ==> w.modeText == ModeText(v.engineMode))
  {
  }

  // ---------------------------------------------------------------------------
  // The page, as the object the script updates

  class Page {
    var editorPresent: bool
    var vimLoaded: bool
    var engineMode: Mode
    var vimModeActive: bool
    var keyMap: string
    var containerDisplay: string
    var indicatorText: string
    var indicatorClasses: set<string>
    var toggleLabel: string
    const hasModeDisplay: bool
    var modeText: string
    var modeClasses: set<string>
    var spinnerDisplay: string
    var outputText: string

    function View(): PageView
      reads this
    {
      PageView(editorPresent, vimLoaded, engineMode, vimModeActive, keyMap, containerDisplay,
               indicatorText, indicatorClasses, toggleLabel, hasModeDisplay, modeText, modeClasses,
               spinnerDisplay, outputText)
    }

    /** The page as the server sent it: no editor, `vimModeActive = true`, and the
        elements as the markup has them. */
    constructor (vimLoaded: bool, engineMode: Mode, containerDisplay: string, indicatorText: string,
                 indicatorClasses: set<string>, toggleLabel: string, hasModeDisplay: bool,
                 modeText: string, modeClasses: set<string>, spinnerDisplay: string, outputText: string)
      ensures Fresh(View())
      ensures View() == PageView(false, vimLoaded, engineMode, true, "", containerDisplay, indicatorText,
                                 indicatorClasses, toggleLabel, hasModeDisplay, modeText, modeClasses,
                                 spinnerDisplay, outputText)
    {
      this.editorPresent := false;
      this.vimLoaded := vimLoaded;
      this.engineMode := engineMode;
      this.vimModeActive := true;
      this.keyMap := "";
      this.containerDisplay := containerDisplay;
      this.indicatorText := indicatorText;
      this.indicatorClasses := indicatorClasses;
      this.toggleLabel := toggleLabel;
      this.hasModeDisplay := hasModeDisplay;
      this.modeText := modeText;
      this.modeClasses := modeClasses;
      this.spinnerDisplay := spinnerDisplay;
      this.outputText := outputText;
    }

    method UpdateVimModeIndicator()
      modifies this
      ensures View() == WithVimIndicator(old(View()))
    {
      if vimModeActive {
        indicatorText := "VIM";
        indicatorClasses := indicatorClasses - {MutedClass};
        indicatorClasses := indicatorClasses + {PineClass};
        toggleLabel := "Disable Vim";
      } else {
        indicatorText := "NORMAL";
        indicatorClasses := indicatorClasses - {PineClass};
        indicatorClasses := indicatorClasses + {MutedClass};
        toggleLabel := "Enable Vim";
      }
    }

    method UpdateModeDisplay(mode: Mode)
      modifies this
      ensures View() == WithModeDisplay(old(View()), mode)
    {
      if !editorPresent || !vimModeActive {
        return;
      }
      var m := mode;
      if Falsy(m) && vimLoaded {
        m := engineMode;
      }
      if hasModeDisplay {
        modeText := ModeText(m);
        modeClasses := {ModeIndicatorClass};
        modeClasses := modeClasses + {ModeClass(m)};
      }
    }

    method ToggleVimMode()
      requires editorPresent
      modifies this
      ensures View() == Toggled(old(View()))
    {
      vimModeActive := !vimModeActive;
      keyMap := if vimModeActive then VimKeyMap else DefaultKeyMap;
      UpdateVimModeIndicator();
      if vimModeActive {
        containerDisplay := Shown;
        UpdateModeDisplay(Some("normal"));
      } else {
        containerDisplay := Hidden;
      }
    }

    method InitEditor()
      modifies this
      ensures View() == Initialized(old(View()))
    {
      editorPresent := true;
      keyMap := VimKeyMap;
      UpdateVimModeIndicator();
      UpdateModeDisplay(None);
    }

    /** The `DOMContentLoaded` handler: with the plugin present the editor is created
        at once; otherwise polling starts and nothing changes yet. */
    method DomContentLoaded()
      modifies this
      ensures View() == if old(vimLoaded) then Initialized(old(View())) else old(View())
    {
      if vimLoaded {
        InitEditor();
      }
    }

    /** One tick of the interval that `DomContentLoaded` starts when the plugin is
        missing, once the plugin has appeared: the editor is created unless the
        fallback already created it (and cleared the interval). It stands for that
        tick only; on a page where `DomContentLoaded` took the other branch there is
        no interval. */
    method VimPluginArrived()
      modifies this
      ensures var v := old(View()).(vimLoaded := true);
        View() == if old(editorPresent) then v else Initialized(v)
    {
      vimLoaded := true;
      if !editorPresent {
        InitEditor();
      }
    }

    /** The 2000 ms timer that `DomContentLoaded` sets when the plugin is missing;
        it stands for that timer only, which does not exist after the other branch. */
    method FallbackTimeout()
      modifies this
      ensures View() == FellBack(old(View()))
    {
      if !editorPresent {
        vimModeActive := false;
        InitEditor();
      }
    }

    /** A key through the wrapped `handleKey`: the original handler's result is
        passed through and the engine is now in `newMode`. */
    method DispatchKey<R>(result: R, newMode: Mode) returns (r: R)
      requires editorPresent && vimLoaded
      modifies this
      ensures r == result
      ensures View() == AfterKey(old(View()), newMode)
    {
      var oldMode := engineMode;
      engineMode := newMode;
      var out := WrappedHandleKey(oldMode, result, newMode);
      if out.1.Some? {
        UpdateModeDisplay(out.1.value.mode);
      }
      r := out.0;
    }

    /** The start of `runCode`: the spinner is shown and the request is sent. */
    method StartRun()
      requires editorPresent
      modifies this
      ensures View() == RunStarted(old(View()))
    {
      spinnerDisplay := Shown;
    }

    /** The promise chain of `runCode` settling with outcome `o`. */
    method FinishRun(o: FetchOutcome)
      modifies this
      ensures View() == RunFinished(old(View()), o)
    {
      outputText := RunOutput(o);
      spinnerDisplay := Hidden;
    }
  }
}
