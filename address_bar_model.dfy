/**
 * The iOS address bar's editing state machine as values: the search bar's
 * text and placeholder, its focus, the cancel button, the toolbar items'
 * visibilities, the queue of deferred actions the handlers schedule, and
 * the browser's current URL. `AddressBar.SearchBarController` is proved
 * against these functions.
 */
module AddressBarModel {
  import opened Wrappers
  import opened Views

  /** The field's placeholder: the static hint, or a styled (non-empty) string. */
  datatype Placeholder = Hint | Styled(text: string)

  /**
   * Deferred work the edit handler schedules and never cancels: the 500 ms
   * timer after focus is gained, and the promise continuation after focus is
   * lost. The continuation is a microtask: the event loop runs it before any
   * timer and before the next user or browser event.
   */
  datatype Deferred = FillAfterFocus | RestoreAfterBlur

  datatype Bar = Bar(
    text: string,           // the search bar's literal text
    placeholder: Placeholder,
    focused: bool,          // the search bar is first responder
    cancelShown: bool,
    allSelected: bool,      // the selection spans the whole text
    items: seq<Visibility>, // the action bar's items
    pending: seq<Deferred>,
    url: string             // the browser view's current URL
  )

  // ---------------------------------------------------------------------------
  // The controller's operations
  // ---------------------------------------------------------------------------

  /** The placeholder `setPlaceholderText(t)` installs: `t` when it is truthy, else the hint. */
  function PlaceholderFor(t: Option<string>): (p: Placeholder)
    ensures p.Styled? <==> t.Some? && t.value != ""
    ensures p.Styled? ==> p.text == t.value
  {
    if t.Some? && t.value != "" then Styled(t.value) else Hint
  }

  /** `setPlaceholderText`: only the placeholder changes. */
  function SetPlaceholderText(b: Bar, t: Option<string>): (r: Bar)
    ensures r.placeholder == PlaceholderFor(t)
    ensures r.(placeholder := b.placeholder) == b
  {
    b.(placeholder := PlaceholderFor(t))
  }

  /** `setText(url)`, the navigation-sync entry point. */
  function SetText(b: Bar, url: string): (r: Bar)
    ensures b.focused ==> r == b
    ensures !b.focused ==> r.placeholder == PlaceholderFor(Some(url))
    ensures r.(placeholder := b.placeholder) == b
  {
    if b.focused then b else SetPlaceholderText(b, Some(url))
  }

  /**
   * The one handler registered for both begin- and end-editing; it tells
   * them apart by the focus flag at the moment it runs.
   */
  function EditHandler(b: Bar): (r: Bar)
    ensures r.focused == b.focused && r.url == b.url && r.allSelected == b.allSelected
    ensures |r.items| == |b.items|
    ensures b.focused ==>
              && r.cancelShown
              && (forall i :: 0 <= i < |r.items| ==> r.items[i] == Collapsed)
              && r.text == b.text && r.placeholder == b.placeholder
              && r.pending == b.pending + [FillAfterFocus]
    ensures !b.focused ==>
              && r.placeholder == PlaceholderFor(Some(b.text))
              && r.text == ""
              && r.cancelShown == b.cancelShown && r.items == b.items
              && r.pending == b.pending + [RestoreAfterBlur]
  {
    if b.focused then
      b.(cancelShown := true, items := AllSet(|b.items|, Collapsed),
         pending := b.pending + [FillAfterFocus])
    else
      SetPlaceholderText(b, Some(b.text)).(text := "", pending := b.pending + [RestoreAfterBlur])
  }

  /** What a deferred action does when it finally runs (the queue is not touched here). */
  function RunAction(b: Bar, a: Deferred): (r: Bar)
    ensures r.focused == b.focused && r.url == b.url && r.pending == b.pending
    ensures |r.items| == |b.items|
    ensures a == FillAfterFocus && b.text == "" ==>
              && r.text == b.url && r.placeholder == Hint && r.allSelected
              && r.cancelShown == b.cancelShown && r.items == b.items
    ensures a == FillAfterFocus && b.text != "" ==> r == b
    ensures a == RestoreAfterBlur ==>
              && r.placeholder == PlaceholderFor(Some(b.url))
              && !r.cancelShown
              && (forall i :: 0 <= i < |r.items| ==> r.items[i] == Visible)
              && r.text == b.text && r.allSelected == b.allSelected
  {
    match a
    case FillAfterFocus =>
      if b.text == "" then SetPlaceholderText(b.(text := b.url), None).(allSelected := true) else b
    case RestoreAfterBlur =>
      SetPlaceholderText(b, Some(b.url)).(cancelShown := false, items := AllSet(|b.items|, Visible))
  }

  /** The queue entry the event loop runs next: a pending continuation before any timer. */
  function NextIndex(pending: seq<Deferred>): (i: nat)
    requires pending != []
    ensures i < |pending|
    ensures RestoreAfterBlur in pending <==> pending[i] == RestoreAfterBlur
  {
    if RestoreAfterBlur in pending then IndexOf(pending, RestoreAfterBlur) else 0
  }

  /**
   * The event loop takes the next deferred action off the queue and runs it:
   * the queued continuation if there is one, else the oldest timer.
   */
  function RunNext(b: Bar): (r: Bar)
    requires b.pending != []
    ensures r.focused == b.focused && r.url == b.url && |r.items| == |b.items|
    ensures RestoreAfterBlur in b.pending ==>
              && r.pending == RemoveFirst(b.pending, RestoreAfterBlur)
              && r.placeholder == PlaceholderFor(Some(b.url))
              && !r.cancelShown
              && (forall i :: 0 <= i < |r.items| ==> r.items[i] == Visible)
              && r.text == b.text && r.allSelected == b.allSelected
    ensures RestoreAfterBlur !in b.pending ==>
              && r.pending == b.pending[1..]
              && (b.text == "" ==>
                    && r.text == b.url && r.placeholder == Hint && r.allSelected
                    && r.cancelShown == b.cancelShown && r.items == b.items)
              && (b.text != "" ==> r == b.(pending := b.pending[1..]))
  {
    var i := NextIndex(b.pending);
    RunAction(b.(pending := b.pending[..i] + b.pending[i + 1..]), b.pending[i])
  }

  // ---------------------------------------------------------------------------
  // Event traces
  // ---------------------------------------------------------------------------

  /** What can happen to the address bar. */
  datatype Event =
    | BeginEditing            // the bar becomes first responder, then the handler runs
    | EndEditing              // the bar resigns first responder, then the handler runs
    | UserTyped(s: string)    // keystrokes replace the text
    | Navigated(url: string)  // the browser reports a new URL; the navigation hook runs
    | RunDeferred             // the event loop runs the next queued action

  /** External events wait until the pending continuation has run; typing needs focus. */
  predicate Enabled(b: Bar, e: Event) {
    match e
    case RunDeferred => b.pending != []
    case UserTyped(_) => b.focused && RestoreAfterBlur !in b.pending
    case _ => RestoreAfterBlur !in b.pending
  }

  /** One event: what the platform, the user or the event loop does, then the page's code. */
  function Step(b: Bar, e: Event): (r: Bar)
    requires Enabled(b, e)
    ensures |r.items| == |b.items|
    ensures r.url == if e.Navigated? then e.url else b.url
    ensures e == BeginEditing ==> r.focused
    ensures e == EndEditing ==> !r.focused && r.text == ""
    ensures !e.BeginEditing? && !e.EndEditing? ==> r.focused == b.focused
    ensures e.UserTyped? ==> r.text == e.s
    ensures e.Navigated? ==> r.text == b.text
  {
    match e
    case BeginEditing => EditHandler(b.(focused := true))
    case EndEditing => EditHandler(b.(focused := false))
    case UserTyped(s) => b.(text := s, allSelected := false)
    case Navigated(url) => SetText(b.(url := url), url)
    case RunDeferred => RunNext(b)
  }

  predicate Runs(b: Bar, es: seq<Event>)
    decreases |es|
  {
    es == [] || (Enabled(b, es[0]) && Runs(Step(b, es[0]), es[1..]))
  }

  function Run(b: Bar, es: seq<Event>): Bar
    requires Runs(b, es)
    decreases |es|
  {
    if es == [] then b else Run(Step(b, es[0]), es[1..])
  }

  /** Running a trace and then one more event. */
  lemma {:induction false} RunAppend(b: Bar, es: seq<Event>, e: Event)
    requires Runs(b, es) && Enabled(Run(b, es), e)
    ensures Runs(b, es + [e]) && Run(b, es + [e]) == Step(Run(b, es), e)
    decreases |es|
  {
    if es == [] {
      assert [e][1..] == [];
    } else {
      assert (es + [e])[1..] == es[1..] + [e];
      RunAppend(Step(b, es[0]), es[1..], e);
    }
  }

  /** Running one event and then a trace. */
  lemma RunCons(b: Bar, e: Event, es: seq<Event>)
    requires Enabled(b, e) && Runs(Step(b, e), es)
    ensures Runs(b, [e] + es) && Run(b, [e] + es) == Run(Step(b, e), es)
  {
    assert ([e] + es)[0] == e && ([e] + es)[1..] == es;
  }

  // ---------------------------------------------------------------------------
  // Invariant: while the bar is focused its editing chrome is up
  // ---------------------------------------------------------------------------

  /**
   * While the bar has focus the cancel button shows, every toolbar item is
   * collapsed and no restoring continuation is outstanding.
   */
  predicate EditingChrome(b: Bar) {
    b.focused ==>
      && b.cancelShown
      && RestoreAfterBlur !in b.pending
      && forall i :: 0 <= i < |b.items| ==> b.items[i] == Collapsed
  }

  lemma StepKeepsEditingChrome(b: Bar, e: Event)
    requires EditingChrome(b) && Enabled(b, e)
    ensures EditingChrome(Step(b, e))
    ensures |Step(b, e).items| == |b.items|
  {
  }

  lemma {:induction false} RunKeepsEditingChrome(b: Bar, es: seq<Event>)
    requires EditingChrome(b) && Runs(b, es)
    ensures EditingChrome(Run(b, es))
    ensures |Run(b, es).items| == |b.items|
    decreases |es|
  {
    if es != [] {
      StepKeepsEditingChrome(b, es[0]);
      RunKeepsEditingChrome(Step(b, es[0]), es[1..]);
    }
  }

  // ---------------------------------------------------------------------------
  // Scenarios
  // ---------------------------------------------------------------------------

  /** The bar at rest: unfocused, empty, chrome down, placeholder showing `url`. */
  predicate Browsing(b: Bar) {
    && !b.focused && b.text == "" && b.pending == []
    && !b.cancelShown
    && b.placeholder == PlaceholderFor(Some(b.url))
    && forall i :: 0 <= i < |b.items| ==> b.items[i] == Visible
  }

  /** Navigation while the user edits leaves the bar untouched apart from the browser's URL. */
  lemma NavigationWhileEditing(b: Bar, url: string)
    requires b.focused && Enabled(b, Navigated(url))
    ensures Step(b, Navigated(url)) == b.(url := url)
  {
  }

  /** Navigation while browsing keeps the bar in sync with the new URL. */
  lemma NavigationKeepsBrowsing(b: Bar, url: string)
    requires Browsing(b)
    ensures Enabled(b, Navigated(url)) && Browsing(Step(b, Navigated(url)))
  {
  }

  /** Focus, wait out the timer: the field shows the URL, fully selected. */
  lemma FocusThenTimerFillsUrl(b: Bar)
    requires !b.focused && b.pending == [] && b.text == ""
    ensures Runs(b, [BeginEditing, RunDeferred])
    ensures var r := Run(b, [BeginEditing, RunDeferred]);
            r.focused && r.text == b.url && r.allSelected && r.placeholder == Hint &&
            r.pending == []
  {
  }

  /** Text typed before the timer fires survives it. */
  lemma TypingBeforeTimerIsKept(b: Bar, s: string)
    requires !b.focused && b.pending == [] && s != ""
    ensures Runs(b, [BeginEditing, UserTyped(s), RunDeferred])
    ensures var r := Run(b, [BeginEditing, UserTyped(s), RunDeferred]);
            r.focused && r.text == s && r.pending == []
  {
    var es := [BeginEditing, UserTyped(s), RunDeferred];
    var b1 := Step(b, BeginEditing);
    var b2 := Step(b1, UserTyped(s));
    var b3 := Step(b2, RunDeferred);
    assert es[1..] == [UserTyped(s), RunDeferred] && es[1..][1..] == [RunDeferred];
    assert b2.text == s && b2.pending == [FillAfterFocus];
    assert Runs(b3, []);
    assert Runs(b2, [RunDeferred]);
    assert Runs(b1, [UserTyped(s), RunDeferred]);
    assert Run(b2, [RunDeferred]) == b3;
    assert Run(b1, [UserTyped(s), RunDeferred]) == b3;
  }

  /**
   * Focus, let the URL fill in, blur without typing: the bar is back where
   * it was, except that the whole (now empty) range is still marked selected.
   */
  lemma EditRoundTrip(b: Bar)
    requires Browsing(b)
    ensures Runs(b, [BeginEditing, RunDeferred, EndEditing, RunDeferred])
    ensures Run(b, [BeginEditing, RunDeferred, EndEditing, RunDeferred]) == b.(allSelected := true)
  {
    var es := [BeginEditing, RunDeferred, EndEditing, RunDeferred];
    var b1 := Step(b, BeginEditing);
    var b2 := Step(b1, RunDeferred);
    var b3 := Step(b2, EndEditing);
    assert b3.pending == [RestoreAfterBlur];
    var b4 := Step(b3, RunDeferred);
    assert b4.items == b.items;
    assert es[1..] == [RunDeferred, EndEditing, RunDeferred];
    assert es[1..][1..] == [EndEditing, RunDeferred];
    assert es[1..][1..][1..] == [RunDeferred];
    assert Runs(b4, []);
  }

  /**
   * Focus, then blur before the timer, then the continuation: the field is
   * empty and unfocused, the chrome is restored, and the timer is still queued.
   */
  lemma FocusBlurContinuation(b: Bar)
    requires !b.focused && b.pending == []
    ensures Runs(b, [BeginEditing, EndEditing, RunDeferred])
    ensures var r := Run(b, [BeginEditing, EndEditing, RunDeferred]);
            && !r.focused && r.text == "" && r.pending == [FillAfterFocus]
            && !r.cancelShown && r.url == b.url
  {
    var b1 := Step(b, BeginEditing);
    assert b1.pending == [FillAfterFocus];
    var b2 := Step(b1, EndEditing);
    assert b2.pending == [FillAfterFocus, RestoreAfterBlur];
    assert NextIndex(b2.pending) == 1;
    assert RemoveFirst(b2.pending, RestoreAfterBlur) == [FillAfterFocus] by {
      assert IndexOf(b2.pending, RestoreAfterBlur) == 1;
    }
    RunCons(b2, RunDeferred, []);
    RunCons(b1, EndEditing, [RunDeferred]);
    RunCons(b, BeginEditing, [EndEditing, RunDeferred]);
  }

  /** The timer fires on an empty, unfocused field: it writes the URL in regardless. */
  lemma TimerFillsUnfocused(b: Bar)
    requires !b.focused && b.text == "" && b.pending == [FillAfterFocus] && !b.cancelShown
    ensures Enabled(b, RunDeferred)
    ensures var r := Step(b, RunDeferred);
            !r.focused && r.text == b.url && r.placeholder == Hint && !r.cancelShown &&
            r.pending == []
  {
  }

  /**
   * Blur inside the 500 ms window: the continuation restores the chrome,
   * then the timer finds the text empty and writes the URL into the field
   * although it no longer has focus. Nothing cancels the timer.
   */
  lemma BlurBeforeTimerWritesUrlUnfocused(b: Bar)
    requires !b.focused && b.pending == []
    ensures Runs(b, [BeginEditing, EndEditing, RunDeferred, RunDeferred])
    ensures var r := Run(b, [BeginEditing, EndEditing, RunDeferred, RunDeferred]);
            !r.focused && r.text == b.url && r.placeholder == Hint && !r.cancelShown &&
            r.pending == []
  {
    var blur := [BeginEditing, EndEditing, RunDeferred];
    FocusBlurContinuation(b);
    TimerFillsUnfocused(Run(b, blur));
    RunAppend(b, blur, RunDeferred);
    assert blur + [RunDeferred] == [BeginEditing, EndEditing, RunDeferred, RunDeferred];
  }

  /**
   * After that race, a navigation moves only the placeholder: the unfocused
   * field goes on holding the old URL, and when that URL is not empty its
   * text hides the new placeholder.
   */
  lemma NavigationAfterRaceKeepsOldUrl(b: Bar, url: string)
    requires !b.focused && b.pending == []
    ensures Runs(b, [BeginEditing, EndEditing, RunDeferred, RunDeferred, Navigated(url)])
    ensures var r := Run(b, [BeginEditing, EndEditing, RunDeferred, RunDeferred, Navigated(url)]);
            !r.focused && r.text == b.url && r.url == url &&
            r.placeholder == PlaceholderFor(Some(url))
  {
    var race := [BeginEditing, EndEditing, RunDeferred, RunDeferred];
    BlurBeforeTimerWritesUrlUnfocused(b);
    var b4 := Run(b, race);
    var b5 := Step(b4, Navigated(url));
    assert Runs(b5, []);
    RunAppend(b, race, Navigated(url));
    assert race + [Navigated(url)] == [BeginEditing, EndEditing, RunDeferred, RunDeferred, Navigated(url)];
  }

  /** Focus an empty field whose timer is still queued, then let that timer run. */
  lemma RefocusThenTimer(b: Bar)
    requires !b.focused && b.text == "" && b.pending == [FillAfterFocus]
    ensures Enabled(b, BeginEditing) && Enabled(Step(b, BeginEditing), RunDeferred)
    ensures var r := Step(Step(b, BeginEditing), RunDeferred);
            r.focused && r.text == b.url && r.allSelected && r.pending == [FillAfterFocus]
  {
    var b1 := Step(b, BeginEditing);
    assert b1.pending == [FillAfterFocus, FillAfterFocus] && b1.text == "";
  }

  /**
   * The same race when the old URL is empty: the timer writes an empty text,
   * so the navigation's placeholder shows.
   */
  lemma RaceWithEmptyUrlShowsPlaceholder(b: Bar, url: string)
    requires !b.focused && b.pending == [] && b.url == "" && url != ""
    ensures Runs(b, [BeginEditing, EndEditing, RunDeferred, RunDeferred, Navigated(url)])
    ensures var r := Run(b, [BeginEditing, EndEditing, RunDeferred, RunDeferred, Navigated(url)]);
            r.text == "" && r.placeholder == Styled(url)
  {
    NavigationAfterRaceKeepsOldUrl(b, url);
  }

  /**
   * Focus, blur and focus again inside the 500 ms window: the blur emptied
   * the field, so the first timer does not find typed text; it fills in the
   * URL under the second focus, and the second timer is still queued.
   */
  lemma RefocusInsideWindowFirstTimerFills(b: Bar)
    requires !b.focused && b.pending == []
    ensures Runs(b, [BeginEditing, EndEditing, RunDeferred, BeginEditing, RunDeferred])
    ensures var r := Run(b, [BeginEditing, EndEditing, RunDeferred, BeginEditing, RunDeferred]);
            r.focused && r.text == b.url && r.allSelected && r.pending == [FillAfterFocus]
  {
    var blur := [BeginEditing, EndEditing, RunDeferred];
    var refocus := blur + [BeginEditing];
    FocusBlurContinuation(b);
    RefocusThenTimer(Run(b, blur));
    RunAppend(b, blur, BeginEditing);
    RunAppend(b, refocus, RunDeferred);
    assert refocus + [RunDeferred] == [BeginEditing, EndEditing, RunDeferred, BeginEditing, RunDeferred];
  }

  /** After a blur, the restoring continuation shows the URL current when it runs. */
  lemma BlurThenRestoreShowsUrl(b: Bar)
    requires Enabled(b, EndEditing)
    ensures Runs(b, [EndEditing, RunDeferred])
    ensures var r := Run(b, [EndEditing, RunDeferred]);
            r.placeholder == PlaceholderFor(Some(b.url)) && r.text == "" && !r.focused &&
            !r.cancelShown && (forall i :: 0 <= i < |r.items| ==> r.items[i] == Visible) &&
            r.pending == b.pending
  {
  }
}
