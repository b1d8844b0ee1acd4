/**
 * The page's address bar: the browser view it drives, the iOS search-bar
 * controller with its edit handler and deferred actions, the submit
 * handler, and the navigation hook. `SetPlaceholderText`, `SetText`,
 * `EditHandler`, `BeginEditing`, `EndEditing`, `UserTyped` and `RunDeferred`
 * are proved to perform the matching function or step of `AddressBarModel`,
 * where their properties are proved. `SetItemsVisibility` and `Submit` are
 * specified directly.
 */
module AddressBar {
  import opened Wrappers
  import opened Views
  import opened Url
  import M = AddressBarModel

  /** The browsing session as the address bar sees it. */
  class BrowserView {
    var url: string           // what `getURL()` returns
    var loads: seq<string>    // every URL handed to `load`, oldest first

    constructor (url: string)
      ensures this.url == url && loads == []
    {
      this.url := url;
      loads := [];
    }

    /** `load(url)`: the request is recorded; navigation is reported later. */
    method Load(u: string)
      modifies this`loads
      ensures loads == old(loads) + [u]
    {
      loads := loads + [u];
    }

    /** The session has navigated; `getURL()` now answers `u`. */
    method Navigate(u: string)
      modifies this`url
      ensures url == u
    {
      url := u;
    }
  }

  class SearchBarController {
    var text: string
    var placeholder: M.Placeholder
    var focused: bool
    var cancelShown: bool
    var allSelected: bool
    var pending: seq<M.Deferred>
    const items: array<Visibility>   // the action bar's items
    const browser: BrowserView

    ghost function State(): M.Bar
      reads this, items, browser
    {
      M.Bar(text, placeholder, focused, cancelShown, allSelected, items[..], pending, browser.url)
    }

    /** Built when the search bar loads: the built-in cancel button starts hidden. */
    constructor (text: string, items: array<Visibility>, browser: BrowserView)
      ensures this.items == items && this.browser == browser
      ensures State() == M.Bar(text, M.Hint, false, false, false, items[..], [], browser.url)
    {
      this.text := text;
      placeholder := M.Hint;
      focused := false;
      cancelShown := false;
      allSelected := false;
      pending := [];
      this.items := items;
      this.browser := browser;
    }

    method SetPlaceholderText(t: Option<string>)
      modifies this
      ensures placeholder == M.PlaceholderFor(t)
      ensures State() == M.SetPlaceholderText(old(State()), t)
    {
      if t.Some? && t.value != "" {
        placeholder := M.Styled(t.value);
      } else {
        placeholder := M.Hint;
      }
    }

    /** Navigation sync: only the placeholder, and only while the bar is not focused. */
    method SetText(url: string)
      modifies this
      ensures text == old(text)
      ensures State() == M.SetText(old(State()), url)
    {
      if !focused {
        SetPlaceholderText(Some(url));
      }
    }

    /** Sets every action-bar item's visibility. */
    method SetItemsVisibility(v: Visibility)
      modifies items
      ensures items[..] == AllSet(items.Length, v)
    {
      for i := 0 to items.Length
        invariant forall k :: 0 <= k < i ==> items[k] == v
      {
        items[i] := v;
      }
    }

    /** The handler registered for both begin- and end-editing notifications. */
    method EditHandler()
      modifies this, items
      ensures State() == M.EditHandler(old(State()))
    {
      if focused {
        cancelShown := true;
        SetItemsVisibility(Collapsed);
        pending := pending + [M.FillAfterFocus];
      } else {
        SetPlaceholderText(Some(text));
        text := "";
        pending := pending + [M.RestoreAfterBlur];
      }
    }

    /** The bar becomes first responder and the begin-editing notification fires. */
    method BeginEditing()
      requires M.RestoreAfterBlur !in pending
      modifies this, items
      ensures State() == M.Step(old(State()), M.BeginEditing)
    {
      focused := true;
      EditHandler();
    }

    /** The bar resigns first responder and the end-editing notification fires. */
    method EndEditing()
      requires M.RestoreAfterBlur !in pending
      modifies this, items
      ensures State() == M.Step(old(State()), M.EndEditing)
    {
      focused := false;
      EditHandler();
    }

    /** The user's keystrokes replace the text (and the selection with it). */
    method UserTyped(s: string)
      requires focused && M.RestoreAfterBlur !in pending
      modifies this
      ensures State() == M.Step(old(State()), M.UserTyped(s))
    {
      text := s;
      allSelected := false;
    }

    /** The event loop runs the next deferred action: the continuation first, else a timer. */
    method RunDeferred()
      requires pending != []
      modifies this, items
      ensures State() == M.Step(old(State()), M.RunDeferred)
    {
      var i := M.NextIndex(pending);
      var action := pending[i];
      pending := pending[..i] + pending[i + 1..];
      match action
      case FillAfterFocus =>
        if text == "" {
          text := browser.url;
          SetPlaceholderText(None);
          allSelected := true;
        }
      case RestoreAfterBlur =>
        SetPlaceholderText(Some(browser.url));
        cancelShown := false;
        SetItemsVisibility(Visible);
    }

    /** The search bar's submit handler: normalise the text and load it. */
    method Submit()
      modifies browser`loads
      ensures browser.loads == old(browser.loads) + [Normalize(text)]
      ensures HasSchemePrefix(browser.loads[|browser.loads| - 1])
    {
      var u := Normalize(text);
      browser.Load(u);
    }
  }

  /** The browser view's navigation-state hook: push the current URL into the bar, if there is one. */
  method OnNavigationStateChange(browser: BrowserView, controller: SearchBarController?)
    requires controller != null ==> controller.browser == browser
    modifies controller
    ensures controller != null ==>
              controller.State() == M.SetText(old(controller.State()), browser.url)
  {
    var url := browser.url;
    if controller != null {
      controller.SetText(url);
    }
  }
}
