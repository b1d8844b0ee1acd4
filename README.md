# Argon browser page: address bar and overlay menu

A Dafny model of the logic in `app/main-page.ts` of the Argon browser app:

- **URL normaliser** (module `Url`). When the search bar is submitted, its text
  gets `http://` in front unless the anchored pattern `^[^:]+(?=://)` matches,
  and the result is lower-cased and loaded. `HasSchemePrefix` is that pattern:
  a non-empty run of non-colon characters at position 0 immediately followed by
  `://`. `HasSchemePrefixByScan` shows it is the same as "the first colon is not
  at position 0 and is followed by `//`". Lower-casing is the ASCII map
  `A`–`Z` → `a`–`z`, which approximates JavaScript's `toLowerCase`.
- **Address-bar editing state machine** (modules `AddressBarModel` and
  `AddressBar`). `AddressBarModel` describes the bar as a value `Bar`: text,
  placeholder (the hint or a styled string), focus, cancel button, whole-range
  selection, the action bar's item visibilities, the queue of deferred actions,
  and the browser's current URL. `AddressBar.SearchBarController` is a class
  with those fields and an array of item visibilities. Its methods
  `SetPlaceholderText`, `SetText`, `EditHandler`, `BeginEditing`,
  `EndEditing`, `UserTyped` and `RunDeferred` are proved to perform the
  matching function or step of the value model, and the lemmas about the
  value model state what they guarantee. `SetItemsVisibility` and `Submit`
  carry their own contracts.
  - One handler serves both begin- and end-editing. It branches on the focus
    flag at the moment it runs.
  - Deferred actions are queued, not timed, and never cancelled. One is the
    500 ms fill after focus. The other is the promise continuation after blur.
    The continuation is a microtask, so the event loop runs it before any timer
    and before the next user or browser event. `NextIndex` picks the queued
    continuation first. `Enabled` lets no external event happen while a
    continuation is queued.
  - Under those rules, the focused bar always shows its editing chrome
    (`RunKeepsEditingChrome`). A blur inside the 500 ms window leaves the timer
    queued. The timer then writes the browser URL into the text of an
    unfocused field (`BlurBeforeTimerWritesUrlUnfocused`). A later navigation
    then moves only the placeholder, which that text hides when the URL is not
    empty (`NavigationAfterRaceKeepsOldUrl`); when it is empty, the new
    placeholder shows (`RaceWithEmptyUrlShowsPlaceholder`). This is how the
    code behaves; the model keeps it.
- **Navigation sync** (`AddressBar.OnNavigationStateChange`). The browser's
  navigation hook hands the current URL to `setText`. `setText` touches only
  the placeholder, and only while the bar is not focused.
- **Overlay menu** (module `Menu`). `MenuLoaded` sets origin (1, 0) and scale
  (0, 0). `MenuButtonClicked` handles a visible menu by setting the scale
  target to (0, 0) and queueing a collapse. That collapse happens in a separate
  step, `CollapseAnimationCompleted`. A collapsed menu is removed from its
  parent's children and put back in at index 0 (`MoveToFirst`), which the
  source's comment intends to render it above the other views; the layout's
  drawing order is not part of this model. It is then made
  visible with scale target (1, 1).

The model follows the code, including where it behaves differently from what one might expect:

- The scheme test is anchored at position 0, and its run may not contain a
  colon. So `a:b://c` and `://x` both get `http://` in front
  (`NormalizeColonBeforeScheme`, `NormalizeEmptyScheme`). Text that merely
  contains `://` somewhere is not treated as having a scheme.
- Ending an edit does not load anything. A URL is loaded only on submit
  (`SearchBarController.Submit`); the blur clears the text.
- The text may hold the session URL while the bar is focused (the fill after
  focus) and even while it is unfocused (the race above).
- Focusing again inside the 500 ms window does not make the first timer do
  nothing: the blur emptied the field, so that timer fills in the URL under
  the second focus (`RefocusInsideWindowFirstTimerFills`).

## Model

| member | source | states |
|---|---|---|
| `Url.LowerChar` | app/main-page.ts:73 | an upper-case ASCII letter becomes the lower-case letter at the same position of the alphabet; every other character is unchanged; the result is never upper-case, and is a colon exactly when the input is |
| `Url.ToLower` | app/main-page.ts:73 | lower-casing keeps the length and maps every character by `LowerChar` |
| `Url.HasSchemePrefix` | app/main-page.ts:69 | the anchored pattern: a non-empty run without colons at position 0, then `://`; a match needs a colon and at least four characters |
| `Url.Normalize` | app/main-page.ts:68-73 | `http://` is put in front unless the text has a scheme prefix, then everything is lower-cased; the result always has a scheme prefix |
| `Url.HasSchemePrefixByScan` | app/main-page.ts:69-70 | the pattern matches exactly when the first colon exists, is not at position 0, and is followed by `//` |
| `Url.ToLowerKeepsScheme` | app/main-page.ts:69-73 | lower-casing neither creates nor destroys a scheme prefix |
| `Url.SchemePrefixExtends` | app/main-page.ts:69 | text appended after a scheme prefix leaves the prefix in place |
| `Url.NormalizeWithScheme` | app/main-page.ts:69-73 | text that starts with a scheme is lower-cased piece by piece, with nothing put in front |
| `Url.NormalizeCases` | app/main-page.ts:68-73 | text with a scheme prefix is only lower-cased; any other text becomes `http://` followed by the lower-cased text |
| `Url.NormalizeIsLowerCase` | app/main-page.ts:73 | every loaded URL is free of upper-case ASCII letters |
| `Url.NormalizeIdempotent` | app/main-page.ts:69-73 | normalising a normalised URL changes nothing |
| `Url.NormalizeEndsWithInput` | app/main-page.ts:70-73 | the result is the lower-cased input, possibly with seven characters in front |
| `Url.NormalizeBareHost` | app/main-page.ts:69-73 | `example.com` loads as `http://example.com` |
| `Url.NormalizeKeepsScheme` | app/main-page.ts:69-73 | `HTTPS://Example.com` loads as `https://example.com` |
| `Url.NormalizeColonBeforeScheme` | app/main-page.ts:69-71 | `a:b://c` gets `http://` in front: a colon before `://` defeats the match |
| `Url.NormalizeEmptyScheme` | app/main-page.ts:69-71 | `://x` gets `http://` in front: the scheme run must be non-empty |
| `AddressBarModel.PlaceholderFor` | app/main-page.ts:145-152 | a non-empty string becomes the styled placeholder; an empty string or null gives the hint |
| `AddressBarModel.SetPlaceholderText` | app/main-page.ts:145-152 | the placeholder becomes `PlaceholderFor(t)`; text, focus, cancel button, selection, items and queue are unchanged |
| `AddressBarModel.SetText` | app/main-page.ts:155-159 | nothing changes while focused; unfocused, only the placeholder changes, to the URL or the hint |
| `AddressBarModel.EditHandler` | app/main-page.ts:110-139 | on focus: cancel button shown, every item collapsed, item count kept, text and placeholder kept, exactly one fill queued; on blur: placeholder from the pre-blur text (or hint), text emptied, exactly one continuation queued |
| `AddressBarModel.RunAction` | app/main-page.ts:120-137 | the fill acts only on empty text: text becomes the URL, placeholder the hint, whole range selected, otherwise nothing changes, focused or not; the continuation shows the URL (or hint) as placeholder, hides the cancel button and shows every item |
| `AddressBarModel.NextIndex` | app/main-page.ts:120-130 | a queued promise continuation runs before any queued timer |
| `AddressBarModel.RunNext` | app/main-page.ts:120-137 | a queued continuation runs (and leaves the queue) before any timer: placeholder from the URL, cancel hidden, items visible, text and selection kept; otherwise the oldest timer runs, filling in the URL (hint placeholder, all selected, chrome kept) only when the text is empty, and changing nothing else otherwise |
| `AddressBarModel.Enabled` | app/main-page.ts:130 | no user or browser event happens while the promise continuation is queued; typing needs focus |
| `AddressBarModel.Step` | app/main-page.ts:141-142 | begin-editing leaves the bar focused, end-editing unfocused and empty; typing sets the text; a navigation changes the browser URL and never the text; the item count is kept |
| `AddressBarModel.StepKeepsEditingChrome` | app/main-page.ts:110-137 | every event keeps "focused implies cancel button shown, all items collapsed, no continuation queued", and keeps the item count |
| `AddressBarModel.RunKeepsEditingChrome` | app/main-page.ts:110-159 | the same along every sequence of focus, blur, typing, navigation and deferred-action events |
| `AddressBarModel.NavigationWhileEditing` | app/main-page.ts:42-47 | a navigation while the bar is focused changes nothing in the bar |
| `AddressBarModel.NavigationKeepsBrowsing` | app/main-page.ts:155-159 | a navigation while browsing leaves the bar browsing, with the new URL as placeholder |
| `AddressBarModel.FocusThenTimerFillsUrl` | app/main-page.ts:120-126 | focus then the timer: the field holds the URL, wholly selected, placeholder the hint |
| `AddressBarModel.TypingBeforeTimerIsKept` | app/main-page.ts:120-121 | text typed before the timer fires is kept |
| `AddressBarModel.EditRoundTrip` | app/main-page.ts:110-137 | focus, timer, blur, continuation brings a browsing bar back to its state, except that the range stays marked selected |
| `AddressBarModel.BlurBeforeTimerWritesUrlUnfocused` | app/main-page.ts:120-130 | focus then blur before the timer: after both deferred actions the unfocused field holds the URL |
| `AddressBarModel.NavigationAfterRaceKeepsOldUrl` | app/main-page.ts:155-159 | after that race a navigation moves only the placeholder; the unfocused text keeps the old URL |
| `AddressBarModel.RaceWithEmptyUrlShowsPlaceholder` | app/main-page.ts:155-159 | when the old URL is empty, the same race leaves the text empty, so the navigation's styled placeholder shows |
| `AddressBarModel.RefocusInsideWindowFirstTimerFills` | app/main-page.ts:120-129 | focus, blur, focus again inside the window: the first timer finds the emptied field and fills in the URL, and the second timer stays queued |
| `AddressBarModel.BlurThenRestoreShowsUrl` | app/main-page.ts:127-137 | after a blur and its continuation the placeholder shows the URL current when the continuation ran, text empty, cancel hidden, items visible |
| `AddressBar.BrowserView.Load` | app/main-page.ts:75 | the requested URL is appended to the load log |
| `AddressBar.SearchBarController.constructor` | app/main-page.ts:97-101 | the controller starts unfocused with the cancel button hidden and nothing queued |
| `AddressBar.SearchBarController.SetPlaceholderText` | app/main-page.ts:145-152 | the controller's state moves as `AddressBarModel.SetPlaceholderText` says |
| `AddressBar.SearchBarController.SetText` | app/main-page.ts:155-159 | the text is never changed; the state moves as `AddressBarModel.SetText` says |
| `AddressBar.SearchBarController.SetItemsVisibility` | app/main-page.ts:116-119 | every action-bar item gets the given visibility |
| `AddressBar.SearchBarController.EditHandler` | app/main-page.ts:110-139 | the state moves as `AddressBarModel.EditHandler` says |
| `AddressBar.SearchBarController.BeginEditing` | app/main-page.ts:141 | focus is gained and the handler runs |
| `AddressBar.SearchBarController.EndEditing` | app/main-page.ts:142 | focus is lost and the same handler runs |
| `AddressBar.SearchBarController.RunDeferred` | app/main-page.ts:120-137 | the next queued action leaves the queue and runs as `AddressBarModel.RunAction` says |
| `AddressBar.SearchBarController.Submit` | app/main-page.ts:67-76 | the normalised text, which has a scheme prefix, is handed to `load` |
| `AddressBar.OnNavigationStateChange` | app/main-page.ts:42-47 | the browser's current URL goes to `setText` when a controller exists |
| `Menu.MoveToFirst` | app/main-page.ts:173-175 | the menu ends at index 0, the count is unchanged, and the other children keep their relative order |
| `Menu.MoveToFirstIsPermutation` | app/main-page.ts:173-175 | no child is lost or gained |
| `Menu.MoveToFirstIdempotent` | app/main-page.ts:173-175 | moving a menu that is already at index 0 changes nothing |
| `Menu.Layout.RemoveView` | app/main-page.ts:174 | the first occurrence of the child leaves the list |
| `Menu.Layout.AddView` | app/main-page.ts:175 | the child is inserted at the index |
| `Menu.MenuView.CollapseAnimationCompleted` | app/main-page.ts:170 | the scale-down's continuation collapses the menu |
| `Menu.MenuLoaded` | app/main-page.ts:84-90 | origin (1, 0) and scale (0, 0) |
| `Menu.MenuButtonClicked` | app/main-page.ts:163-183 | visible: scale target (0, 0) and one collapse queued, still visible; collapsed: re-inserted at index 0 of the parent's children, visible, scale target (1, 1) |
| `Menu.ToggleTwice` | app/main-page.ts:163-183 | open, close and complete the animation: collapsed at scale (0, 0), at index 0 of the parent's children |

## Left out

- Argon and Vuforia start-up, the service container and service imports: foreign-library bootstrap.
- Page background colour, the browser view's construction and the layout refresh workaround: platform plumbing.
- Native styling: keyboard type, autocapitalisation, bar style, icon image, left view mode, the cancel button's title colour and the placeholder's colour attributes. Only the placeholder string is kept.
- Real time and animation: the 500 ms and 150 ms delays, interpolation, and scales as floats. Deferred actions are queued steps, and scales are their 0/1 targets.
- Logging, and the network effect of `load`: a load is only recorded.
- The empty click handlers for new channel, bookmarks, history and settings: they have no body.
- `Url.LowerChar`: maps only ASCII `A`–`Z`, where JavaScript's `toLowerCase` maps all of Unicode.
- `AddressBar.SearchBarController.Submit`: reads the same `text` field that the controller writes. The submit handler reads the NativeScript view's `searchBar.text` (line 68), while the controller reads and writes the native `uiSearchBar.text` (lines 121-122, 128-129). The model takes the two to be one field. It does not model when the view's copy follows the native one, nor the order of a submit relative to the end-editing handler.
- `AddressBar.BrowserView.Navigate` and `AddressBar.SearchBarController.UserTyped` stand for the browser and the keyboard. Typing is assumed to collapse the selection.
- Clearing the text (line 129) is not modelled as dropping the selection.
- A search bar whose text is null, and non-iOS platforms: the controller exists only on iOS, so `OnNavigationStateChange` then does nothing.
- Overlapping menu animations: each queued scale-down is assumed to run its completion. A newer animation that interrupts an older one is not modelled.
