# Theme preference of the blog's global script

The blog's global script keeps a light/dark preference in the browser's
`localStorage` under the key `"theme"` and shows it as a class on
`document.body`. It has three entry points:

- `loadTheme` (run on page load) stores `"light"` when nothing is stored and
  then applies the stored value;
- `applyTheme` adds the stored value as a body class and removes `"light"`
  when `"dark"` is stored, `"dark"` otherwise;
- `toggleTheme` (run on a click) stores `"dark"` after `"light"` and
  `"light"` after anything else, adds the marker class `"toggled"`, applies,
  and dispatches one `theme-toggled` event on the document.

This project models that state machine and proves what it promises.

- `dom.dfy` (module `Dom`) holds the browser behaviour the script relies on.
  The store is a `map<string, string>` read through `GetItem`, which answers
  `None` for a missing key, as `getItem` answers `null`. The class list is a
  `set<string>`. `add` and `remove` check each token first: an empty token
  raises a SyntaxError and a token containing ASCII whitespace raises an
  InvalidCharacterError, as the DOM standard's `DOMTokenList` requires. A
  missing value passed to `add` becomes the token `"null"`.
- `theme.dfy` (module `Theme`) states the three entry points as functions on
  a `Page` value: the storage, the body classes and the log of dispatched
  events. `Run` replays any sequence of entry points. The lemmas there state
  properties of single calls and of whole sequences.
- `theme_manager.dfy` (module `ThemeManager`) is the script as it runs. The
  class `ThemedPage` has the storage, the body class set and the event log as
  fields. Its methods `LoadTheme`, `ApplyTheme` and `ToggleTheme` update those
  fields in place, as the JavaScript does. Each method is proved equal to the
  matching function of `Theme`. `Theme.RunAppend` shows that `Run` grows one
  entry point at a time, so calling the methods one after another ends in
  the state `Run` describes, and the lemmas about `Run` apply to it.

Behaviour of the code that the model keeps as it is:

- `applyTheme` adds whatever value is stored, so `"light"` becomes a class
  too, not only `"dark"`.
- Nothing in the code limits the stored value to `"light"` or `"dark"`. A
  value such as `"blue"` that was already stored survives `loadTheme` and
  becomes a body class (`LoadKeepsUnknownValue`). Only the first
  `toggleTheme` brings the value back to `"light"`.
- Storage failures are not handled (see "Left out").

## Model

| member | source | states |
|---|---|---|
| Dom.GetItem | assets/js/global.js:2 | the read answers None exactly when the key is missing, and the stored string otherwise |
| Dom.TokenOf | assets/js/global.js:16 | a stored string is passed on as it is; a missing value becomes the token "null" |
| Dom.Add | assets/js/global.js:13 | the outcome is TokenCheck of the token; when it completes the token is added to the classes, when it throws the classes are unchanged |
| Dom.Remove | assets/js/global.js:14 | the outcome is TokenCheck of the token; when it completes the token is removed from the classes, when it throws the classes are unchanged |
| Dom.TokenCheck | assets/js/global.js:13-17 | the class list accepts a token exactly when it is non-empty and has no ASCII whitespace; an empty token is a SyntaxError |
| Theme.Apply | assets/js/global.js:10-19 | storage and events are unchanged; it throws exactly when the stored value (or "null") is not a valid token, and then nothing changes; with "dark" stored the classes contain "dark" and not "light"; with any other value v (or "null" when absent) they contain v and not "dark"; no other class changes |
| Theme.Load | assets/js/global.js:1-8 | the key is present afterwards; a missing key is set to "light" with every other key kept, a present value is left unchanged; then apply runs on the resulting value: it throws exactly when that value is not a valid token, leaving the classes unchanged; "dark" gives "dark" without "light", any other value v gives v without "dark", and no other class changes; with nothing stored or a known theme stored it completes and the body shows the theme; no event is dispatched |
| Theme.NextTheme | assets/js/global.js:22-28 | the stored result is "dark" exactly when the prior value was "light", and "light" for every other prior value, including "dark", an unknown value or none |
| Theme.Toggle | assets/js/global.js:21-36 | never throws; stores NextTheme of the prior value and changes no other key; "toggled" is a class afterwards and no class other than "toggled", "light" and "dark" changes; exactly one "theme-toggled" event is appended; the stored theme is light or dark and the body shows it |
| Theme.ApplyIdempotent | assets/js/global.js:10-19 | applying twice gives the same page and outcome as applying once |
| Theme.ApplyKnownSyncs | assets/js/global.js:10-19 | with "light" or "dark" stored, apply never throws and the body then shows the stored theme and not the other one |
| Theme.ApplyWithoutKeyAddsNull | assets/js/global.js:11-17 | with no value stored, apply adds the token "null" and removes "dark" |
| Theme.ApplyRejectsInvalidTokens | assets/js/global.js:13-16 | a stored "" makes apply throw a SyntaxError, a stored "light dark" an InvalidCharacterError, and the page is unchanged |
| Theme.LoadKeepsUnknownValue | assets/js/global.js:2-17 | a stored "blue" is kept by load, becomes a class, and "dark" is removed |
| Theme.ToggleTwiceRestores | assets/js/global.js:24-35 | from "light" or "dark", two toggles restore the whole storage, leave the body showing it and dispatch two events |
| Theme.RunKeepsKnownTheme | assets/js/global.js:1-36 | once the stored value is "light" or "dark", any sequence of the three entry points keeps it so |
| Theme.RunKeepsInSync | assets/js/global.js:10-32 | once the body shows the stored value, known or not, it keeps showing the stored value after any sequence of entry points |
| Theme.RunKeepsOtherClasses | assets/js/global.js:13-30 | from a known stored theme, no sequence of entry points adds or removes a body class other than "toggled", "light" and "dark" |
| Theme.RunAppend | assets/js/global.js:1-36 | running a sequence and then one more entry point gives the same page as running the longer sequence |
| Theme.LoadReturningVisit | assets/js/global.js:1-8 | with a value already stored, load writes nothing and is exactly apply |
| Theme.ApplyKeepsInSync | assets/js/global.js:10-19 | a body that shows the stored value, whatever it is, still shows it after apply |
| Theme.RunThemeParity | assets/js/global.js:24-28 | from a known theme, the stored theme after any sequence is the start theme when the number of toggles is even and the other theme when it is odd |
| Theme.RunKeepsOtherKeys | assets/js/global.js:4-27 | no sequence of entry points changes a storage key other than "theme" |
| Theme.RunKeepsToggledMarker | assets/js/global.js:13-30 | once "toggled" is a body class, no sequence of entry points removes it |
| Theme.RunDispatchesOnePerToggle | assets/js/global.js:34-35 | the event log grows by exactly one "theme-toggled" per toggle and by nothing else |
| Theme.FirstVisit | assets/js/global.js:1-8 | with nothing stored, load stores "light" and shows it; afterwards any sequence keeps the value "light" or "dark" with the body showing it |
| ThemeManager.ThemedPage.ClassListAdd | assets/js/global.js:13 | adds the token to the body classes when it is valid, otherwise throws and changes nothing |
| ThemeManager.ThemedPage.ClassListRemove | assets/js/global.js:14 | removes the token from the body classes when it is valid, otherwise throws and changes nothing |
| ThemeManager.ThemedPage.ApplyTheme | assets/js/global.js:10-19 | changes only the body classes, exactly as Theme.Apply; "dark" stored gives "dark" without "light", any other value v gives v without "dark" |
| ThemeManager.ThemedPage.LoadTheme | assets/js/global.js:1-8 | exactly as Theme.Load; the key is present afterwards, set to "light" if it was missing and untouched otherwise |
| ThemeManager.ThemedPage.ToggleTheme | assets/js/global.js:21-36 | exactly as Theme.Toggle; stores NextTheme, adds "toggled", shows the new theme, appends one "theme-toggled" event, never throws |

## Left out

- assets/js/code.js is not part of this model. It builds DOM elements, calls an external highlighter and writes to the clipboard asynchronously; none of that is stateable logic.
- assets/js/disqus.js is not part of this model. It injects a third-party embed script and resets it after a timer; it depends on timing and on a library that cannot be seen.
- Event delivery: `dispatchEvent` is modelled only as appending the event name to a log; listeners and their effects are not modelled.
- Storage failures (storage unavailable, quota errors): the code does not handle them, so they are not modelled.
- The top-level `loadTheme();` call (assets/js/global.js:38) is page-load wiring and runs once per document. `Theme.FirstVisit` states what it leads to on a first visit. The client method `FirstVisitThenToggle` shows a reload as a new document over the kept storage.
- The model assumes `document.body` exists. If the script runs before the body is parsed, the class-list calls (assets/js/global.js:13-17, 30) throw a TypeError; that case is not modelled.
- Order and duplicates in `classList`: the body's class list is modelled as a set, so token order is not captured.
