/** The global script as it runs: the browser's storage, the class list of
    `document.body` and the document's dispatched events are fields that
    the three entry points update in place. Each method is proved to do
    what the matching function of module Theme describes, so the lemmas
    there apply to any sequence of calls. */
module ThemeManager {
  import opened Dom
  import opened Theme

  class ThemedPage {
    var storage: Storage
    var bodyClasses: ClassSet
    var dispatched: seq<string>

    /** The current state as a value of module Theme. */
    function Snapshot(): Page
      reads this
    {
      Page(storage, bodyClasses, dispatched)
    }

    /** A page whose storage and body classes are given and on which no
        event has been dispatched yet. */
    constructor (initialStorage: Storage, initialClasses: ClassSet)
      ensures storage == initialStorage && bodyClasses == initialClasses && dispatched == []
    {
      storage := initialStorage;
      bodyClasses := initialClasses;
      dispatched := [];
    }

    /** `document.body.classList.add(token)`. */
    method ClassListAdd(token: string) returns (outcome: Outcome)
      modifies this`bodyClasses
      ensures Mutation(bodyClasses, outcome) == Add(old(bodyClasses), token)
    {
      outcome := TokenCheck(token);
      if outcome == Completed {
        bodyClasses := bodyClasses + {token};
      }
    }

    /** `document.body.classList.remove(token)`. */
    method ClassListRemove(token: string) returns (outcome: Outcome)
      modifies this`bodyClasses
      ensures Mutation(bodyClasses, outcome) == Remove(old(bodyClasses), token)
    {
      outcome := TokenCheck(token);
      if outcome == Completed {
        bodyClasses := bodyClasses - {token};
      }
    }

    /** `applyTheme`: only the body's classes change. */
    method ApplyTheme() returns (outcome: Outcome)
      modifies this`bodyClasses
      ensures Step(Snapshot(), outcome) == Apply(old(Snapshot()))
      ensures outcome == Completed && GetItem(storage, ThemeKey) == Some(Dark) ==>
        Dark in bodyClasses && Light !in bodyClasses
      ensures outcome == Completed && GetItem(storage, ThemeKey) != Some(Dark) ==>
        TokenOf(GetItem(storage, ThemeKey)) in bodyClasses && Dark !in bodyClasses
    {
      var currentTheme := GetItem(storage, ThemeKey);
      if currentTheme == Some(Dark) {
        outcome := ClassListAdd(TokenOf(currentTheme));
        if outcome == Completed {
          outcome := ClassListRemove(Light);
        }
      } else {
        outcome := ClassListAdd(TokenOf(currentTheme));
        if outcome == Completed {
          outcome := ClassListRemove(Dark);
        }
      }
    }

    /** `loadTheme`: the "theme" key is present afterwards; it holds
        "light" if it was missing and is untouched otherwise. */
    method LoadTheme() returns (outcome: Outcome)
      modifies this`storage, this`bodyClasses
      ensures Step(Snapshot(), outcome) == Load(old(Snapshot()))
      ensures ThemeKey in storage
      ensures ThemeKey !in old(storage) ==> storage == old(storage)[ThemeKey := Light] && outcome == Completed
      ensures ThemeKey in old(storage) ==> storage == old(storage)
    {
      var currentTheme := GetItem(storage, ThemeKey);
      if currentTheme == None {
        storage := storage[ThemeKey := Light];
      }
      outcome := ApplyTheme();
    }

    /** `toggleTheme`: stores "dark" after "light" and "light" after any
        other value or none, marks the body "toggled", shows the new theme
        and dispatches exactly one "theme-toggled" event. It never throws. */
    method ToggleTheme() returns (outcome: Outcome)
      modifies this
      ensures Step(Snapshot(), outcome) == Toggle(old(Snapshot()))
      ensures outcome == Completed
      ensures ThemeKey in storage && storage[ThemeKey] == NextTheme(GetItem(old(storage), ThemeKey))
      ensures ToggledClass in bodyClasses && InSync(Snapshot())
      ensures dispatched == old(dispatched) + [ThemeToggled]
    {
      var theme := GetItem(storage, ThemeKey);
      if theme == Some(Light) {
        storage := storage[ThemeKey := Dark];
      } else {
        storage := storage[ThemeKey := Light];
      }
      outcome := ClassListAdd(ToggledClass);
      if outcome == Completed {
        outcome := ApplyTheme();
        if outcome == Completed {
          dispatched := dispatched + [ThemeToggled];
        }
      }
    }
  }

  /** A first visit and a toggle, then a reload: the reload is a new
      document over the same storage, with fresh body classes and no
      events, on which `loadTheme` runs once. */
  method FirstVisitThenToggle()
  {
    var page := new ThemedPage(map[], {});
    var outcome := page.LoadTheme();
    assert page.storage[ThemeKey] == Light && Light in page.bodyClasses;
    outcome := page.ToggleTheme();
    assert page.storage[ThemeKey] == Dark && Dark in page.bodyClasses && Light !in page.bodyClasses;
    assert |page.dispatched| == 1;
    var reloaded := new ThemedPage(page.storage, {});
    outcome := reloaded.LoadTheme();
    assert outcome == Completed && reloaded.storage[ThemeKey] == Dark;
    assert Dark in reloaded.bodyClasses && Light !in reloaded.bodyClasses && ToggledClass !in reloaded.bodyClasses;
  }
}
