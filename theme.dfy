/** The theme-preference state machine of the blog's global script, on
    values: a page is its storage, the class set of `document.body` and the
    log of events dispatched on the document. Each function below is one of
    the script's three entry points; the lemmas state what the script
    promises about them and about any sequence of them. */
module Theme {
  import opened Dom

  const ThemeKey: string := "theme"
  const Light: string := "light"
  const Dark: string := "dark"
  const ToggledClass: string := "toggled"
  const ThemeToggled: string := "theme-toggled"

  datatype Page = Page(storage: Storage, classes: ClassSet, events: seq<string>)

  /** The page after one entry point ran, and whether it threw. */
  datatype Step = Step(page: Page, outcome: Outcome)

  function StoredTheme(p: Page): Option<string>
  {
    GetItem(p.storage, ThemeKey)
  }

  /** The class `applyTheme` removes for a given stored value. */
  function Counterpart(stored: Option<string>): string
  {
    if stored == Some(Dark) then Light else Dark
  }

  /** The stored value is one of the two known themes. */
  predicate KnownTheme(p: Page)
  {
    ThemeKey in p.storage && p.storage[ThemeKey] in {Light, Dark}
  }

  /** The body shows the stored theme: its class is present and the class
      `applyTheme` would remove for it is absent. */
  predicate InSync(p: Page)
  {
    ThemeKey in p.storage && p.storage[ThemeKey] in p.classes
    && Counterpart(StoredTheme(p)) !in p.classes
  }

  /** `applyTheme`: add the stored value (the token "null" when nothing is
      stored) as a class, then remove "light" if "dark" is stored and
      "dark" otherwise. An invalid token makes `add` throw before anything
      changes. */
  function Apply(p: Page): (r: Step)
    ensures r.page.storage == p.storage && r.page.events == p.events
    ensures r.outcome == TokenCheck(TokenOf(StoredTheme(p)))
    ensures r.outcome.Threw? ==> r.page == p
    ensures r.outcome == Completed && StoredTheme(p) == Some(Dark) ==>
      Dark in r.page.classes && Light !in r.page.classes
    ensures r.outcome == Completed && StoredTheme(p) != Some(Dark) ==>
      TokenOf(StoredTheme(p)) in r.page.classes && Dark !in r.page.classes
    ensures forall c :: c != TokenOf(StoredTheme(p)) && c != Counterpart(StoredTheme(p)) ==>
      (c in r.page.classes <==> c in p.classes)
  {
    var current := StoredTheme(p);
    var added := Add(p.classes, TokenOf(current));
    if added.outcome.Threw? then
      Step(p, added.outcome)
    else
      var removed := Remove(added.classes, Counterpart(current));
      Step(p.(classes := removed.classes), removed.outcome)
  }

  /** `loadTheme`: store "light" when the key is missing, then apply. */
  function Load(p: Page): (r: Step)
    ensures ThemeKey in r.page.storage
    ensures ThemeKey !in p.storage ==> r.page.storage == p.storage[ThemeKey := Light]
    ensures ThemeKey in p.storage ==> r.page.storage == p.storage
    ensures ThemeKey !in p.storage ==> r.outcome == Completed && InSync(r.page)
    ensures KnownTheme(p) ==> r.outcome == Completed && InSync(r.page)
    ensures r.outcome == TokenCheck(TokenOf(StoredTheme(r.page)))
    ensures r.outcome.Threw? ==> r.page.classes == p.classes
    ensures r.outcome == Completed && StoredTheme(r.page) == Some(Dark) ==>
      Dark in r.page.classes && Light !in r.page.classes
    ensures r.outcome == Completed && StoredTheme(r.page) != Some(Dark) ==>
      TokenOf(StoredTheme(r.page)) in r.page.classes && Dark !in r.page.classes
    ensures forall c :: c != TokenOf(StoredTheme(r.page)) && c != Counterpart(StoredTheme(r.page)) ==>
      (c in r.page.classes <==> c in p.classes)
    ensures r.page.events == p.events
  {
    var current := StoredTheme(p);
    var store := if current == None then p.storage[ThemeKey := Light] else p.storage;
    Apply(p.(storage := store))
  }

  /** The value `toggleTheme` stores for a given prior value. */
  function NextTheme(stored: Option<string>): (r: string)
    ensures r == Dark <==> stored == Some(Light)
    ensures r == Light <==> stored != Some(Light)
  {
    if stored == Some(Light) then Dark else Light
  }

  /** `toggleTheme`: store the next theme, add the "toggled" marker, apply,
      and dispatch one "theme-toggled" event; each of the two class-list
      steps would abort the rest if it threw. */
  function Toggle(p: Page): (r: Step)
    ensures r.outcome == Completed
    ensures ThemeKey in r.page.storage && r.page.storage[ThemeKey] == NextTheme(StoredTheme(p))
    ensures r.page.storage - {ThemeKey} == p.storage - {ThemeKey}
    ensures ToggledClass in r.page.classes
    ensures forall c :: c != ToggledClass && c != Light && c != Dark ==>
      (c in r.page.classes <==> c in p.classes)
    ensures r.page.events == p.events + [ThemeToggled]
    ensures KnownTheme(r.page) && InSync(r.page)
  {
    var store := p.storage[ThemeKey := NextTheme(StoredTheme(p))];
    var marked := Add(p.classes, ToggledClass);
    if marked.outcome.Threw? then
      Step(p.(storage := store), marked.outcome)
    else
      var applied := Apply(Page(store, marked.classes, p.events));
      if applied.outcome.Threw? then
        applied
      else
        Step(applied.page.(events := applied.page.events + [ThemeToggled]), Completed)
  }

  /** An entry point of the script, invoked by page load or a click. */
  datatype Action = LoadTheme | ApplyTheme | ToggleTheme

  function Perform(p: Page, a: Action): Step
  {
    match a
    case LoadTheme => Load(p)
    case ApplyTheme => Apply(p)
    case ToggleTheme => Toggle(p)
  }

  /** Runs the actions in order. An exception ends only the handler that
      threw, so the next action starts from whatever state it left. */
  function Run(p: Page, actions: seq<Action>): Page
    decreases |actions|
  {
    if actions == [] then p else Run(Perform(p, actions[0]).page, actions[1..])
  }

  function CountToggles(actions: seq<Action>): nat
  {
    if actions == [] then 0
    else (if actions[0] == ToggleTheme then 1 else 0) + CountToggles(actions[1..])
  }

  // Single entry points

  /** `applyTheme` twice is `applyTheme` once: same classes, same outcome. */
  lemma ApplyIdempotent(p: Page)
    ensures Apply(Apply(p).page) == Apply(p)
  {
  }

  /** On a known theme `applyTheme` never throws and leaves the body in
      sync with storage. */
  lemma ApplyKnownSyncs(p: Page)
    requires KnownTheme(p)
    ensures Apply(p).outcome == Completed
    ensures InSync(Apply(p).page) && KnownTheme(Apply(p).page)
  {
  }

  /** With nothing stored, `applyTheme` adds the token "null" and removes
      "dark". */
  lemma ApplyWithoutKeyAddsNull(p: Page)
    requires ThemeKey !in p.storage
    ensures Apply(p).outcome == Completed
    ensures Apply(p).page.classes == p.classes + {"null"} - {Dark}
  {
  }

  /** A stored value the class list refuses makes `applyTheme` throw and
      change nothing: the empty string is a SyntaxError, a value with a
      space in it an InvalidCharacterError. */
  lemma ApplyRejectsInvalidTokens(p: Page)
    requires StoredTheme(p) == Some("") || StoredTheme(p) == Some("light dark")
    ensures Apply(p).page == p
    ensures StoredTheme(p) == Some("") ==> Apply(p).outcome == Threw(SyntaxError)
    ensures StoredTheme(p) == Some("light dark") ==> Apply(p).outcome == Threw(InvalidCharacterError)
  {
    if StoredTheme(p) == Some("light dark") {
      assert IsAsciiWhitespace("light dark"[5]);
    }
  }

  /** On a return visit `loadTheme` writes nothing and is exactly
      `applyTheme`. */
  lemma LoadReturningVisit(p: Page)
    requires ThemeKey in p.storage
    ensures Load(p) == Apply(p)
  {
  }

  /** A body that shows the stored value keeps showing it after
      `applyTheme`, whatever the value is. */
  lemma ApplyKeepsInSync(p: Page)
    requires InSync(p)
    ensures InSync(Apply(p).page)
  {
  }

  /** An unknown stored value is kept by `loadTheme`, becomes a class, and
      "dark" is removed. */
  lemma LoadKeepsUnknownValue(p: Page)
    requires StoredTheme(p) == Some("blue")
    ensures Load(p).outcome == Completed
    ensures Load(p).page.storage == p.storage
    ensures Load(p).page.classes == p.classes + {"blue"} - {Dark}
  {
  }

  /** Two toggles restore a known stored theme and leave the body showing
      it; they dispatch two events. */
  lemma ToggleTwiceRestores(p: Page)
    requires KnownTheme(p)
    ensures Toggle(Toggle(p).page).page.storage == p.storage
    ensures InSync(Toggle(Toggle(p).page).page)
    ensures Toggle(Toggle(p).page).page.events == p.events + [ThemeToggled, ThemeToggled]
  {
  }

  // Sequences of entry points

  /** A known stored theme stays known whatever the script does. */
  lemma {:induction false} RunKeepsKnownTheme(p: Page, actions: seq<Action>)
    requires KnownTheme(p)
    ensures KnownTheme(Run(p, actions))
    decreases |actions|
  {
    if actions != [] {
      var next := Perform(p, actions[0]).page;
      if actions[0] != ToggleTheme {
        ApplyKnownSyncs(p);
      }
      RunKeepsKnownTheme(next, actions[1..]);
    }
  }

  /** Once the body shows the stored value, it keeps showing the stored
      value, known theme or not. */
  lemma {:induction false} RunKeepsInSync(p: Page, actions: seq<Action>)
    requires InSync(p)
    ensures InSync(Run(p, actions))
    decreases |actions|
  {
    if actions != [] {
      var next := Perform(p, actions[0]).page;
      if actions[0] != ToggleTheme {
        ApplyKeepsInSync(p);
      }
      RunKeepsInSync(next, actions[1..]);
    }
  }

  /** The stored theme after any actions is the start theme flipped once per
      toggle: it alternates strictly between "light" and "dark". */
  lemma {:induction false} RunThemeParity(p: Page, actions: seq<Action>)
    requires KnownTheme(p)
    ensures ThemeKey in Run(p, actions).storage
    ensures Run(p, actions).storage[ThemeKey] ==
      if CountToggles(actions) % 2 == 0 then p.storage[ThemeKey] else NextTheme(StoredTheme(p))
    decreases |actions|
  {
    if actions != [] {
      var next := Perform(p, actions[0]).page;
      if actions[0] != ToggleTheme {
        ApplyKnownSyncs(p);
      }
      RunThemeParity(next, actions[1..]);
    }
  }

  /** No entry point writes a storage key other than "theme". */
  lemma {:induction false} RunKeepsOtherKeys(p: Page, actions: seq<Action>)
    ensures Run(p, actions).storage - {ThemeKey} == p.storage - {ThemeKey}
    decreases |actions|
  {
    if actions != [] {
      var next := Perform(p, actions[0]).page;
      assert next.storage - {ThemeKey} == p.storage - {ThemeKey} by {
        if actions[0] == LoadTheme && ThemeKey !in p.storage {
          assert p.storage[ThemeKey := Light] - {ThemeKey} == p.storage - {ThemeKey};
        }
      }
      RunKeepsOtherKeys(next, actions[1..]);
    }
  }

  /** Once present, the "toggled" marker is never removed. */
  lemma {:induction false} RunKeepsToggledMarker(p: Page, actions: seq<Action>)
    requires ToggledClass in p.classes
    ensures ToggledClass in Run(p, actions).classes
    decreases |actions|
  {
    if actions != [] {
      RunKeepsToggledMarker(Perform(p, actions[0]).page, actions[1..]);
    }
  }

  /** From a known theme, no sequence of entry points changes a body class
      other than "toggled", "light" and "dark". */
  lemma {:induction false} RunKeepsOtherClasses(p: Page, actions: seq<Action>, c: string)
    requires KnownTheme(p)
    requires c != ToggledClass && c != Light && c != Dark
    ensures c in Run(p, actions).classes <==> c in p.classes
    decreases |actions|
  {
    if actions != [] {
      var next := Perform(p, actions[0]).page;
      if actions[0] != ToggleTheme {
        ApplyKnownSyncs(p);
      }
      RunKeepsOtherClasses(next, actions[1..], c);
    }
  }

  /** Running a sequence and then one more entry point is running the
      longer sequence: calling the entry points one after another ends in
      the state `Run` describes. */
  lemma {:induction false} RunAppend(p: Page, actions: seq<Action>, a: Action)
    ensures Run(p, actions + [a]) == Perform(Run(p, actions), a).page
    decreases |actions|
  {
    if actions == [] {
      assert [a][1..] == [];
    } else {
      assert (actions + [a])[1..] == actions[1..] + [a];
      RunAppend(Perform(p, actions[0]).page, actions[1..], a);
    }
  }

  /** Exactly one "theme-toggled" event per toggle, and no other event. */
  lemma {:induction false} RunDispatchesOnePerToggle(p: Page, actions: seq<Action>)
    ensures Run(p, actions).events == p.events + seq(CountToggles(actions), _ => ThemeToggled)
    decreases |actions|
  {
    if actions != [] {
      var next := Perform(p, actions[0]).page;
      RunDispatchesOnePerToggle(next, actions[1..]);
      var n := CountToggles(actions[1..]);
      if actions[0] == ToggleTheme {
        assert [ThemeToggled] + seq(n, _ => ThemeToggled) == seq(n + 1, _ => ThemeToggled);
      }
    }
  }

  /** A first visit: with nothing stored, `loadTheme` stores "light" and
      shows it, and from then on the stored theme is "light" or "dark" and
      the body shows it, whatever the visitor does. */
  lemma FirstVisit(p: Page, actions: seq<Action>)
    requires ThemeKey !in p.storage
    ensures Load(p).outcome == Completed && StoredTheme(Load(p).page) == Some(Light)
    ensures Light in Load(p).page.classes && Dark !in Load(p).page.classes
    ensures KnownTheme(Run(p, [LoadTheme] + actions)) && InSync(Run(p, [LoadTheme] + actions))
  {
    var loaded := Load(p).page;
    assert ([LoadTheme] + actions)[1..] == actions;
    RunKeepsKnownTheme(loaded, actions);
    RunKeepsInSync(loaded, actions);
  }
}
