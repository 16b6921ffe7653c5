/**
 * The theme provider: the current display theme, the theme classes it puts
 * on the document's root element and the value it persists in local storage.
 */
module ThemeContext {
  import opened Options

  /** The `Theme` union type. */
  datatype Theme = System | Matrix | Cyberpunk | Retro

  /** The string a theme is written as. */
  function Name(t: Theme): (s: string)
    ensures s != []
  {
    match t
    case System => "system"
    case Matrix => "matrix"
    case Cyberpunk => "cyberpunk"
    case Retro => "retro"
  }

  /** `availableThemes`, in the order the provider lists them. */
  const AvailableThemes: seq<Theme> := [System, Matrix, Cyberpunk, Retro]

  /** The names of a list of themes, in order. */
  function Names(ts: seq<Theme>): (r: seq<string>)
    ensures |r| == |ts|
    ensures forall i :: 0 <= i < |ts| ==> r[i] == Name(ts[i])
  {
    if ts == [] then [] else [Name(ts[0])] + Names(ts[1..])
  }

  /** The local storage key the theme is persisted under. */
  const StorageKey: string := "portfolio-theme"

  /** The classes the update step removes before adding the current one. */
  const ThemeClasses: seq<string> := ["theme-matrix", "theme-cyberpunk", "theme-retro"]

  /** `theme-<t>`: the class that selects theme `t`. */
  function ThemeClass(theme: string): string {
    "theme-" + theme
  }

  /**
   * `availableThemes.includes(s)`, followed by the cast to `Theme`: the
   * theme written as `s`, if there is one.
   */
  function FromName(s: string): (r: Option<Theme>)
    ensures r.Some? <==> s in Names(AvailableThemes)
    ensures r.Some? ==> Name(r.value) == s
  {
    assert Names(AvailableThemes) == ["system", "matrix", "cyberpunk", "retro"];
    if s == "system" then Some(System)
    else if s == "matrix" then Some(Matrix)
    else if s == "cyberpunk" then Some(Cyberpunk)
    else if s == "retro" then Some(Retro)
    else None
  }

  /** `availableThemes` holds every `Theme` exactly once, written as listed. */
  lemma AvailableThemesAreAllThemes()
    ensures forall t: Theme :: t in AvailableThemes
    ensures forall i, j :: 0 <= i < j < |AvailableThemes| ==> AvailableThemes[i] != AvailableThemes[j]
    ensures Names(AvailableThemes) == ["system", "matrix", "cyberpunk", "retro"]
  {
    forall t: Theme ensures t in AvailableThemes {
      match t
      case System => assert AvailableThemes[0] == t;
      case Matrix => assert AvailableThemes[1] == t;
      case Cyberpunk => assert AvailableThemes[2] == t;
      case Retro => assert AvailableThemes[3] == t;
    }
  }

  /** The class of every theme but `'system'` is one of the classes the update step removes. */
  lemma ThemeClassIsRemovable(t: Theme)
    requires t != System
    ensures ThemeClass(Name(t)) in ThemeClasses
  {
    match t
    case Matrix => assert ThemeClass(Name(t)) == ThemeClasses[0];
    case Cyberpunk => assert ThemeClass(Name(t)) == ThemeClasses[1];
    case Retro => assert ThemeClass(Name(t)) == ThemeClasses[2];
  }

  /** Writing a theme as a string and reading it back gives the same theme. */
  lemma NameRoundTrip(t: Theme)
    ensures FromName(Name(t)) == Some(t)
  {
    assert Name(t) in Names(AvailableThemes) by { AvailableThemesAreAllThemes(); }
  }

  /**
   * The initial theme: the stored value when there is a non-empty one,
   * `'system'` otherwise. The stored value is not checked against the
   * available themes.
   */
  function InitialTheme(storage: map<string, string>): (theme: string)
    ensures theme != []
    ensures StorageKey in storage && storage[StorageKey] != [] ==> theme == storage[StorageKey]
    ensures !(StorageKey in storage && storage[StorageKey] != []) ==> theme == "system"
  {
    var saved := if StorageKey in storage then Some(storage[StorageKey]) else None;
    if saved.Some? && saved.value != [] then saved.value else "system"
  }

  /** A persisted theme is the one found on the next load. */
  lemma ReloadRestoresTheme(storage: map<string, string>, t: Theme)
    ensures InitialTheme(Persist(storage, Name(t))) == Name(t)
  {
  }

  /** `localStorage.setItem('portfolio-theme', theme)`. */
  function Persist(storage: map<string, string>, theme: string): (r: map<string, string>)
    ensures StorageKey in r && r[StorageKey] == theme
    ensures forall k :: k != StorageKey ==> (k in r <==> k in storage)
    ensures forall k :: k in storage && k != StorageKey ==> r[k] == storage[k]
  {
    storage[StorageKey := theme]
  }

  /** No class occurs twice in the list, as in a DOM token list. */
  predicate NoDuplicates(classes: seq<string>) {
    forall i, j :: 0 <= i < j < |classes| ==> classes[i] != classes[j]
  }

  /** `classList.remove(...drop)`: every occurrence of the dropped classes goes. */
  function RemoveClasses(classes: seq<string>, drop: seq<string>): (r: seq<string>)
    ensures forall c :: c in r <==> c in classes && c !in drop
    ensures |r| <= |classes|
    ensures NoDuplicates(classes) ==> NoDuplicates(r)
  {
    if classes == [] then []
    else if classes[0] in drop then RemoveClasses(classes[1..], drop)
    else
      var rest := RemoveClasses(classes[1..], drop);
      assert NoDuplicates(classes) ==> classes[0] !in classes[1..];
      [classes[0]] + rest
  }

  /** ASCII whitespace as the DOM defines it: tab, line feed, form feed, carriage return and space. */
  predicate IsAsciiWhitespace(c: char) {
    c == '\t' || c == '\n' || c == '\U{000C}' || c == '\r' || c == ' '
  }

  /** A token a DOM token list accepts: not empty, and free of ASCII whitespace. */
  predicate ValidToken(c: string) {
    c != [] && forall k :: 0 <= k < |c| ==> !IsAsciiWhitespace(c[k])
  }

  /**
   * `classList.add(c)`: appended when absent, nothing changes when present.
   * `None` when `add` throws instead: a `SyntaxError` for the empty token, an
   * `InvalidCharacterError` for a token holding ASCII whitespace.
   */
  function AddClass(classes: seq<string>, c: string): (r: Option<seq<string>>)
    ensures r.None? <==> !ValidToken(c)
    ensures r.Some? ==> forall x :: x in r.value <==> x in classes || x == c
    ensures r.Some? && c in classes ==> r.value == classes
    ensures r.Some? && c !in classes ==> |r.value| == |classes| + 1 && r.value[..|classes|] == classes
    ensures r.Some? && NoDuplicates(classes) ==> NoDuplicates(r.value)
  {
    if !ValidToken(c) then None
    else if c in classes then Some(classes)
    else Some(classes + [c])
  }

  /** The class of a theme is a valid token exactly when the theme holds no ASCII whitespace. */
  lemma ThemeClassValid(theme: string)
    ensures ValidToken(ThemeClass(theme)) <==> forall k :: 0 <= k < |theme| ==> !IsAsciiWhitespace(theme[k])
  {
    var c := ThemeClass(theme);
    assert c[0] == 't';
    forall k | 0 <= k < |theme| ensures c[6 + k] == theme[k] { }
    if !ValidToken(c) {
      var k :| 0 <= k < |c| && IsAsciiWhitespace(c[k]);
      assert k >= 6 && c[k] == theme[k - 6];
    }
  }

  /**
   * The class list after the update step for theme `theme`: the three theme
   * classes are gone, `theme-<theme>` is present unless the theme is
   * `'system'`, and every other class is as before. `None` when adding
   * `theme-<theme>` throws, which happens exactly when the theme holds ASCII
   * whitespace.
   */
  function UpdatedClasses(classes: seq<string>, theme: string): (r: Option<seq<string>>)
    ensures r.None? <==> theme != "system" && exists k :: 0 <= k < |theme| && IsAsciiWhitespace(theme[k])
    ensures r.Some? ==> forall c :: c in r.value <==>
      (c in classes && c !in ThemeClasses) || (theme != "system" && c == ThemeClass(theme))
    ensures r.Some? && NoDuplicates(classes) ==> NoDuplicates(r.value)
  {
    ThemeClassValid(theme);
    var cleared := RemoveClasses(classes, ThemeClasses);
    if theme != "system" then AddClass(cleared, ThemeClass(theme)) else Some(cleared)
  }

  /** The update step never throws for one of the available themes. */
  lemma AvailableThemesUpdate(classes: seq<string>, t: Theme)
    ensures UpdatedClasses(classes, Name(t)).Some?
  {
    match t
    case System =>
    case Matrix => assert !IsAsciiWhitespace(Name(t)[0]) && !IsAsciiWhitespace(Name(t)[1]);
    case Cyberpunk =>
    case Retro =>
  }

  /** A stored theme holding a space makes the update step throw. */
  lemma SpacedThemeThrows(classes: seq<string>)
    ensures UpdatedClasses(classes, "dark mode") == None
  {
    assert IsAsciiWhitespace("dark mode"[4]);
  }

  /** With one of the available themes, no theme class but the current one remains. */
  lemma UpdatedClassesSelectOneTheme(classes: seq<string>, t: Theme)
    ensures UpdatedClasses(classes, Name(t)).Some?
    ensures forall u: Theme :: u != System ==>
      (ThemeClass(Name(u)) in UpdatedClasses(classes, Name(t)).value <==> u == t)
  {
    AvailableThemesUpdate(classes, t);
    forall u: Theme | u != System
      ensures ThemeClass(Name(u)) in UpdatedClasses(classes, Name(t)).value <==> u == t
    {
      ThemeClassIsRemovable(u);
      if t != System && ThemeClass(Name(u)) == ThemeClass(Name(t)) {
        assert Name(u) == ThemeClass(Name(u))[6..] == ThemeClass(Name(t))[6..] == Name(t);
      }
    }
  }

  /** Removing classes that are not there changes nothing. */
  lemma {:induction false} RemoveAbsent(classes: seq<string>, drop: seq<string>)
    requires forall c :: c in classes ==> c !in drop
    ensures RemoveClasses(classes, drop) == classes
  {
    if classes != [] {
      RemoveAbsent(classes[1..], drop);
      assert classes == [classes[0]] + classes[1..];
    }
  }

  /** Removing classes from a concatenation removes them from each part. */
  lemma {:induction false} RemoveAppend(a: seq<string>, b: seq<string>, drop: seq<string>)
    ensures RemoveClasses(a + b, drop) == RemoveClasses(a, drop) + RemoveClasses(b, drop)
  {
    if a == [] {
      assert a + b == b;
    } else {
      assert (a + b)[1..] == a[1..] + b;
      RemoveAppend(a[1..], b, drop);
    }
  }

  /** Removing the theme classes from the updated list leaves what the first removal left. */
  lemma RemoveAfterUpdate(classes: seq<string>, t: Theme)
    ensures UpdatedClasses(classes, Name(t)).Some?
    ensures RemoveClasses(UpdatedClasses(classes, Name(t)).value, ThemeClasses)
         == RemoveClasses(classes, ThemeClasses)
  {
    AvailableThemesUpdate(classes, t);
    var cleared := RemoveClasses(classes, ThemeClasses);
    RemoveAbsent(cleared, ThemeClasses);
    if t != System {
      var c := ThemeClass(Name(t));
      ThemeClassIsRemovable(t);
      assert c !in cleared;
      assert UpdatedClasses(classes, Name(t)).value == cleared + [c];
      RemoveAppend(cleared, [c], ThemeClasses);
      assert RemoveClasses([c], ThemeClasses) == [];
      assert cleared + [] == cleared;
    }
  }

  /** Running the update step twice for the same theme is the same as running it once. */
  lemma UpdateIdempotent(classes: seq<string>, theme: string)
    ensures UpdatedClasses(classes, theme).Some? ==>
      UpdatedClasses(UpdatedClasses(classes, theme).value, theme) == UpdatedClasses(classes, theme)
  {
    var cleared := RemoveClasses(classes, ThemeClasses);
    RemoveAbsent(cleared, ThemeClasses);
    var once := UpdatedClasses(classes, theme);
    if once.Some? && theme != "system" && ThemeClass(theme) !in cleared {
      var c := ThemeClass(theme);
      RemoveAppend(cleared, [c], ThemeClasses);
      if c in ThemeClasses {
        assert RemoveClasses([c], ThemeClasses) == [];
        assert cleared + [] == cleared;
      } else {
        assert RemoveClasses([c], ThemeClasses) == [c];
      }
    }
  }

  /**
   * Switching from one available theme to another leaves no trace of the
   * first: the result is what the second alone would give.
   */
  lemma SwitchLeavesNoTrace(classes: seq<string>, first: Theme, second: string)
    ensures UpdatedClasses(classes, Name(first)).Some?
    ensures UpdatedClasses(UpdatedClasses(classes, Name(first)).value, second)
         == UpdatedClasses(classes, second)
  {
    RemoveAfterUpdate(classes, first);
  }

  /**
   * A stored theme outside the available ones (and free of whitespace) gets
   * its class added, and the update step never removes it again.
   */
  lemma UnknownStoredThemeClassStays()
    ensures UpdatedClasses([], "solarized") == Some(["theme-solarized"])
    ensures UpdatedClasses(["theme-solarized"], "matrix") == Some(["theme-solarized", "theme-matrix"])
  {
    var stale := ThemeClass("solarized");
    assert stale == "theme-solarized";
    assert stale !in ThemeClasses;
    assert ValidToken(stale);
    assert RemoveClasses([], ThemeClasses) == [];
    assert UpdatedClasses([], "solarized") == Some([stale]);
    assert RemoveClasses([stale][1..], ThemeClasses) == [];
    assert RemoveClasses([stale], ThemeClasses) == [stale];
    assert ThemeClass("matrix") == "theme-matrix";
    assert ValidToken(ThemeClass("matrix"));
    assert UpdatedClasses([stale], "matrix") == Some([stale] + ["theme-matrix"]);
    assert [stale] + ["theme-matrix"] == ["theme-solarized", "theme-matrix"];
  }

  /** The theme provider's state: the theme, the root element's classes, local storage. */
  class ThemeProvider {
    var theme: string
    var classList: seq<string>
    var storage: map<string, string>

    /** Mounting: the initial theme from storage; the DOM and storage as found. */
    constructor (storage0: map<string, string>, classes0: seq<string>)
      ensures theme == InitialTheme(storage0)
      ensures storage == storage0 && classList == classes0
    {
      theme := InitialTheme(storage0);
      storage := storage0;
      classList := classes0;
    }

    /** `setTheme`: replaces the theme and nothing else. */
    method SetTheme(newTheme: Theme)
      modifies this`theme
      ensures theme == Name(newTheme)
    {
      theme := Name(newTheme);
    }

    /**
     * The effect that runs whenever the theme changes: drop the theme
     * classes, add the current one unless it is `'system'`, persist it.
     * When `add` throws, the removal has happened and nothing is persisted;
     * `thrown` reports it.
     */
    method ApplyTheme() returns (thrown: bool)
      modifies this`classList, this`storage
      ensures thrown <==> UpdatedClasses(old(classList), theme).None?
      ensures !thrown ==> classList == UpdatedClasses(old(classList), theme).value
      ensures !thrown ==> storage == Persist(old(storage), theme)
      ensures !thrown ==> InitialTheme(storage) == theme || theme == []
      ensures thrown ==> classList == RemoveClasses(old(classList), ThemeClasses) && storage == old(storage)
    {
      classList := RemoveClasses(classList, ThemeClasses);
      if theme != "system" {
        var added := AddClass(classList, ThemeClass(theme));
        if added.None? {
          return true;
        }
        classList := added.value;
      }
      storage := storage[StorageKey := theme];
      thrown := false;
    }
  }
}
