/** The sidebar theme switcher: a menu that picks a theme key, and a
    one-click control that cycles through the keys in order. The list of
    keys comes from the theme context and is a parameter here. */
module ThemeSelector {
  import opened Http

  /** `keys.indexOf(k)`: the first position of k, or -1. */
  function IndexOf(keys: seq<string>, k: string): (i: int)
    ensures -1 <= i < |keys|
    ensures i == -1 <==> k !in keys
    ensures i >= 0 ==> keys[i] == k && k !in keys[..i]
  {
    if keys == [] then -1
    else if keys[0] == k then 0
    else
      var j := IndexOf(keys[1..], k);
      assert keys[1..][..j + 1] == keys[1..j + 2];
      if j == -1 then -1 else j + 1
  }

  predicate Distinct(keys: seq<string>) {
    forall i, j :: 0 <= i < j < |keys| ==> keys[i] != keys[j]
  }

  /** A position at most one past the end, taken modulo the length, wraps
      at most once. */
  lemma ModOnce(k: int, n: int)
    requires n > 0 && 0 <= k <= n
    ensures k % n == if k < n then k else 0
  {
    if k == n {
      assert k % n == 0;
    }
  }

  /** The position one step after i in a list of n keys, wrapping. */
  function Step(i: int, n: int): int {
    if i + 1 < n then i + 1 else 0
  }

  /** `(currentIndex + 1) % keys.length` for an `indexOf` result. */
  function NextIndex(currentIndex: int, n: int): (j: int)
    requires n > 0 && -1 <= currentIndex < n
    ensures 0 <= j < n && j == Step(currentIndex, n)
  {
    ModOnce(currentIndex + 1, n);
    (currentIndex + 1) % n
  }

  /** The key `handleCycleTheme` moves to; None stands for `undefined`,
      what `keys[NaN]` gives when there are no keys. An undefined current
      key is not in the list and behaves like any unknown key. */
  function NextThemeKey(keys: seq<string>, current: Option<string>): (r: Option<string>)
    ensures keys == [] <==> r == None
    ensures r.Some? ==> r.value in keys
    ensures keys != [] && (current.None? || current.value !in keys) ==> r == Some(keys[0])
  {
    if keys == [] then None
    else
      var currentIndex := if current.Some? then IndexOf(keys, current.value) else -1;
      Some(keys[NextIndex(currentIndex, |keys|)])
  }

  /** In a list without repeats, `indexOf` finds each key where it is. */
  lemma {:induction false} IndexOfDistinct(keys: seq<string>, i: int)
    requires Distinct(keys) && 0 <= i < |keys|
    ensures IndexOf(keys, keys[i]) == i
  {
    if i > 0 {
      assert keys[0] != keys[i];
      assert keys[1..][i - 1] == keys[i];
      IndexOfDistinct(keys[1..], i - 1);
    }
  }

  /** With distinct keys, the key after the one at i is the one at i + 1,
      and the last wraps around to the first. */
  lemma NextOfIndex(keys: seq<string>, i: int)
    requires Distinct(keys) && 0 <= i < |keys|
    ensures NextThemeKey(keys, Some(keys[i])) == Some(keys[Step(i, |keys|)])
  {
    IndexOfDistinct(keys, i);
  }

  /** The same step stated as the source computes it: index (i + 1) mod n. */
  lemma NextOfIndexMod(keys: seq<string>, i: int)
    requires Distinct(keys) && 0 <= i < |keys|
    ensures NextThemeKey(keys, Some(keys[i])) == Some(keys[(i + 1) % |keys|])
  {
    NextOfIndex(keys, i);
    ModOnce(i + 1, |keys|);
  }

  /** `f` applied m times. */
  function Iterate(f: Option<string> -> Option<string>, x: Option<string>, m: nat): Option<string>
    decreases m
  {
    if m == 0 then x else f(Iterate(f, x, m - 1))
  }

  /** One click of the cycle button, as a function of the current key. */
  function Click(keys: seq<string>): Option<string> -> Option<string> {
    current => NextThemeKey(keys, current)
  }

  /** The key reached after `m` clicks. */
  function CycledBy(keys: seq<string>, current: Option<string>, m: nat): Option<string> {
    Iterate(Click(keys), current, m)
  }

  /** Position j counted round the end of a list of n keys, once. */
  function Wrap(j: int, n: int): int {
    if j < n then j else j - n
  }

  /** f moves every key of the list to the one a step further on. */
  predicate StepsThrough(f: Option<string> -> Option<string>, keys: seq<string>) {
    forall j :: 0 <= j < |keys| ==> f(Some(keys[j])) == Some(keys[Step(j, |keys|)])
  }

  /** Up to one full round of such steps from the key at i reaches the key
      at i + m, counted round the end of the list. */
  lemma {:induction false} IterateSteps(f: Option<string> -> Option<string>, keys: seq<string>, i: int, m: nat)
    requires StepsThrough(f, keys) && 0 <= i < |keys| && m <= |keys|
    ensures Iterate(f, Some(keys[i]), m) == Some(keys[Wrap(i + m, |keys|)])
    decreases m
  {
    if m > 0 {
      IterateSteps(f, keys, i, m - 1);
      var w := Wrap(i + (m - 1), |keys|);
      assert f(Some(keys[w])) == Some(keys[Step(w, |keys|)]);
    }
  }

  /** With distinct keys, a click steps through the list in order. */
  lemma ClickStepsThrough(keys: seq<string>)
    requires Distinct(keys)
    ensures StepsThrough(Click(keys), keys)
  {
    forall j | 0 <= j < |keys|
      ensures Click(keys)(Some(keys[j])) == Some(keys[Step(j, |keys|)])
    {
      NextOfIndex(keys, j);
    }
  }

  /** Up to one full round of clicks from the key at i reaches the key at
      i + m, counted round the end of the list. */
  lemma CycledByIndex(keys: seq<string>, i: int, m: nat)
    requires Distinct(keys) && 0 <= i < |keys| && m <= |keys|
    ensures CycledBy(keys, Some(keys[i]), m) == Some(keys[Wrap(i + m, |keys|)])
  {
    ClickStepsThrough(keys);
    IterateSteps(Click(keys), keys, i, m);
  }

  /** Clicking once per key brings a known theme back to itself. */
  lemma CycleReturns(keys: seq<string>, i: int)
    requires Distinct(keys) && 0 <= i < |keys|
    ensures CycledBy(keys, Some(keys[i]), |keys|) == Some(keys[i])
  {
    CycledByIndex(keys, i, |keys|);
  }

  /** An unknown (or undefined) key cycles to the first key, after which
      the cycle runs through the list. */
  lemma UnknownKeyStartsAtFirst(keys: seq<string>, current: Option<string>)
    requires keys != [] && (current.None? || current.value !in keys)
    ensures CycledBy(keys, current, 1) == Some(keys[0])
  {
  }

  // ---------------------------------------------------------------------
  // Menu options
  // ---------------------------------------------------------------------

  datatype Icon = LightIcon | DarkIcon | BlackIcon | PaletteIcon

  datatype ThemeOption = ThemeOption(key: string, title: string, icon: Icon, description: string)

  /** Position i holds the first option carrying the key. */
  predicate FirstWithKey(options: seq<ThemeOption>, themeKey: Option<string>, i: int) {
    0 <= i < |options| && themeKey == Some(options[i].key)
    && forall j :: 0 <= j < i ==> themeKey != Some(options[j].key)
  }

  /** `THEME_OPTIONS.find(opt => opt.key === themeKey)`: the first option
      carrying the key. */
  function CurrentOption(options: seq<ThemeOption>, themeKey: Option<string>): (r: Option<ThemeOption>)
    ensures r.Some? ==> exists i :: FirstWithKey(options, themeKey, i) && r.value == options[i]
    ensures r.None? <==> forall o :: o in options ==> themeKey != Some(o.key)
    ensures options != [] && themeKey == Some(options[0].key) ==> r == Some(options[0])
  {
    if options == [] then None
    else if themeKey == Some(options[0].key) then
      assert FirstWithKey(options, themeKey, 0);
      Some(options[0])
    else
      var r := CurrentOption(options[1..], themeKey);
      FirstWithKeyShift(options, themeKey, r);
      r
  }

  /** A first match in the tail is a first match in the whole list when the
      head does not carry the key. */
  lemma FirstWithKeyShift(options: seq<ThemeOption>, themeKey: Option<string>, r: Option<ThemeOption>)
    requires options != [] && themeKey != Some(options[0].key)
    requires r.Some? ==> exists i :: FirstWithKey(options[1..], themeKey, i) && r.value == options[1..][i]
    ensures r.Some? ==> exists i :: FirstWithKey(options, themeKey, i) && r.value == options[i]
  {
    if r.Some? {
      var i :| FirstWithKey(options[1..], themeKey, i) && r.value == options[1..][i];
      assert FirstWithKey(options, themeKey, i + 1);
    }
  }

  /** The button's icon: the current option's, or the palette. */
  function CurrentIcon(options: seq<ThemeOption>, themeKey: Option<string>): (icon: Icon)
    ensures (forall o :: o in options ==> themeKey != Some(o.key)) ==> icon == PaletteIcon
    ensures (exists o :: o in options && themeKey == Some(o.key)) ==>
      exists o :: o in options && themeKey == Some(o.key) && icon == o.icon
  {
    match CurrentOption(options, themeKey)
    case Some(o) => o.icon
    case None => PaletteIcon
  }

  predicate IsSelected(themeKey: Option<string>, option: ThemeOption) {
    themeKey == Some(option.key)
  }

  /** With distinct option keys, exactly the option carrying the current key
      is marked, and none is when the key is unknown. */
  lemma SelectedIsUnique(options: seq<ThemeOption>, themeKey: Option<string>, i: int, j: int)
    requires forall a, b :: 0 <= a < b < |options| ==> options[a].key != options[b].key
    requires 0 <= i < |options| && 0 <= j < |options|
    requires IsSelected(themeKey, options[i]) && IsSelected(themeKey, options[j])
    ensures i == j
  {
  }

  /** The marked option is the one whose icon the button shows. */
  lemma SelectedMatchesIcon(options: seq<ThemeOption>, themeKey: Option<string>, i: int)
    requires forall a, b :: 0 <= a < b < |options| ==> options[a].key != options[b].key
    requires 0 <= i < |options| && IsSelected(themeKey, options[i])
    ensures CurrentOption(options, themeKey) == Some(options[i])
    ensures CurrentIcon(options, themeKey) == options[i].icon
  {
    var o := CurrentOption(options, themeKey);
    var k :| 0 <= k < |options| && options[k] == o.value;
    SelectedIsUnique(options, themeKey, i, k);
  }

  // ---------------------------------------------------------------------
  // Component state
  // ---------------------------------------------------------------------

  /** The menu anchor (`anchorEl`) and the context's theme key. */
  class ThemeSelectorState {
    var themeKey: Option<string>
    var anchorEl: Option<nat>

    predicate MenuOpen()
      reads this
    {
      anchorEl.Some?
    }

    constructor (initialKey: Option<string>)
      ensures themeKey == initialKey && anchorEl == None
    {
      themeKey := initialKey;
      anchorEl := None;
    }

    method HandleClick(target: nat)
      modifies this
      ensures anchorEl == Some(target) && themeKey == old(themeKey)
    {
      anchorEl := Some(target);
    }

    method HandleClose()
      modifies this
      ensures anchorEl == None && themeKey == old(themeKey)
    {
      anchorEl := None;
    }

    method HandleThemeSelect(key: string)
      modifies this
      ensures themeKey == Some(key) && !MenuOpen()
    {
      themeKey := Some(key);
      HandleClose();
    }

    method HandleCycleTheme(keys: seq<string>)
      modifies this
      ensures themeKey == NextThemeKey(keys, old(themeKey)) && anchorEl == old(anchorEl)
    {
      themeKey := NextThemeKey(keys, themeKey);
    }
  }
}
