/** The light/dark theme switch, driven by the document's `data-theme`
    attribute. Both toggle buttons (the navbar one and the one over the
    sphere) use the same rule. */
module Theme {

  /** What `getAttribute('data-theme')` returns: nothing, or a value. */
  datatype Attr = Unset | Value(s: string)

  /** The theme a toggle click writes: only "light" turns dark; every other
      value, and no value, turns light. */
  function Toggle(current: Attr): (next: string)
    ensures next == "dark" <==> current == Value("light")
    ensures next == "light" <==> current != Value("light")
  {
    if current == Value("light") then "dark" else "light"
  }

  /** Everything except an explicit "light", including no attribute at all,
      renders dark. */
  predicate IsDark(a: Attr)
    ensures a == Unset ==> IsDark(a)
    ensures IsDark(a) <==> Toggle(a) == "light"
  {
    a != Value("light")
  }

  /** Every click flips what is rendered. */
  lemma ToggleFlipsDarkness(current: Attr)
    ensures IsDark(Value(Toggle(current))) <==> !IsDark(current)
  {
  }

  /** Two clicks always restore what is rendered; they restore the attribute
      itself exactly when it held "light" or "dark", and turn any other value
      (or none) into "dark". */
  lemma ToggleTwice(current: Attr)
    ensures IsDark(Value(Toggle(Value(Toggle(current))))) == IsDark(current)
    ensures Value(Toggle(Value(Toggle(current)))) == current <==> current in {Value("light"), Value("dark")}
    ensures current !in {Value("light"), Value("dark")} ==> Toggle(Value(Toggle(current))) == "dark"
  {
  }
}
