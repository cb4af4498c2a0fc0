/** The project filter bar: each button carries a filter word, each project
    card a space-separated list of categories. */
module Filter {

  /** `s.split(sep)` for a one-character separator: the pieces between
      separators, including empty ones; the empty string gives one empty
      piece. */
  function Split(s: string, sep: char): (parts: seq<string>)
    ensures |parts| >= 1
    ensures forall i :: 0 <= i < |parts| ==> sep !in parts[i]
    decreases |s|
  {
    if s == [] then [""]
    else
      var rest := Split(s[1..], sep);
      if s[0] == sep then [""] + rest
      else [[s[0]] + rest[0]] + rest[1..]
  }

  /** `parts.join(sep)`. */
  function Join(parts: seq<string>, sep: char): string
    requires |parts| >= 1
    decreases |parts|
  {
    if |parts| == 1 then parts[0] else parts[0] + [sep] + Join(parts[1..], sep)
  }

  predicate NoSep(parts: seq<string>, sep: char) {
    forall i :: 0 <= i < |parts| ==> sep !in parts[i]
  }

  /** Joining the pieces gives back the string. */
  lemma {:induction false} JoinSplit(s: string, sep: char)
    ensures Join(Split(s, sep), sep) == s
    decreases |s|
  {
    if s != [] {
      var rest := Split(s[1..], sep);
      JoinSplit(s[1..], sep);
      if s[0] == sep {
        assert ([""] + rest)[1..] == rest;
      } else {
        var parts := [[s[0]] + rest[0]] + rest[1..];
        if |rest| > 1 {
          assert parts[1..] == rest[1..];
        }
      }
    }
  }

  lemma {:induction false} SplitAfterWord(w: string, t: string, sep: char)
    requires sep !in w
    ensures Split(w + t, sep) == [w + Split(t, sep)[0]] + Split(t, sep)[1..]
    decreases |w|
  {
    if w != [] {
      assert (w + t)[1..] == w[1..] + t;
      SplitAfterWord(w[1..], t, sep);
      assert [w[0]] + (w[1..] + Split(t, sep)[0]) == w + Split(t, sep)[0];
    } else {
      var parts := Split(t, sep);
      assert w + t == t && w + parts[0] == parts[0];
      assert [parts[0]] + parts[1..] == parts;
    }
  }

  /** Splitting separator-free pieces joined by the separator gives them back. */
  lemma {:induction false} SplitJoin(parts: seq<string>, sep: char)
    requires |parts| >= 1 && NoSep(parts, sep)
    ensures Split(Join(parts, sep), sep) == parts
    decreases |parts|
  {
    if |parts| == 1 {
      SplitAfterWord(parts[0], "", sep);
      assert parts[0] + "" == parts[0];
      assert Split("", sep) == [""];
      assert [parts[0]] + [""][1..] == parts;
    } else {
      var t := Join(parts[1..], sep);
      SplitJoin(parts[1..], sep);
      assert parts[0] + [sep] + t == parts[0] + ([sep] + t);
      SplitAfterWord(parts[0], [sep] + t, sep);
      assert ([sep] + t)[0] == sep && ([sep] + t)[1..] == t;
      assert Split([sep] + t, sep) == [""] + parts[1..];
      assert parts[0] + "" == parts[0];
      assert ([""] + parts[1..])[1..] == parts[1..];
      assert parts == [parts[0]] + parts[1..];
    }
  }

  /** The rule deciding whether a card is shown under a filter. */
  predicate Visible(filter: string, category: string)
    ensures filter == "all" ==> Visible(filter, category)
    ensures Visible(filter, category) && filter != "all" ==> ' ' !in filter
  {
    filter == "all" || filter in Split(category, ' ')
  }

  /** A card is shown exactly when the filter is "all" or is one of the
      space-separated words its category list is made of. */
  lemma VisibleIffWord(filter: string, category: string)
    ensures Visible(filter, category) <==>
            filter == "all" ||
            exists parts :: |parts| >= 1 && NoSep(parts, ' ') && Join(parts, ' ') == category && filter in parts
  {
    var parts := Split(category, ' ');
    JoinSplit(category, ' ');
    if filter != "all" && exists parts :: |parts| >= 1 && NoSep(parts, ' ') && Join(parts, ' ') == category && filter in parts {
      var q :| |q| >= 1 && NoSep(q, ' ') && Join(q, ' ') == category && filter in q;
      SplitJoin(q, ' ');
    }
  }

  /** "all" shows every card; a filter with a space in it (other than "all")
      shows none. */
  lemma FilterExtremes(filter: string, category: string)
    ensures Visible("all", category)
    ensures filter != "all" && ' ' in filter ==> !Visible(filter, category)
  {
  }

  /** The filter buttons and the project cards with the state the click
      handler writes: which buttons are active, which cards are hidden. */
  class FilterPanel {
    const filters: seq<string>
    const categories: seq<string>
    var active: seq<bool>
    var hidden: seq<bool>

    ghost predicate Valid()
      reads this
    {
      |active| == |filters| && |hidden| == |categories|
    }

    constructor (filters: seq<string>, categories: seq<string>, active: seq<bool>, hidden: seq<bool>)
      requires |active| == |filters| && |hidden| == |categories|
      ensures Valid()
      ensures this.filters == filters && this.categories == categories
      ensures this.active == active && this.hidden == hidden
    {
      this.filters := filters;
      this.categories := categories;
      this.active := active;
      this.hidden := hidden;
    }

    /** The click handler of button `b`. */
    method Click(b: int)
      requires Valid() && 0 <= b < |filters|
      modifies this
      ensures Valid()
      ensures forall j :: 0 <= j < |active| ==> (active[j] <==> j == b)
      ensures forall i :: 0 <= i < |hidden| ==> (hidden[i] <==> !Visible(filters[b], categories[i]))
    {
      var j := 0;
      while j < |active|
        invariant 0 <= j <= |active| == |filters|
        invariant |hidden| == |categories|
        invariant forall m :: 0 <= m < j ==> !active[m]
      {
        active := active[j := false];
        j := j + 1;
      }
      active := active[b := true];

      var filter := filters[b];
      var i := 0;
      while i < |categories|
        invariant 0 <= i <= |categories| == |hidden|
        invariant |active| == |filters|
        invariant forall j :: 0 <= j < |active| ==> (active[j] <==> j == b)
        invariant forall m :: 0 <= m < i ==> (hidden[m] <==> !Visible(filter, categories[m]))
      {
        var cats := Split(categories[i], ' ');
        if filter == "all" || filter in cats {
          hidden := hidden[i := false];
        } else {
          hidden := hidden[i := true];
        }
        i := i + 1;
      }
    }
  }
}
