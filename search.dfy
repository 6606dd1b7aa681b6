// The search box of the settings window: a line edit with a drop-down list
// of the player ids a search returned, filtered by the typed text, moved
// through with the arrow keys and applied with Enter or a click.
module Search {
  import opened Wrappers
  import opened Text

  /** Shown while a search is running. */
  const Searching: string := "正在检索ID，请稍候..."

  /** Shown when a search found nothing. */
  const NotFound: string := "没有检索到相关ID"

  predicate IsPlaceholder(s: string) {
    s == Searching || s == NotFound
  }

  /** A Python dict: its entries in insertion order, each key once. */
  predicate DistinctKeys<V>(dic: seq<(string, V)>) {
    forall i, j :: 0 <= i < j < |dic| ==> dic[i].0 != dic[j].0
  }

  function Keys<V>(dic: seq<(string, V)>): (ks: seq<string>)
    ensures |ks| == |dic|
    ensures forall k :: 0 <= k < |dic| ==> ks[k] == dic[k].0
  {
    seq(|dic|, k requires 0 <= k < |dic| => dic[k].0)
  }

  /** `dict.get(key)`. */
  function Get<V>(dic: seq<(string, V)>, key: string): (r: Option<V>)
    ensures r.None? <==> key !in Keys(dic)
  {
    if dic == [] then None
    else if dic[0].0 == key then Some(dic[0].1)
    else Get(dic[1..], key)
  }

  /** With distinct keys `get` finds the value stored under the key. */
  lemma {:induction false} GetFinds<V>(dic: seq<(string, V)>, k: nat)
    requires DistinctKeys(dic) && k < |dic|
    ensures Get(dic, dic[k].0) == Some(dic[k].1)
  {
    if k > 0 {
      assert DistinctKeys(dic[1..]);
      GetFinds(dic[1..], k - 1);
    }
  }

  /** The suggestions kept for the typed text: those containing it, case
      folded, and the two placeholders whatever was typed. */
  predicate Kept(s: string, text: string) {
    Contains(AsciiLower(s), AsciiLower(text)) || IsPlaceholder(s)
  }

  /** The list comprehension of `show_suggestions`. */
  function Filtered(suggestions: seq<string>, text: string): (r: seq<string>)
    ensures |r| <= |suggestions|
    ensures forall s :: s in r <==> s in suggestions && Kept(s, text)
  {
    if suggestions == [] then []
    else
      var init := Filtered(suggestions[..|suggestions| - 1], text);
      var last := suggestions[|suggestions| - 1];
      assert suggestions == suggestions[..|suggestions| - 1] + [last];
      if Kept(last, text) then init + [last] else init
  }

  /** Typing part of a suggestion exactly keeps it, in any case of ASCII
      letters. */
  lemma CaseInsensitiveMatch(s: string, text: string)
    requires Contains(s, text)
    ensures Kept(s, text)
  {
    var i := ContainsWitness(s, text);
    var ls := AsciiLower(s);
    assert ls[i..i + |text|] == AsciiLower(text) by {
      forall k | 0 <= k < |text|
        ensures ls[i..i + |text|][k] == AsciiLower(text)[k]
      {
        assert s[i..i + |text|][k] == text[k];
      }
    }
    ContainsAt(ls, AsciiLower(text), i);
  }

  // ---------------------------------------------------------------------
  // The completer's state and its operations as functions.

  /** `items` are the rows of the drop-down list, `row` its current row
      (-1 for none); `applied` is `applied_suggestion`. */
  datatype Completer<V> = Completer(
    suggestions: seq<string>,
    dic: seq<(string, V)>,
    items: seq<string>,
    row: int,
    visible: bool,
    text: string,
    onFocus: bool,
    applied: Option<V>)

  /** The list's own bookkeeping: the current row is -1 or a row of the
      list, and the list is only visible with something in it. */
  predicate Coherent<V>(c: Completer<V>) {
    -1 <= c.row < |c.items| && (c.visible ==> c.items != [])
  }

  /** `show_suggestions`. Clearing the list leaves it with no current
      row. */
  function Show<V>(c: Completer<V>): Completer<V> {
    if !c.onFocus then c
    else if c.text == [] then c.(visible := false)
    else
      var filtered := Filtered(c.suggestions, c.text);
      c.(items := filtered, row := -1, visible := filtered != [])
  }

  /** `set_suggestions_list`: an empty result becomes the "no result"
      entry, with an empty string as its value. */
  function SetSuggestions<V>(c: Completer<V>, dic: seq<(string, V)>, blank: V): Completer<V> {
    var d := if dic == [] then [(NotFound, blank)] else dic;
    Show(c.(suggestions := Keys(d), dic := d))
  }

  /** `apply_suggestion`: placeholders do nothing; anything else is written
      into the box, hides the list and looks its value up. */
  function Apply<V>(c: Completer<V>, item: string): Completer<V> {
    if IsPlaceholder(item) then c
    else c.(text := item, visible := false, applied := Get(c.dic, item))
  }

  /** `QListWidget.setCurrentRow`: a row outside the list selects none. */
  function SetRow<V>(c: Completer<V>, r: int): Completer<V> {
    c.(row := if 0 <= r < |c.items| then r else -1)
  }

  datatype Key = Down | Up | Enter | Escape | Other

  /** `keyPressEvent` while the list is visible; other keys, and every key
      while it is hidden, go to the line edit and leave the list alone. */
  function Press<V>(c: Completer<V>, key: Key): Completer<V>
    requires Coherent(c)
  {
    if !c.visible then c
    else
      match key
      case Down => SetRow(c, if c.row + 1 < |c.items| - 1 then c.row + 1 else |c.items| - 1)
      case Up => SetRow(c, if c.row - 1 > 0 then c.row - 1 else 0)
      case Enter => if c.row >= 0 then Apply(c, c.items[c.row]) else c
      case Escape => c.(visible := false)
      case Other => c
  }

  /** `changeEvent` of the settings window: leaving it hides the list,
      coming back shows the suggestions again once there are any. */
  function Activate<V>(c: Completer<V>, active: bool): Completer<V> {
    if !active then c.(onFocus := false, visible := false)
    else if |c.dic| > 0 then Show(c.(onFocus := true))
    else c.(onFocus := true)
  }

  // ---------------------------------------------------------------------
  // What the operations promise.

  /** Every operation keeps the list coherent. */
  lemma OperationsKeepCoherent<V>(c: Completer<V>, item: string, key: Key, active: bool)
    requires Coherent(c)
    ensures Coherent(Show(c))
    ensures Coherent(Apply(c, item))
    ensures Coherent(Press(c, key))
    ensures Coherent(Activate(c, active))
  {
  }

  lemma SetSuggestionsCoherent<V>(c: Completer<V>, dic: seq<(string, V)>, blank: V)
    requires Coherent(c)
    ensures Coherent(SetSuggestions(c, dic, blank))
  {
  }

  /** Down and Up move the cursor one row and stop at the ends; in a
      visible list they always land on a row. */
  lemma CursorClamped<V>(c: Completer<V>)
    requires Coherent(c) && c.visible
    ensures Press(c, Down).row == (if c.row + 1 < |c.items| - 1 then c.row + 1 else |c.items| - 1)
    ensures Press(c, Up).row == (if c.row - 1 > 0 then c.row - 1 else 0)
    ensures 0 <= Press(c, Down).row < |c.items| && 0 <= Press(c, Up).row < |c.items|
    ensures Press(c, Down).row >= c.row && Press(c, Up).row <= (if c.row < 0 then 0 else c.row)
  {
  }

  /** Pressing Down often enough reaches the last row and stays there. */
  lemma {:induction false} DownReachesLast<V>(c: Completer<V>, n: nat)
    requires Coherent(c) && c.visible && n >= |c.items| - 1 - c.row
    ensures Coherent(PressDown(c, n)) && PressDown(c, n).visible
    ensures PressDown(c, n).row == |c.items| - 1
    ensures PressDown(c, n) == c.(row := |c.items| - 1)
    decreases n
  {
    if n == 0 {
      assert c.row == |c.items| - 1;
    } else {
      var d := Press(c, Down);
      if c.row == |c.items| - 1 {
        assert d == c;
      }
      DownReachesLast(d, n - 1);
    }
  }

  /** `n` presses of Down. */
  function PressDown<V>(c: Completer<V>, n: nat): Completer<V>
    requires Coherent(c)
    decreases n
  {
    if n == 0 then c
    else
      OperationsKeepCoherent(c, [], Down, false);
      PressDown(Press(c, Down), n - 1)
  }

  /** The placeholders cannot be applied, by click or by Enter. */
  lemma PlaceholdersIgnored<V>(c: Completer<V>, item: string)
    requires IsPlaceholder(item)
    ensures Apply(c, item) == c
    ensures Coherent(c) && c.visible && 0 <= c.row && c.items[c.row] == item ==> Press(c, Enter) == c
  {
  }

  /** Applying a real suggestion writes it into the box, hides the list and
      selects the value the search stored under it. */
  lemma ApplyStoresValue<V>(c: Completer<V>, k: nat)
    requires DistinctKeys(c.dic) && k < |c.dic| && !IsPlaceholder(c.dic[k].0)
    ensures Apply(c, c.dic[k].0) == c.(text := c.dic[k].0, visible := false, applied := Some(c.dic[k].1))
  {
    GetFinds(c.dic, k);
  }

  /** A search that found nothing shows exactly the "no result" entry when
      the window is active and something is typed, and that entry cannot
      be applied. */
  lemma EmptyResultShowsNotFound<V>(c: Completer<V>, blank: V)
    requires c.onFocus && c.text != []
    ensures SetSuggestions(c, [], blank).suggestions == [NotFound]
    ensures SetSuggestions(c, [], blank).items == [NotFound]
    ensures SetSuggestions(c, [], blank).visible
    ensures Apply(SetSuggestions(c, [], blank), NotFound) == SetSuggestions(c, [], blank)
  {
    assert Keys([(NotFound, blank)]) == [NotFound];
    assert Filtered([NotFound], c.text) == [NotFound] by {
      assert [NotFound][..0] == [];
    }
  }

  /** The visible list holds exactly the suggestions the typed text
      keeps. */
  lemma ShowFilters<V>(c: Completer<V>)
    requires c.onFocus && c.text != []
    ensures forall s :: s in Show(c).items <==> s in c.suggestions && Kept(s, c.text)
    ensures Show(c).visible <==> exists s :: s in c.suggestions && Kept(s, c.text)
  {
    var r := Show(c).items;
    if exists s :: s in c.suggestions && Kept(s, c.text) {
      var s :| s in c.suggestions && Kept(s, c.text);
      assert s in r;
    }
    if r != [] {
      assert r[0] in r;
    }
  }

  // ---------------------------------------------------------------------
  // The completer as the widget the settings window updates.

  class SearchCompleter<V> {
    var suggestions: seq<string>
    var dic: seq<(string, V)>
    var items: seq<string>
    var row: int
    var visible: bool
    var text: string
    var onFocus: bool
    var applied: Option<V>

    function Abs(): Completer<V>
      reads this
    {
      Completer(suggestions, dic, items, row, visible, text, onFocus, applied)
    }

    ghost predicate Valid()
      reads this
    {
      Coherent(Abs())
    }

    /** A new search box: nothing listed, list hidden. */
    constructor (onFocus: bool)
      ensures Valid()
      ensures Abs() == Completer([], [], [], -1, false, [], onFocus, None)
    {
      suggestions := [];
      dic := [];
      items := [];
      row := -1;
      visible := false;
      text := [];
      this.onFocus := onFocus;
      applied := None;
    }

    /** `show_suggestions`: the list is refilled one item at a time. */
    method ShowSuggestions()
      requires Valid()
      modifies this
      ensures Valid()
      ensures Abs() == Show(old(Abs()))
    {
      if !onFocus {
        return;
      }
      if text == [] {
        visible := false;
        return;
      }
      var filtered := Filtered(suggestions, text);
      var list := [];
      var n := 0;
      while n < |filtered|
        invariant 0 <= n <= |filtered|
        invariant list == filtered[..n]
      {
        list := list + [filtered[n]];
        n := n + 1;
      }
      assert filtered[..n] == filtered;
      items, row := list, -1;
      visible := filtered != [];
    }

    /** `set_suggestions_list`. */
    method SetSuggestionsList(newDic: seq<(string, V)>, blank: V)
      requires Valid()
      modifies this
      ensures Valid()
      ensures Abs() == SetSuggestions(old(Abs()), newDic, blank)
    {
      var d := newDic;
      if |d| == 0 {
        d := [(NotFound, blank)];
      }
      suggestions := seq(|d|, k requires 0 <= k < |d| => d[k].0);
      dic := d;
      ShowSuggestions();
    }

    /** `apply_suggestion`. */
    method ApplySuggestion(item: string)
      modifies this
      ensures Abs() == Apply(old(Abs()), item)
    {
      if item != Searching && item != NotFound {
        text := item;
        visible := false;
        applied := Get(dic, item);
      }
    }

    /** `keyPressEvent`. */
    method KeyPress(key: Key)
      requires Valid()
      modifies this
      ensures Valid()
      ensures Abs() == Press(old(Abs()), key)
    {
      OperationsKeepCoherent(Abs(), [], key, false);
      if visible {
        match key {
          case Down =>
            var r := if row + 1 < |items| - 1 then row + 1 else |items| - 1;
            row := if 0 <= r < |items| then r else -1;
          case Up =>
            var r := if row - 1 > 0 then row - 1 else 0;
            row := if 0 <= r < |items| then r else -1;
          case Enter =>
            if row >= 0 {
              ApplySuggestion(items[row]);
            }
          case Escape =>
            visible := false;
          case Other =>
        }
      }
    }

    /** `changeEvent` of the window the box sits in. */
    method ActivationChange(active: bool)
      requires Valid()
      modifies this
      ensures Valid()
      ensures Abs() == Activate(old(Abs()), active)
    {
      if !active {
        onFocus := false;
        visible := false;
      } else {
        onFocus := true;
        if |dic| > 0 {
          ShowSuggestions();
        }
      }
    }
  }
}
