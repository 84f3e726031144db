/** Rendering a list of displayable items with a separator between neighbours,
    the way `itertools::join` does for the argument lists and the filter list. */
module Text {

  /** The display strings of `items`, in order. */
  function ShowAll<T>(show: T -> string, items: seq<T>): (r: seq<string>)
    ensures |r| == |items|
    ensures forall i :: 0 <= i < |items| ==> r[i] == show(items[i])
  {
    if |items| == 0 then [] else [show(items[0])] + ShowAll(show, items[1..])
  }

  /** Sum of the lengths of `parts`. */
  function TotalLength(parts: seq<string>): nat
  {
    if |parts| == 0 then 0 else |parts[0]| + TotalLength(parts[1..])
  }

  /** `parts` with `sep` between each pair of neighbours: the empty string for no
      parts, the part itself for one. */
  function Join(parts: seq<string>, sep: string): (s: string)
    ensures |parts| > 0 ==> |s| >= |parts[0]| && s[..|parts[0]|] == parts[0]
    ensures |parts| == 0 ==> s == ""
  {
    if |parts| == 0 then ""
    else if |parts| == 1 then parts[0]
    else parts[0] + sep + Join(parts[1..], sep)
  }

  /** The joined text is every part plus one separator between each pair of
      neighbours, and nothing else. */
  lemma {:induction false} JoinLength(parts: seq<string>, sep: string)
    requires |parts| > 0
    ensures |Join(parts, sep)| == TotalLength(parts) + (|parts| - 1) * |sep|
  {
    if |parts| > 1 {
      JoinLength(parts[1..], sep);
      assert (|parts| - 1) * |sep| == (|parts| - 2) * |sep| + |sep|;
    }
  }

  /** Adding one part at the end adds the separator and that part. */
  lemma {:induction false} JoinSnoc(parts: seq<string>, last: string, sep: string)
    requires |parts| > 0
    ensures Join(parts + [last], sep) == Join(parts, sep) + sep + last
  {
    if |parts| == 1 {
      assert parts + [last] == [parts[0], last];
      assert [parts[0], last][1..] == [last];
    } else {
      var rest := parts[1..];
      assert (parts + [last])[1..] == rest + [last];
      JoinSnoc(rest, last, sep);
    }
  }

  /** Joining two non-empty lists is joining each and putting one separator between. */
  lemma {:induction false} JoinAppend(a: seq<string>, b: seq<string>, sep: string)
    requires |a| > 0 && |b| > 0
    ensures Join(a + b, sep) == Join(a, sep) + sep + Join(b, sep)
    decreases |a|
  {
    if |a| == 1 {
      assert a + b == [a[0]] + b;
      assert ([a[0]] + b)[1..] == b;
    } else {
      assert (a + b)[1..] == a[1..] + b;
      JoinAppend(a[1..], b, sep);
    }
  }

  /** Display strings of a concatenation are the concatenation of display strings. */
  lemma ShowAllAppend<T>(show: T -> string, a: seq<T>, b: seq<T>)
    ensures ShowAll(show, a + b) == ShowAll(show, a) + ShowAll(show, b)
  {
  }

  /** `itertools::join` as written: display the first item, then for every further
      item push the separator and that item's display. */
  method JoinDisplayed<T>(show: T -> string, items: seq<T>, sep: string) returns (s: string)
    ensures s == Join(ShowAll(show, items), sep)
  {
    if |items| == 0 {
      return "";
    }
    s := show(items[0]);
    var i := 1;
    while i < |items|
      invariant 1 <= i <= |items|
      invariant s == Join(ShowAll(show, items[..i]), sep)
    {
      assert items[..i + 1] == items[..i] + [items[i]];
      ShowAllAppend(show, items[..i], [items[i]]);
      assert ShowAll(show, [items[i]]) == [show(items[i])];
      JoinSnoc(ShowAll(show, items[..i]), show(items[i]), sep);
      s := s + sep + show(items[i]);
      i := i + 1;
    }
    assert items[..i] == items;
  }
}
