/** String helpers the plugin's messages are built from. */
module Text {

  /** `sub` occurs in `s` starting at index `i`. */
  predicate OccursAt(s: string, sub: string, i: nat) {
    i + |sub| <= |s| && s[i..i + |sub|] == sub
  }

  predicate Contains(s: string, sub: string) {
    exists i: nat | i <= |s| :: OccursAt(s, sub, i)
  }

  /** .NET's `string.Join(sep, items)`: the items with `sep` between neighbours. */
  function Join(sep: string, items: seq<string>): (s: string)
    ensures items == [] ==> s == ""
    ensures |items| > 0 ==> OccursAt(s, items[0], 0)
    ensures |items| > 1 ==> OccursAt(s, sep, |items[0]|)
  {
    if |items| == 0 then ""
    else if |items| == 1 then items[0]
    else items[0] + sep + Join(sep, items[1..])
  }

  /** A joined text ends with the last item. */
  lemma {:induction false} JoinEndsWithLast(sep: string, items: seq<string>)
    requires |items| > 0
    ensures var s, last := Join(sep, items), items[|items| - 1];
      |last| <= |s| && OccursAt(s, last, |s| - |last|)
  {
    if |items| > 1 {
      var rest := Join(sep, items[1..]);
      JoinEndsWithLast(sep, items[1..]);
      var s, last := items[0] + sep + rest, items[|items| - 1];
      assert last == items[1..][|items[1..]| - 1];
      assert s[|s| - |last|..] == rest[|rest| - |last|..];
    }
  }

  /** Cuts `s` at every occurrence of `sep`, scanning left to right. */
  function Split(s: string, sep: string): (parts: seq<string>)
    requires |sep| > 0
    ensures |parts| > 0
    decreases |s|
  {
    if |s| == 0 then [""]
    else if |sep| <= |s| && s[..|sep|] == sep then [""] + Split(s[|sep|..], sep)
    else
      var rest := Split(s[1..], sep);
      [[s[0]] + rest[0]] + rest[1..]
  }

  /** A string without the separator's first character is not cut. */
  lemma {:induction false} SplitWhole(item: string, sep: string)
    requires |sep| > 0 && sep[0] !in item
    ensures Split(item, sep) == [item]
  {
    if |item| > 0 {
      assert item[0] != sep[0];
      SplitWhole(item[1..], sep);
      assert [item[0]] + item[1..] == item;
    }
  }

  /** Such a string followed by the separator is cut exactly after it. */
  lemma {:induction false} SplitFirst(item: string, sep: string, rest: string)
    requires |sep| > 0 && sep[0] !in item
    ensures Split(item + sep + rest, sep) == [item] + Split(rest, sep)
  {
    var s := item + sep + rest;
    if |item| == 0 {
      assert s == sep + rest;
      assert s[..|sep|] == sep && s[|sep|..] == rest;
    } else {
      assert s[0] == item[0] != sep[0];
      assert s[1..] == item[1..] + sep + rest;
      SplitFirst(item[1..], sep, rest);
      assert [item[0]] + item[1..] == item;
    }
  }

  /** Joining items free of the separator's first character can be undone by splitting. */
  lemma {:induction false} SplitJoin(sep: string, items: seq<string>)
    requires |sep| > 0 && |items| > 0
    requires forall i :: 0 <= i < |items| ==> sep[0] !in items[i]
    ensures Split(Join(sep, items), sep) == items
  {
    if |items| == 1 {
      SplitWhole(items[0], sep);
    } else {
      var rest := Join(sep, items[1..]);
      assert Join(sep, items) == items[0] + sep + rest;
      SplitFirst(items[0], sep, rest);
      SplitJoin(sep, items[1..]);
      assert [items[0]] + items[1..] == items;
    }
  }
}
