/**
 * The string operations of JavaScript and Python that the chart parsers rely
 * on: `split` with a separator string, `Array.prototype.indexOf`, and the
 * tab rewriting `replaceAll('\t', '<TAB>')`.
 */
module Strings {

  /** The field separator the section reader puts where a tab was. */
  const TabMarker: string := "<TAB>"

  /** `pat` occurs somewhere in `s`. */
  predicate Occurs(pat: string, s: string) {
    exists i :: 0 <= i <= |s| && pat <= s[i..]
  }

  /**
   * `s.split(sep)` for a non-empty separator, as JavaScript and Python both
   * define it: the text is cut at the occurrences of `sep` found scanning
   * from the left, without overlap; an empty text gives one empty field.
   */
  function Split(s: string, sep: string): (r: seq<string>)
    requires sep != []
    ensures |r| >= 1
    decreases |s|
  {
    if s == [] then [[]]
    else if sep <= s then [[]] + Split(s[|sep|..], sep)
    else
      var rest := Split(s[1..], sep);
      [[s[0]] + rest[0]] + rest[1..]
  }

  /** `parts.join(sep)`: the inverse of `Split`. */
  function Join(parts: seq<string>, sep: string): string
    requires |parts| >= 1
    decreases |parts|
  {
    if |parts| == 1 then parts[0] else parts[0] + sep + Join(parts[1..], sep)
  }

  /** Splitting and joining again gives back the text. */
  lemma {:induction false} SplitJoin(s: string, sep: string)
    requires sep != []
    ensures Join(Split(s, sep), sep) == s
    decreases |s|
  {
    if s == [] {
    } else if sep <= s {
      SplitJoin(s[|sep|..], sep);
      SplitJoinAtSeparator(s, sep);
    } else {
      SplitJoin(s[1..], sep);
      SplitJoinAtChar(s, sep);
    }
  }

  lemma SplitJoinAtSeparator(s: string, sep: string)
    requires sep != [] && s != [] && sep <= s
    requires Join(Split(s[|sep|..], sep), sep) == s[|sep|..]
    ensures Join(Split(s, sep), sep) == s
  {
    SplitStep(s, sep);
    JoinEmptyHead(Split(s[|sep|..], sep), sep);
    assert s == sep + s[|sep|..];
  }

  lemma SplitJoinAtChar(s: string, sep: string)
    requires sep != [] && s != [] && !(sep <= s)
    requires Join(Split(s[1..], sep), sep) == s[1..]
    ensures Join(Split(s, sep), sep) == s
  {
    SplitStep(s, sep);
    JoinExtendHead(s[0], Split(s[1..], sep), sep);
    assert [s[0]] + s[1..] == s;
  }

  /** One step of `Split` on a non-empty text. */
  lemma SplitStep(s: string, sep: string)
    requires sep != [] && s != []
    ensures sep <= s ==> Split(s, sep) == [[]] + Split(s[|sep|..], sep)
    ensures !(sep <= s) ==> Split(s, sep) == [[s[0]] + Split(s[1..], sep)[0]] + Split(s[1..], sep)[1..]
  {
  }

  /** An empty first field joins as a leading separator. */
  lemma JoinEmptyHead(parts: seq<string>, sep: string)
    requires |parts| >= 1
    ensures Join([[]] + parts, sep) == sep + Join(parts, sep)
  {
    var q := [[]] + parts;
    assert q[1..] == parts;
  }

  /** Putting a character in front of the first field puts it in front of the joined text. */
  lemma JoinExtendHead(c: char, parts: seq<string>, sep: string)
    requires |parts| >= 1
    ensures Join([[c] + parts[0]] + parts[1..], sep) == [c] + Join(parts, sep)
  {
    var q := [[c] + parts[0]] + parts[1..];
    assert q[1..] == parts[1..];
  }

  /** A text in which the separator never occurs is one field. */
  lemma {:induction false} SplitWithoutSeparator(s: string, sep: string)
    requires sep != []
    requires !Occurs(sep, s)
    ensures Split(s, sep) == [s]
    decreases |s|
  {
    if s != [] {
      assert s[0..] == s;
      assert !(sep <= s);
      assert !Occurs(sep, s[1..]) by {
        forall i | 0 <= i <= |s[1..]| ensures !(sep <= s[1..][i..]) {
          assert s[1..][i..] == s[i + 1..];
        }
      }
      SplitWithoutSeparator(s[1..], sep);
      assert [s[0]] + s[1..] == s;
    }
  }

  /** A one-character separator cuts exactly at its first occurrence. */
  lemma {:induction false} SplitAtChar(a: string, c: char, b: string)
    requires c !in a
    ensures Split(a + [c] + b, [c]) == [a] + Split(b, [c])
    decreases |a|
  {
    var s := a + [c] + b;
    if a == [] {
      assert s[1..] == b;
    } else {
      assert s[0] == a[0];
      assert s[1..] == a[1..] + [c] + b;
      SplitAtChar(a[1..], c, b);
      assert [a[0]] + a[1..] == a;
    }
  }

  /** With a one-character separator, a field free of it stays whole. */
  lemma SplitCharAbsent(a: string, c: char)
    requires c !in a
    ensures Split(a, [c]) == [a]
  {
    assert !Occurs([c], a) by {
      forall i | 0 <= i <= |a| ensures !([c] <= a[i..]) {
        if i < |a| {
          assert a[i..][0] == a[i];
        }
      }
    }
    SplitWithoutSeparator(a, [c]);
  }

  /** `s.replaceAll('\t', '<TAB>')`. */
  function ReplaceTabs(s: string): string {
    if s == [] then []
    else (if s[0] == '\t' then TabMarker else [s[0]]) + ReplaceTabs(s[1..])
  }

  /** The rewritten text holds no tab, and a text without tabs is left as it is. */
  lemma {:induction false} ReplaceTabsRemovesTabs(s: string)
    ensures '\t' !in ReplaceTabs(s)
    ensures '\t' !in s ==> ReplaceTabs(s) == s
    decreases |s|
  {
    if s != [] {
      ReplaceTabsRemovesTabs(s[1..]);
      assert ReplaceTabs(s) == (if s[0] == '\t' then TabMarker else [s[0]]) + ReplaceTabs(s[1..]);
      if '\t' !in s {
        assert '\t' !in s[1..];
        assert s == [s[0]] + s[1..];
      }
    }
  }

  /** A prefix free of '<' and tab in the rewritten text was already in the original. */
  lemma {:induction false} ReplaceTabsPrefix(x: string, p: string)
    requires forall k :: 0 <= k < |p| ==> p[k] != '<' && p[k] != '\t'
    requires p <= ReplaceTabs(x)
    ensures p <= x
    decreases |p|
  {
    if p != [] {
      assert x != [];
      assert ReplaceTabs(x)[0] == (if x[0] == '\t' then '<' else x[0]);
      assert x[0] != '\t';
      assert ReplaceTabs(x) == [x[0]] + ReplaceTabs(x[1..]);
      assert p[1..] <= ReplaceTabs(x[1..]);
      ReplaceTabsPrefix(x[1..], p[1..]);
    }
  }

  /** Rewriting cannot make a marker appear in front of a character that was not a tab. */
  lemma NoMarkerAtHead(s: string)
    requires s != [] && s[0] != '\t'
    ensures TabMarker <= ReplaceTabs(s) ==> TabMarker <= s
  {
    var r := ReplaceTabs(s);
    assert r == [s[0]] + ReplaceTabs(s[1..]);
    if TabMarker <= r {
      assert r[0] == TabMarker[0] == '<';
      assert r[1..] == ReplaceTabs(s[1..]);
      assert TabMarker[1..] == "TAB>";
      assert "TAB>" <= ReplaceTabs(s[1..]);
      ReplaceTabsPrefix(s[1..], "TAB>");
      assert TabMarker <= s;
    }
  }

  /**
   * Splitting a rewritten line on "<TAB>" gives the fields the original line
   * has between its tabs, as long as the original holds no literal "<TAB>".
   */
  lemma {:induction false} SplitReplaceTabs(s: string)
    requires !Occurs(TabMarker, s)
    ensures Split(ReplaceTabs(s), TabMarker) == Split(s, "\t")
    decreases |s|
  {
    if s != [] {
      assert s[0..] == s;
      assert !Occurs(TabMarker, s[1..]) by {
        forall i | 0 <= i <= |s[1..]| ensures !(TabMarker <= s[1..][i..]) {
          assert s[1..][i..] == s[i + 1..];
        }
      }
      SplitReplaceTabs(s[1..]);
      var r := ReplaceTabs(s);
      if s[0] == '\t' {
        assert r == TabMarker + ReplaceTabs(s[1..]);
        assert r[|TabMarker|..] == ReplaceTabs(s[1..]);
      } else {
        NoMarkerAtHead(s);
        assert r == [s[0]] + ReplaceTabs(s[1..]);
        assert r[1..] == ReplaceTabs(s[1..]);
      }
    }
  }

  /**
   * `xs.indexOf(x)`: the index of the first element equal to `x`, or -1
   * when there is none.
   */
  function IndexOf(xs: seq<string>, x: string): (r: int)
    ensures -1 <= r < |xs|
    ensures r == -1 <==> x !in xs
    ensures r >= 0 ==> xs[r] == x && x !in xs[..r]
    decreases |xs|
  {
    if xs == [] then -1
    else if xs[0] == x then 0
    else
      var k := IndexOf(xs[1..], x);
      if k == -1 then -1 else k + 1
  }

  /**
   * The text JavaScript hands to `parseInt`/`parseFloat` for `xs[i]`: the
   * element itself, or "undefined" when the index is past the end.
   */
  function Arg(xs: seq<string>, i: int): string {
    if 0 <= i < |xs| then xs[i] else "undefined"
  }
}
