/** The functions of Go's `strings` package that the core relies on,
    over strings of Unicode scalar values. */
module Strings {

  /** Go's `unicode.IsSpace`: the characters `strings.TrimSpace` removes. */
  predicate IsSpace(c: char) {
    || c == ' ' || c == '\t' || c == '\n' || c == '\U{000B}' || c == '\U{000C}' || c == '\r'
    || c == '\U{0085}' || c == '\U{00A0}' || c == '\U{1680}'
    || ('\U{2000}' <= c <= '\U{200A}')
    || c == '\U{2028}' || c == '\U{2029}' || c == '\U{202F}' || c == '\U{205F}' || c == '\U{3000}'
  }

  /** Number of white-space characters at the start of `s`. */
  function LeadingSpaces(s: string): (n: nat)
    ensures n <= |s|
    ensures forall j :: 0 <= j < n ==> IsSpace(s[j])
    ensures n == |s| || !IsSpace(s[n])
  {
    if s == [] || !IsSpace(s[0]) then 0 else 1 + LeadingSpaces(s[1..])
  }

  /** Number of white-space characters at the end of `s`. */
  function TrailingSpaces(s: string): (n: nat)
    ensures n <= |s|
    ensures forall j :: |s| - n <= j < |s| ==> IsSpace(s[j])
    ensures n == |s| || !IsSpace(s[|s| - 1 - n])
  {
    if s == [] || !IsSpace(s[|s| - 1]) then 0 else 1 + TrailingSpaces(s[..|s| - 1])
  }

  /** `strings.TrimSpace`: `s` without its leading and trailing white space.
      The result is the slice of `s` that starts at the first and ends at
      the last non-space character, and it is empty exactly when `s` is all
      white space. */
  function TrimSpace(s: string): (r: string)
    ensures Contains(s, r)
    ensures r == [] || (!IsSpace(r[0]) && !IsSpace(r[|r| - 1]))
    ensures r == [] <==> forall j :: 0 <= j < |s| ==> IsSpace(s[j])
    ensures exists i :: TrimmedAt(s, r, i)
  {
    var lead := LeadingSpaces(s);
    var t := s[lead..];
    var trail := TrailingSpaces(t);
    var r := t[..|t| - trail];
    assert s[lead..lead + |r|] == r;
    assert r != [] ==> r[0] == s[lead];
    assert forall j :: lead + |r| <= j < |s| ==> IsSpace(s[j]) by {
      forall j | lead + |r| <= j < |s| ensures IsSpace(s[j]) {
        assert s[j] == t[j - lead];
      }
    }
    ContainsAt(s, r, lead);
    assert TrimmedAt(s, r, lead);
    r
  }

  /** The contract of `TrimSpace` pins its result: any slice of `s` with
      only white space around it and no white space at either end is it. */
  lemma TrimSpaceUnique(s: string, r: string, i: nat)
    requires TrimmedAt(s, r, i)
    requires r == [] || (!IsSpace(r[0]) && !IsSpace(r[|r| - 1]))
    ensures r == TrimSpace(s)
  {
    var t := TrimSpace(s);
    if r == [] {
      forall j | 0 <= j < |s| ensures IsSpace(s[j]) {
      }
    } else {
      assert s[i] == r[0];
      var k: nat :| TrimmedAt(s, t, k);
      assert t != [] by {
        assert !IsSpace(s[i]);
      }
      assert s[k] == t[0];
      assert k == i;
      assert s[i + |r| - 1] == r[|r| - 1];
      assert s[k + |t| - 1] == t[|t| - 1];
      assert |t| == |r|;
    }
  }

  /** `r` is the slice of `s` at offset `i`, and everything of `s` before
      and after that slice is white space. */
  predicate TrimmedAt(s: string, r: string, i: nat) {
    && i + |r| <= |s|
    && s[i..i + |r|] == r
    && (forall j :: 0 <= j < i ==> IsSpace(s[j]))
    && (forall j :: i + |r| <= j < |s| ==> IsSpace(s[j]))
  }

  /** `strings.Contains`: `sub` occurs somewhere in `s`. */
  predicate Contains(s: string, sub: string)
    decreases |s|
  {
    sub <= s || (s != [] && Contains(s[1..], sub))
  }

  /** An occurrence at offset `i` makes `Contains` true. */
  lemma {:induction false} ContainsAt(s: string, sub: string, i: nat)
    requires i + |sub| <= |s| && s[i..i + |sub|] == sub
    ensures Contains(s, sub)
  {
    if i == 0 {
      assert sub <= s;
    } else {
      assert s[1..][i - 1..i - 1 + |sub|] == sub;
      ContainsAt(s[1..], sub, i - 1);
    }
  }

  /** `Contains` is true only because of an occurrence at some offset. */
  lemma {:induction false} ContainsWitness(s: string, sub: string) returns (i: nat)
    requires Contains(s, sub)
    ensures i + |sub| <= |s| && s[i..i + |sub|] == sub
    decreases |s|
  {
    if sub <= s {
      i := 0;
    } else {
      var j := ContainsWitness(s[1..], sub);
      assert s[1..][j..j + |sub|] == s[j + 1..j + 1 + |sub|];
      i := j + 1;
    }
  }

  /** The empty string occurs in every string, and only it occurs in the empty string. */
  lemma {:induction false} ContainsEmpty(s: string, sub: string)
    ensures Contains(s, "")
    ensures Contains("", sub) <==> sub == ""
  {
    assert "" <= s;
  }

  /** Containment is transitive: an occurrence inside an occurrence is an occurrence. */
  lemma ContainsTransitive(s: string, mid: string, sub: string)
    requires Contains(s, mid) && Contains(mid, sub)
    ensures Contains(s, sub)
  {
    var i := ContainsWitness(s, mid);
    var j := ContainsWitness(mid, sub);
    forall k | 0 <= k < |sub|
      ensures s[i + j + k] == sub[k]
    {
      assert sub[k] == mid[j..j + |sub|][k] == mid[j + k];
      assert mid[j + k] == s[i..i + |mid|][j + k];
    }
    assert s[i + j..i + j + |sub|] == sub;
    ContainsAt(s, sub, i + j);
  }

  /** Text found in a part of a string is found in the whole. */
  lemma ContainsInside(a: string, s: string, b: string, sub: string)
    requires Contains(s, sub)
    ensures Contains(a + s + b, sub)
  {
    var i := ContainsWitness(s, sub);
    assert (a + s + b)[|a| + i..|a| + i + |sub|] == s[i..i + |sub|];
    ContainsAt(a + s + b, sub, |a| + i);
  }

  /** Text found in a prefix of a string is found in the string. */
  lemma ContainsInPrefix(p: string, s: string, sub: string)
    requires p <= s && Contains(p, sub)
    ensures Contains(s, sub)
  {
    ContainsInside([], p, s[|p|..], sub);
    assert [] + p + s[|p|..] == s;
  }

  /** `strings.HasSuffix`: `s` ends with `suffix`. */
  predicate HasSuffix(s: string, suffix: string) {
    |suffix| <= |s| && s[|s| - |suffix|..] == suffix
  }

  /** The same suffix on two strings: the strings before it are equal, and
      `s + suffix` is the only string that ends with `suffix` after `s`. */
  lemma SuffixCancel(a: string, b: string, suffix: string)
    ensures a + suffix == b + suffix <==> a == b
    ensures HasSuffix(a + suffix, suffix)
  {
    if a + suffix == b + suffix {
      assert a == (a + suffix)[..|a|];
      assert b == (b + suffix)[..|b|];
    }
    assert (a + suffix)[|a|..] == suffix;
  }

  /** `strings.Join`: the items with `sep` between consecutive ones. */
  function Join(items: seq<string>, sep: string): string
  {
    if items == [] then ""
    else if |items| == 1 then items[0]
    else items[0] + sep + Join(items[1..], sep)
  }

  /** Joining two or three items. */
  lemma JoinShort(a: string, b: string, c: string, sep: string)
    ensures Join([a, b], sep) == a + sep + b
    ensures Join([a, b, c], sep) == a + sep + b + sep + c
  {
    assert [a, b][1..] == [b];
    assert [b, c][1..] == [c];
    assert Join([b, c], sep) == b + sep + c;
    assert [a, b, c][1..] == [b, c];
  }

  /** Appending an item to a non-empty list adds the separator and the item at the end. */
  lemma {:induction false} JoinSnoc(items: seq<string>, sep: string, last: string)
    ensures Join(items + [last], sep) == if items == [] then last else Join(items, sep) + sep + last
  {
    if |items| >= 2 {
      assert (items + [last])[1..] == items[1..] + [last];
      JoinSnoc(items[1..], sep, last);
    } else if |items| == 1 {
      assert (items + [last])[1..] == [last];
    }
  }

  /** Every item is found in the joined string. */
  lemma {:induction false} JoinContainsItem(items: seq<string>, sep: string, k: nat)
    requires k < |items|
    ensures Contains(Join(items, sep), items[k])
  {
    if |items| == 1 {
      ContainsAt(items[0], items[0], 0);
    } else if k == 0 {
      ContainsAt(items[0] + sep + Join(items[1..], sep), items[0], 0);
    } else {
      JoinContainsItem(items[1..], sep, k - 1);
      ContainsInside(items[0] + sep, Join(items[1..], sep), [], items[k]);
      assert items[0] + sep + Join(items[1..], sep) + [] == Join(items, sep);
    }
  }

  /** `strings.Split(s, ",")`: the pieces between commas; an empty `s`
      gives one empty piece. */
  function SplitComma(s: string): (pieces: seq<string>)
    ensures |pieces| >= 1
    ensures forall k :: 0 <= k < |pieces| ==> ',' !in pieces[k]
    decreases |s|
  {
    if s == [] then [""]
    else
      var rest := SplitComma(s[1..]);
      if s[0] == ',' then [""] + rest
      else [[s[0]] + rest[0]] + rest[1..]
  }

  /** Every character of a piece is a character of the split string. */
  lemma {:induction false} SplitCommaChars(s: string, k: nat, c: char)
    requires k < |SplitComma(s)| && c in SplitComma(s)[k]
    ensures c in s
    decreases |s|
  {
    var rest := SplitComma(s[1..]);
    if s[0] == ',' {
      assert SplitComma(s)[k] == rest[k - 1];
      SplitCommaChars(s[1..], k - 1, c);
    } else if k == 0 {
      if c != s[0] {
        assert c in rest[0];
        SplitCommaChars(s[1..], 0, c);
      }
    } else {
      assert SplitComma(s)[k] == rest[k];
      SplitCommaChars(s[1..], k, c);
    }
  }

  /** Joining the pieces with commas gives back the argument. */
  lemma {:induction false} SplitCommaJoin(s: string)
    ensures Join(SplitComma(s), ",") == s
    decreases |s|
  {
    if s != [] {
      var rest := SplitComma(s[1..]);
      SplitCommaJoin(s[1..]);
      if s[0] == ',' {
        assert ([""] + rest)[1..] == rest;
      } else {
        var pieces := [[s[0]] + rest[0]] + rest[1..];
        if |rest| == 1 {
          assert pieces == [[s[0]] + rest[0]];
        } else {
          assert pieces[1..] == rest[1..];
          assert Join(rest, ",") == rest[0] + "," + Join(rest[1..], ",");
        }
      }
    }
  }

  /** Splitting a comma-joined list of comma-free pieces gives back the pieces. */
  lemma {:induction false} JoinSplitComma(pieces: seq<string>)
    requires |pieces| >= 1
    requires forall k :: 0 <= k < |pieces| ==> ',' !in pieces[k]
    ensures SplitComma(Join(pieces, ",")) == pieces
  {
    if |pieces| == 1 {
      SplitCommaFree(pieces[0], []);
    } else {
      JoinSplitComma(pieces[1..]);
      SplitCommaFree(pieces[0], pieces[1..]);
      assert [pieces[0]] + pieces[1..] == pieces;
    }
  }

  /** A comma-free head followed by a comma splits as that head and the rest. */
  lemma {:induction false} SplitCommaFree(head: string, tail: seq<string>)
    requires ',' !in head
    requires tail != [] ==> SplitComma(Join(tail, ",")) == tail
    ensures SplitComma(if tail == [] then head else head + "," + Join(tail, ",")) == [head] + tail
    decreases |head|
  {
    var s := if tail == [] then head else head + "," + Join(tail, ",");
    if head == [] {
      if tail != [] {
        assert s[0] == ',' && s[1..] == Join(tail, ",");
      }
    } else {
      SplitCommaFree(head[1..], tail);
      var s' := if tail == [] then head[1..] else head[1..] + "," + Join(tail, ",");
      assert s[0] == head[0] && s[1..] == s';
      assert [head[0]] + head[1..] == head;
    }
  }
}
