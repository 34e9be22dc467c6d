/** The prompt-injection guard rails (internal/application/promptsafety/detect.go):
    the pattern scan, and the wrapper that fences untrusted text between an opening
    and a closing tag after scrubbing the closing tag from the text. */
module PromptSafety {
  import opened Domain

  /** What every closing tag found inside the text is replaced with. */
  const MARKER := "[closing-tag-removed]"

  /** One row of the injection table; the regular expression is an arbitrary predicate. */
  datatype NamedPattern = NamedPattern(name: string, matches: string -> bool)

  function DetectWithPattern(table: seq<NamedPattern>, text: string): Option<string>
    decreases |table|
  {
    if text == "" || table == [] then None
    else if table[0].matches(text) then Some(table[0].name)
    else DetectWithPattern(table[1..], text)
  }

  /** The hit is the first row that matches a non-empty text. */
  lemma {:induction false} FirstRowIff(table: seq<NamedPattern>, text: string)
    ensures DetectWithPattern(table, text).Some? <==>
            text != "" && exists j :: 0 <= j < |table| && table[j].matches(text)
    ensures DetectWithPattern(table, text).Some? ==>
            exists j :: 0 <= j < |table| && table[j].matches(text) && DetectWithPattern(table, text).value == table[j].name
                        && forall h :: 0 <= h < j ==> !table[h].matches(text)
  {
    if text != "" && table != [] && !table[0].matches(text) {
      var rest := table[1..];
      FirstRowIff(rest, text);
      if DetectWithPattern(rest, text).Some? {
        var j :| 0 <= j < |rest| && rest[j].matches(text) && DetectWithPattern(rest, text).value == rest[j].name
                 && forall h :: 0 <= h < j ==> !rest[h].matches(text);
        assert table[j + 1] == rest[j];
        forall h | 0 <= h < j + 1 ensures !table[h].matches(text) {
          assert h > 0 ==> table[h] == rest[h - 1];
        }
      } else {
        forall h | 0 <= h < |table| ensures !table[h].matches(text) {
          assert h > 0 ==> table[h] == rest[h - 1];
        }
      }
    }
  }

  // ----- substring search and replacement -----

  predicate OccursAt(s: string, p: string, i: int) {
    0 <= i <= |s| - |p| && forall k | 0 <= k < |p| :: s[i + k] == p[k]
  }

  predicate Contains(s: string, p: string) {
    exists i | 0 <= i <= |s| :: OccursAt(s, p, i)
  }

  /** Left-to-right, non-overlapping replacement of a non-empty substring. */
  function ReplaceAll(s: string, from: string, to: string): string
    requires |from| > 0
  {
    if |s| < |from| then s
    else if OccursAt(s, from, 0) then to + ReplaceAll(s[|from|..], from, to)
    else [s[0]] + ReplaceAll(s[1..], from, to)
  }

  function NeutralizeWith(body: string, closeTag: string, to: string): string
    requires |closeTag| > 0
  {
    if !Contains(body, closeTag) then body else ReplaceAll(body, closeTag, to)
  }

  function NeutralizeClosingTag(body: string, closeTag: string): string
    requires |closeTag| > 0
  {
    NeutralizeWith(body, closeTag, MARKER)
  }

  // ----- the wrapper -----

  function EffectiveLabel(tag: string): string {
    if tag == "" then "untrusted" else tag
  }

  function OpenTag(tag: string): string {
    "<" + EffectiveLabel(tag) + ">"
  }

  function CloseTag(tag: string): string {
    "</" + EffectiveLabel(tag) + ">"
  }

  function Wrapped(tag: string, text: string): string {
    OpenTag(tag) + "\n" + NeutralizeClosingTag(text, CloseTag(tag)) + "\n" + CloseTag(tag)
  }

  method Wrap(tag: string, text: string) returns (out: string)
    ensures out == Wrapped(tag, text)
  {
    var name := tag;
    if name == "" {
      name := "untrusted";
    }
    var openTag := "<" + name + ">";
    var closeTag := "</" + name + ">";
    out := [];
    out := out + openTag;
    out := out + "\n";
    out := out + NeutralizeClosingTag(text, closeTag);
    out := out + "\n";
    out := out + closeTag;
  }

  /** An empty label is fenced as untrusted text, any other by its own name. */
  lemma FenceNamesLabel(tag: string)
    ensures OpenTag("") == "<untrusted>" && CloseTag("") == "</untrusted>"
    ensures tag != "" ==> OpenTag(tag) == "<" + tag + ">" && CloseTag(tag) == "</" + tag + ">"
  {
  }

  /** p occurs in s exactly once, and that occurrence is the end of s. */
  ghost predicate OnlyAtEnd(s: string, p: string) {
    OccursAt(s, p, |s| - |p|) && forall i :: OccursAt(s, p, i) ==> i == |s| - |p|
  }

  // ----- replacement creates no new closing tag -----

  lemma OccursInTail(a: string, b: string, p: string, i: int)
    requires |a| <= i
    ensures OccursAt(a + b, p, i) <==> OccursAt(b, p, i - |a|)
  {
    var s := a + b;
    if OccursAt(s, p, i) {
      forall k | 0 <= k < |p| ensures b[i - |a| + k] == p[k] {
        assert s[i + k] == p[k];
      }
    }
    if OccursAt(b, p, i - |a|) {
      forall k | 0 <= k < |p| ensures s[i + k] == p[k] {
        assert b[i - |a| + k] == p[k];
      }
    }
  }

  ghost predicate SamePrefix(s: string, r: string, n: nat) {
    n <= |s| && n <= |r| && forall k :: 0 <= k < n ==> s[k] == r[k]
  }

  /** The first n characters of r hold a whole occurrence of p. */
  ghost predicate Within(r: string, p: string, n: nat) {
    exists j: nat :: j + |p| <= n && OccursAt(r, p, j)
  }

  /** A prefix of the replaced text that ends in '>' was either copied unchanged or
      swallowed a whole marker: it cannot end inside one. */
  lemma {:induction false} PrefixCopiedOrMarked(s: string, from: string, to: string, n: nat)
    requires |from| > 0 && '>' !in to
    requires 0 < n <= |ReplaceAll(s, from, to)| && ReplaceAll(s, from, to)[n - 1] == '>'
    ensures
      var r := ReplaceAll(s, from, to);
      SamePrefix(s, r, n) || Within(r, to, n)
    decreases |s|
  {
    var r := ReplaceAll(s, from, to);
    if |s| < |from| {
    } else if OccursAt(s, from, 0) {
      assert n > |to|;
      assert OccursAt(r, to, 0);
    } else if n > 1 {
      var t := ReplaceAll(s[1..], from, to);
      assert r == [s[0]] + t;
      PrefixCopiedOrMarked(s[1..], from, to, n - 1);
      if Within(t, to, n - 1) {
        var j: nat :| j + |to| <= n - 1 && OccursAt(t, to, j);
        OccursInTail([s[0]], t, to, j + 1);
      } else {
        assert forall k :: 0 < k < n ==> s[k] == s[1..][k - 1] == t[k - 1] == r[k];
      }
    }
  }

  /** At a position the scan copied, a tag that was not there before holds the marker. */
  lemma NewTagHoldsMarker(s: string, closeTag: string, to: string)
    requires '>' !in to
    requires |closeTag| > 1 && closeTag[|closeTag| - 1] == '>'
    requires |s| >= |closeTag| && !OccursAt(s, closeTag, 0)
    requires OccursAt(ReplaceAll(s, closeTag, to), closeTag, 0)
    ensures Contains(closeTag, to)
  {
    var r := ReplaceAll(s, closeTag, to);
    var m := |closeTag|;
    assert r[0 + (m - 1)] == closeTag[m - 1];
    PrefixCopiedOrMarked(s, closeTag, to, m);
    assert !SamePrefix(s, r, m) by {
      assert forall k :: 0 <= k < m ==> r[0 + k] == closeTag[k];
    }
    var j: nat :| j + |to| <= m && OccursAt(r, to, j);
    forall k | 0 <= k < |to| ensures closeTag[j + k] == to[k] {
      assert r[0 + (j + k)] == closeTag[j + k];
    }
    assert OccursAt(closeTag, to, j);
  }

  /** A closing tag in the replaced text must itself hold the marker. */
  lemma {:induction false} OccurrenceHoldsMarker(s: string, closeTag: string, to: string, j: nat)
    requires '<' !in to && '>' !in to
    requires |closeTag| > 1 && closeTag[0] == '<' && closeTag[|closeTag| - 1] == '>'
    requires OccursAt(ReplaceAll(s, closeTag, to), closeTag, j)
    ensures Contains(closeTag, to)
    decreases |s|
  {
    var r := ReplaceAll(s, closeTag, to);
    var m := |closeTag|;
    if |s| < m {
    } else if OccursAt(s, closeTag, 0) {
      assert r[j + 0] == closeTag[0];
      assert j >= |to|;
      OccursInTail(to, ReplaceAll(s[m..], closeTag, to), closeTag, j);
      OccurrenceHoldsMarker(s[m..], closeTag, to, j - |to|);
    } else if j > 0 {
      OccursInTail([s[0]], ReplaceAll(s[1..], closeTag, to), closeTag, j);
      OccurrenceHoldsMarker(s[1..], closeTag, to, j - 1);
    } else {
      NewTagHoldsMarker(s, closeTag, to);
    }
  }

  lemma MarkerInTagIsInLabel(tag: string, i: int)
    requires OccursAt(CloseTag(tag), MARKER, i)
    ensures OccursAt(EffectiveLabel(tag), MARKER, i - 2)
  {
    var c := CloseTag(tag);
    var l := EffectiveLabel(tag);
    assert c == "</" + l + ">";
    assert c[i + 0] == MARKER[0] && c[i + (|MARKER| - 1)] == MARKER[|MARKER| - 1];
    forall k | 0 <= k < |MARKER| ensures l[i - 2 + k] == MARKER[k] {
      assert c[i + k] == MARKER[k];
    }
  }

  /** Neutralised text never holds the closing tag, for a label without the marker. */
  lemma NeutralizedIsClean(tag: string, text: string)
    requires !Contains(EffectiveLabel(tag), MARKER)
    ensures !Contains(NeutralizeClosingTag(text, CloseTag(tag)), CloseTag(tag))
  {
    var c := CloseTag(tag);
    var n := NeutralizeClosingTag(text, c);
    if Contains(n, c) {
      var j :| 0 <= j <= |n| && OccursAt(n, c, j);
      OccurrenceHoldsMarker(text, c, MARKER, j);
      var i :| 0 <= i <= |c| && OccursAt(c, MARKER, i);
      MarkerInTagIsInLabel(tag, i);
      assert false;
    }
  }

  /** The scan copies everything before the first occurrence. */
  lemma {:induction false} ScanCopiesTo(s: string, from: string, to: string, n: nat)
    requires |from| > 0 && n + |from| <= |s|
    requires forall i :: 0 <= i < n ==> !OccursAt(s, from, i)
    ensures ReplaceAll(s, from, to) == s[..n] + ReplaceAll(s[n..], from, to)
  {
    if n == 0 {
      assert s[0..] == s;
    } else {
      ScanCopiesTo(s, from, to, n - 1);
      var t := s[n - 1..];
      assert !OccursAt(t, from, 0) by {
        OccursInTail(s[..n - 1], t, from, n - 1);
        assert s == s[..n - 1] + t;
      }
      assert t[1..] == s[n..];
      assert s[..n] == s[..n - 1] + [t[0]];
    }
  }

  lemma ReplaceOne(s: string, from: string, to: string, n: nat)
    requires |from| > 0 && OccursAt(s, from, n) && |s| - n - |from| < |from|
    requires forall i :: 0 <= i < n ==> !OccursAt(s, from, i)
    ensures ReplaceAll(s, from, to) == s[..n] + to + s[n + |from|..]
  {
    ScanCopiesTo(s, from, to, n);
    var t := s[n..];
    assert OccursAt(t, from, 0) by {
      assert s == s[..n] + t;
      OccursInTail(s[..n], t, from, n);
    }
    assert t[|from|..] == s[n + |from|..];
    assert ReplaceAll(t, from, to) == to + t[|from|..];
  }

  lemma {:induction false} NothingToReplace(s: string, from: string, to: string)
    requires |from| > 0 && !Contains(s, from)
    ensures ReplaceAll(s, from, to) == s
  {
    if |s| >= |from| {
      var n := |s| - |from|;
      forall i | 0 <= i <= n ensures !OccursAt(s, from, i) {
        assert 0 <= i <= |s|;
      }
      assert !OccursAt(s, from, 0);
      NothingInTail(s, from);
      NothingToReplace(s[1..], from, to);
      assert s == [s[0]] + s[1..];
    }
  }

  lemma NothingInTail(s: string, from: string)
    requires |from| > 0 && s != "" && !Contains(s, from)
    ensures !Contains(s[1..], from)
  {
    forall i | 0 <= i <= |s| - 1 ensures !OccursAt(s[1..], from, i) {
      assert s == [s[0]] + s[1..];
      OccursInTail([s[0]], s[1..], from, i + 1);
      assert !OccursAt(s, from, i + 1);
    }
  }

  /** Scrubbing replaces the first closing tag by the marker, keeps what stands before it, and goes
      on behind it; text without one is left as it is. */
  lemma ScrubbingMarksEachTag(body: string, closeTag: string, n: nat)
    requires |closeTag| > 0
    ensures !Contains(body, closeTag) ==> NeutralizeClosingTag(body, closeTag) == body
    ensures OccursAt(body, closeTag, n) && (forall i :: 0 <= i < n ==> !OccursAt(body, closeTag, i)) ==>
            NeutralizeClosingTag(body, closeTag)
            == body[..n] + MARKER + NeutralizeClosingTag(body[n + |closeTag|..], closeTag)
  {
    if OccursAt(body, closeTag, n) && forall i :: 0 <= i < n ==> !OccursAt(body, closeTag, i) {
      assert Contains(body, closeTag);
      ScanCopiesTo(body, closeTag, MARKER, n);
      var t, rest := body[n..], body[n + |closeTag|..];
      assert body == body[..n] + t;
      OccursInTail(body[..n], t, closeTag, n);
      assert t[|closeTag|..] == rest;
      if !Contains(rest, closeTag) {
        NothingToReplace(rest, closeTag, MARKER);
      }
    }
  }

  ghost function FirstOccurrence(s: string, p: string): (i: nat)
    requires Contains(s, p)
    ensures OccursAt(s, p, i) && forall j :: 0 <= j < i ==> !OccursAt(s, p, j)
  {
    var k :| 0 <= k <= |s| && OccursAt(s, p, k);
    EarliestUpTo(s, p, k)
  }

  ghost function EarliestUpTo(s: string, p: string, k: nat): (i: nat)
    requires OccursAt(s, p, k)
    ensures OccursAt(s, p, i) && forall j :: 0 <= j < i ==> !OccursAt(s, p, j)
    decreases k
  {
    if j: nat :| j < k && OccursAt(s, p, j) then EarliestUpTo(s, p, j) else k
  }

  /** The text that escapes: it splits a closing tag around the label's own marker. */
  ghost function Smuggler(tag: string): string
    requires Contains(EffectiveLabel(tag), MARKER)
  {
    var l := EffectiveLabel(tag);
    var a := FirstOccurrence(l, MARKER);
    "</" + l[..a] + (CloseTag(tag) + (l[a + |MARKER|..] + ">"))
  }

  /** No closing tag starts before the planted one: it would bring the marker forward. */
  lemma NothingBeforePlanted(tag: string, p: string, q: string, i: nat)
    requires CloseTag(tag) == p + MARKER + q && i < |p|
    requires forall j :: 0 <= j < |p| - 2 ==> !OccursAt(EffectiveLabel(tag), MARKER, j)
    ensures !OccursAt(p + (CloseTag(tag) + q), CloseTag(tag), i)
  {
    var c := CloseTag(tag);
    var text := p + (c + q);
    if OccursAt(text, c, i) {
      forall k | 0 <= k < |MARKER| ensures c[i + k] == MARKER[k] {
        assert text[i + (|p| + k)] == c[|p| + k] == MARKER[k];
      }
      MarkerInTagIsInLabel(tag, i);
      assert false;
    }
  }

  lemma PlantedTagIsRebuilt(c: string, p: string, to: string, q: string)
    requires c == p + to + q && |q| < |c|
    requires forall i :: 0 <= i < |p| ==> !OccursAt(p + (c + q), c, i)
    ensures NeutralizeWith(p + (c + q), c, to) == c
  {
    hide ReplaceAll;
    var text := p + (c + q);
    OccursInTail(p, c + q, c, |p|);
    ReplaceOne(text, c, to, |p|);
    assert text[..|p|] == p && text[|p| + |c|..] == q;
  }

  lemma SplitAtMarker(l: string, f: nat)
    requires OccursAt(l, MARKER, f)
    ensures l == l[..f] + MARKER + l[f + |MARKER|..]
  {
    assert forall k :: 0 <= k < |MARKER| ==> l[f + k] == MARKER[k];
  }

  /** With the marker inside the label the replacement rebuilds the closing tag. */
  lemma MarkerLabelEscapes(tag: string)
    requires Contains(EffectiveLabel(tag), MARKER)
    ensures NeutralizeClosingTag(Smuggler(tag), CloseTag(tag)) == CloseTag(tag)
  {
    var l := EffectiveLabel(tag);
    var f := FirstOccurrence(l, MARKER);
    var p := "</" + l[..f];
    var q := l[f + |MARKER|..] + ">";
    SplitAtMarker(l, f);
    assert CloseTag(tag) == p + MARKER + q;
    forall i | 0 <= i < |p| ensures !OccursAt(p + (CloseTag(tag) + q), CloseTag(tag), i) {
      NothingBeforePlanted(tag, p, q, i);
    }
    PlantedTagIsRebuilt(CloseTag(tag), p, MARKER, q);
  }

  lemma CharOfOccurrence(s: string, p: string, i: int, at: int)
    requires OccursAt(s, p, i) && i <= at < i + |p|
    ensures s[at] in p
  {
    assert s[i + (at - i)] == p[at - i];
  }

  /** Without a newline in the label, an occurrence sits in the text or at the very end. */
  lemma OccurrenceInsideOrAtEnd(tag: string, text: string, i: int)
    requires '\n' !in EffectiveLabel(tag)
    requires OccursAt(Wrapped(tag, text), CloseTag(tag), i)
    ensures
      var n := NeutralizeClosingTag(text, CloseTag(tag));
      || i == |Wrapped(tag, text)| - |CloseTag(tag)|
      || OccursAt(n, CloseTag(tag), i - |OpenTag(tag)| - 1)
  {
    var w := Wrapped(tag, text);
    var c := CloseTag(tag);
    var o := |OpenTag(tag)|;
    var n := NeutralizeClosingTag(text, c);
    assert w[o] == '\n' && w[o + 1 + |n|] == '\n';
    assert '\n' !in c;
    forall at | i <= at < i + |c| ensures w[at] in c {
      CharOfOccurrence(w, c, i, at);
    }
    if i < o + 1 + |n| {
      forall k | 0 <= k < |c| ensures n[i - o - 1 + k] == c[k] {
        assert w[i + k] == c[k];
      }
    }
  }

  /** Wrapping text that holds no closing tag is undone by cutting at the first one. */
  lemma CleanTextRoundTrips(tag: string, text: string)
    requires '\n' !in EffectiveLabel(tag) && !Contains(text, CloseTag(tag))
    ensures OnlyAtEnd(Wrapped(tag, text), CloseTag(tag))
    ensures
      var w := Wrapped(tag, text);
      w[|OpenTag(tag)| + 1..|w| - |CloseTag(tag)| - 1] == text
  {
    var w := Wrapped(tag, text);
    var c := CloseTag(tag);
    forall i | OccursAt(w, c, i) ensures i == |w| - |c| {
      OccurrenceInsideOrAtEnd(tag, text, i);
    }
    assert OccursAt(w, c, |w| - |c|);
  }

  /** The fence holds for every text if and only if the label does not hold the marker. */
  lemma WrapFencesIff(tag: string)
    requires '\n' !in EffectiveLabel(tag)
    ensures
      (forall text: string :: OnlyAtEnd(Wrapped(tag, text), CloseTag(tag)))
      <==> !Contains(EffectiveLabel(tag), MARKER)
  {
    var c := CloseTag(tag);
    if Contains(EffectiveLabel(tag), MARKER) {
      var text := Smuggler(tag);
      var w := Wrapped(tag, text);
      MarkerLabelEscapes(tag);
      var o := |OpenTag(tag)|;
      assert w == OpenTag(tag) + "\n" + c + "\n" + c;
      assert OccursAt(w, c, o + 1);
      assert !OnlyAtEnd(w, c);
    } else {
      forall text: string ensures OnlyAtEnd(Wrapped(tag, text), c) {
        var w := Wrapped(tag, text);
        NeutralizedIsClean(tag, text);
        assert OccursAt(w, c, |w| - |c|);
        forall i | OccursAt(w, c, i) ensures i == |w| - |c| {
          OccurrenceInsideOrAtEnd(tag, text, i);
        }
      }
    }
  }
}
