/** Whitespace and case normal forms: the one-pass collapser of commitment/detect.go and
    the split-and-join form of processinquiry/usecase.go, proved to be the same function. */
module Normalize {
  /** Unicode white space as Go's unicode package defines it. */
  predicate IsSpace(c: char) {
    var u := c as int;
    || 9 <= u <= 13 || u == 32 || u == 0x85 || u == 0xA0 || u == 0x1680
    || 0x2000 <= u <= 0x200A || u in {0x2028, 0x2029, 0x202F, 0x205F, 0x3000}
  }

  /** Per-character lower-casing by an arbitrary case map. */
  function ToLower(lower: char -> char, s: string): (r: string)
    ensures |r| == |s| && forall i :: 0 <= i < |s| ==> r[i] == lower(s[i])
  {
    seq(|s|, i requires 0 <= i < |s| => lower(s[i]))
  }

  // ----- splitting and joining -----

  /** Length of the leading run of characters that are not white space. */
  function WordLength(s: string): (n: nat)
    ensures n <= |s|
    ensures forall i :: 0 <= i < n ==> !IsSpace(s[i])
    ensures n < |s| ==> IsSpace(s[n])
  {
    if s == "" || IsSpace(s[0]) then 0 else 1 + WordLength(s[1..])
  }

  function Fields(s: string): seq<string>
    decreases |s|
  {
    if s == "" then []
    else if IsSpace(s[0]) then Fields(s[1..])
    else [s[..WordLength(s)]] + Fields(s[WordLength(s)..])
  }

  function Join(words: seq<string>): string {
    if |words| == 0 then ""
    else if |words| == 1 then words[0]
    else words[0] + " " + Join(words[1..])
  }

  function TrimLeft(s: string): string {
    if s != "" && IsSpace(s[0]) then TrimLeft(s[1..]) else s
  }

  function TrimRight(s: string): string {
    if s != "" && IsSpace(s[|s| - 1]) then TrimRight(s[..|s| - 1]) else s
  }

  function TrimSpace(s: string): string {
    TrimRight(TrimLeft(s))
  }

  /** A body of white space only. */
  predicate Blank(body: string) {
    forall i :: 0 <= i < |body| ==> IsSpace(body[i])
  }

  lemma {:induction false} TrimsToNothingIff(body: string)
    ensures TrimSpace(body) == "" <==> Blank(body)
  {
    LeftTrimsToNothingIff(body);
    var rest := TrimLeft(body);
    if rest != "" {
      RightTrimKeepsFirst(rest);
    }
  }

  lemma {:induction false} LeftTrimsToNothingIff(body: string)
    ensures TrimLeft(body) == "" <==> Blank(body)
    ensures TrimLeft(body) != "" ==> !IsSpace(TrimLeft(body)[0])
  {
    if body != "" && IsSpace(body[0]) {
      LeftTrimsToNothingIff(body[1..]);
      assert forall i :: 0 < i < |body| ==> body[i] == body[1..][i - 1];
    }
  }

  lemma {:induction false} RightTrimKeepsFirst(s: string)
    requires s != "" && !IsSpace(s[0])
    ensures TrimRight(s) != ""
  {
    if |s| > 1 && IsSpace(s[|s| - 1]) {
      RightTrimKeepsFirst(s[..|s| - 1]);
    }
  }

  function ComparableBody(lower: char -> char, s: string): string {
    Join(Fields(ToLower(lower, s)))
  }

  predicate Word(w: string) {
    w != "" && forall i :: 0 <= i < |w| ==> !IsSpace(w[i])
  }

  predicate Words(ws: seq<string>) {
    forall i :: 0 <= i < |ws| ==> Word(ws[i])
  }

  // ----- the effect of one more character -----

  /** The last word grown by one character. */
  function GrowLast(ws: seq<string>, c: char): seq<string>
    requires ws != []
  {
    ws[..|ws| - 1] + [ws[|ws| - 1] + [c]]
  }

  function AtGap(s: string): bool {
    s == "" || IsSpace(s[|s| - 1])
  }

  lemma WordLengthSnoc(s: string, c: char)
    ensures WordLength(s + [c]) ==
            if WordLength(s) < |s| || IsSpace(c) then WordLength(s) else |s| + 1
  {
    if s != "" && !IsSpace(s[0]) {
      assert (s + [c])[1..] == s[1..] + [c];
      WordLengthSnoc(s[1..], c);
    }
  }

  lemma FieldsOfWordThen(w: string, rest: string)
    requires Word(w) && (rest != "" ==> IsSpace(rest[0]))
    ensures Fields(w + rest) == [w] + Fields(rest)
  {
    var s := w + rest;
    var n := WordLength(s);
    assert forall i :: 0 <= i < |w| ==> s[i] == w[i];
    assert rest != "" ==> s[|w|] == rest[0];
    assert n == |w|;
    assert s[..n] == w && s[n..] == rest;
  }

  lemma FieldsOfOne(c: char)
    ensures Fields([c]) == if IsSpace(c) then [] else [[c]]
  {
    assert [c][1..] == "" && [c][..1] == [c];
  }

  lemma UnfinishedWordSnoc(s: string, c: char)
    requires s != "" && WordLength(s) == |s|
    ensures Fields(s) == [s] && Fields(s + [c]) == if IsSpace(c) then [s] else [s + [c]]
  {
    assert s + "" == s && s + [c] + "" == s + [c];
    FieldsOfWordThen(s, "");
    if IsSpace(c) {
      FieldsOfWordThen(s, [c]);
      FieldsOfOne(c);
    } else {
      FieldsOfWordThen(s + [c], "");
    }
  }

  lemma Assoc(a: string, b: string, c: string)
    ensures (a + b) + c == a + (b + c)
  {
  }

  lemma FirstWordSnoc(s: string, c: char, n: nat)
    requires 0 < n == WordLength(s) < |s|
    ensures Fields(s) == [s[..n]] + Fields(s[n..])
    ensures Fields(s + [c]) == [s[..n]] + Fields(s[n..] + [c])
  {
    var w, rest := s[..n], s[n..];
    assert s == w + rest;
    Assoc(w, rest, [c]);
    FieldsOfWordThen(w, rest);
    FieldsOfWordThen(w, rest + [c]);
  }

  lemma {:induction false} FieldsSnoc(s: string, c: char)
    ensures !AtGap(s) ==> Fields(s) != []
    ensures Fields(s + [c]) ==
            if IsSpace(c) then Fields(s)
            else if AtGap(s) then Fields(s) + [[c]]
            else GrowLast(Fields(s), c)
    decreases |s|
  {
    if s == "" {
      assert s + [c] == [c];
      FieldsOfOne(c);
    } else if IsSpace(s[0]) {
      assert (s + [c])[1..] == s[1..] + [c];
      FieldsSnoc(s[1..], c);
    } else if WordLength(s) == |s| {
      UnfinishedWordSnoc(s, c);
    } else {
      var n := WordLength(s);
      var rest := s[n..];
      FirstWordSnoc(s, c, n);
      FieldsSnoc(rest, c);
      assert AtGap(rest) == AtGap(s);
      if !AtGap(rest) {
        GrowLastCons(s[..n], Fields(rest), c);
      }
    }
  }

  lemma GrowLastCons(w: string, ws: seq<string>, c: char)
    requires ws != []
    ensures GrowLast([w] + ws, c) == [w] + GrowLast(ws, c)
  {
  }

  lemma {:induction false} FieldsAreWords(s: string)
    ensures Words(Fields(s))
    decreases |s|
  {
    if s == "" {
    } else if IsSpace(s[0]) {
      FieldsAreWords(s[1..]);
    } else {
      FieldsAreWords(s[WordLength(s)..]);
    }
  }

  lemma {:induction false} JoinSnoc(ws: seq<string>, w: string)
    ensures Join(ws + [w]) == if ws == [] then w else Join(ws) + " " + w
  {
    if |ws| >= 1 {
      assert (ws + [w])[1..] == ws[1..] + [w];
      JoinSnoc(ws[1..], w);
    }
  }

  lemma JoinGrow(ws: seq<string>, c: char)
    requires ws != []
    ensures Join(GrowLast(ws, c)) == Join(ws) + [c]
  {
    var init, last := ws[..|ws| - 1], ws[|ws| - 1];
    assert ws == init + [last];
    JoinSnoc(init, last);
    JoinSnoc(init, last + [c]);
  }

  // ----- what the joined form looks like -----

  /** No white space at either end, none but ' ' inside, and never two in a row. */
  predicate WellSpaced(s: string) {
    && (s != "" ==> !IsSpace(s[0]) && !IsSpace(s[|s| - 1]))
    && forall i :: 0 <= i < |s| && IsSpace(s[i]) ==> s[i] == ' ' && i + 1 < |s| && !IsSpace(s[i + 1])
  }

  lemma {:induction false} JoinIsWellSpaced(ws: seq<string>)
    requires Words(ws)
    ensures WellSpaced(Join(ws))
    ensures ws != [] ==> Join(ws) != ""
  {
    if |ws| >= 2 {
      var w, rest := ws[0], Join(ws[1..]);
      JoinIsWellSpaced(ws[1..]);
      var s := w + " " + rest;
      assert Word(w);
      forall i | 0 <= i < |s| && IsSpace(s[i]) ensures s[i] == ' ' && i + 1 < |s| && !IsSpace(s[i + 1]) {
        if i > |w| {
          assert s[i] == rest[i - |w| - 1];
          assert s[i + 1] == rest[i - |w|];
        } else {
          assert i == |w| && s[i + 1] == rest[0];
        }
      }
    }
  }

  lemma {:induction false} FieldsOfJoin(ws: seq<string>)
    requires Words(ws)
    ensures Fields(Join(ws)) == ws
  {
    if |ws| == 1 {
      FieldsOfWordThen(ws[0], "");
      assert ws[0] + "" == ws[0];
    } else if |ws| >= 2 {
      FieldsOfJoin(ws[1..]);
      var rest := " " + Join(ws[1..]);
      assert Join(ws) == ws[0] + rest;
      FieldsOfWordThen(ws[0], rest);
      assert rest[1..] == Join(ws[1..]);
    }
  }

  lemma TrimmedIsFixed(s: string)
    requires WellSpaced(s)
    ensures TrimSpace(s) == s && (s != "" ==> TrimSpace(s + " ") == s)
  {
    if s != "" {
      var t := s + " ";
      assert t[0] == s[0];
      assert t[..|t| - 1] == s;
    }
  }

  // ----- the one-pass normaliser -----

  /** The builder's content after s: the joined words, and a ' ' once a word has been closed. */
  ghost function Collapsed(s: string): string {
    Join(Fields(s)) + (if AtGap(s) && Fields(s) != [] then " " else "")
  }

  lemma CollapsedSnoc(s: string, c: char)
    ensures Collapsed(s + [c]) ==
            if !IsSpace(c) then Collapsed(s) + [c]
            else if AtGap(s) then Collapsed(s)
            else Collapsed(s) + " "
  {
    FieldsSnoc(s, c);
    if !IsSpace(c) {
      if AtGap(s) {
        JoinSnoc(Fields(s), [c]);
      } else {
        JoinGrow(Fields(s), c);
      }
    }
  }

  lemma CollapsedTrimmed(s: string)
    ensures TrimSpace(Collapsed(s)) == Join(Fields(s))
  {
    FieldsAreWords(s);
    JoinIsWellSpaced(Fields(s));
    TrimmedIsFixed(Join(Fields(s)));
    assert Join(Fields(s)) + "" == Join(Fields(s));
  }

  /** The collapser of detect.go: one pass with a lastSpace flag, then a trim. */
  method NormalizeText(lower: char -> char, s: string) returns (out: string)
    ensures out == ComparableBody(lower, s)
  {
    var t := ToLower(lower, s);
    var b := "";
    var lastSpace := true;
    var i := 0;
    while i < |t|
      invariant 0 <= i <= |t|
      invariant lastSpace == AtGap(t[..i])
      invariant b == Collapsed(t[..i])
    {
      var r := t[i];
      assert t[..i + 1] == t[..i] + [r];
      CollapsedSnoc(t[..i], r);
      if IsSpace(r) {
        if !lastSpace {
          b := b + " ";
          lastSpace := true;
        }
      } else {
        b := b + [r];
        lastSpace := false;
      }
      i := i + 1;
    }
    assert t[..i] == t;
    CollapsedTrimmed(t);
    out := TrimSpace(b);
  }

  lemma NormalFormIsWellSpaced(lower: char -> char, s: string)
    ensures WellSpaced(ComparableBody(lower, s))
  {
    FieldsAreWords(ToLower(lower, s));
    JoinIsWellSpaced(Fields(ToLower(lower, s)));
  }

  predicate IsLower(lower: char -> char, s: string) {
    forall i :: 0 <= i < |s| ==> lower(s[i]) == s[i]
  }

  lemma {:induction false} JoinedStaysLower(lower: char -> char, s: string)
    requires lower(' ') == ' ' && IsLower(lower, s)
    ensures IsLower(lower, Join(Fields(s)))
    decreases |s|
  {
    if s == "" {
    } else if IsSpace(s[0]) {
      JoinedStaysLower(lower, s[1..]);
    } else {
      var w, rest := s[..WordLength(s)], s[WordLength(s)..];
      JoinedStaysLower(lower, rest);
      assert IsLower(lower, w);
      assert Fields(s) == [w] + Fields(rest);
      if Fields(rest) != [] {
        assert Join(Fields(s)) == w + " " + Join(Fields(rest));
      }
    }
  }

  /** Normalising twice is normalising once, whenever the case map is idempotent and keeps ' '. */
  lemma NormalFormIsIdempotent(lower: char -> char, s: string)
    requires lower(' ') == ' ' && forall c :: lower(lower(c)) == lower(c)
    ensures ComparableBody(lower, ComparableBody(lower, s)) == ComparableBody(lower, s)
  {
    var t := ToLower(lower, s);
    var r := Join(Fields(t));
    JoinedStaysLower(lower, t);
    assert ToLower(lower, r) == r;
    FieldsAreWords(t);
    FieldsOfJoin(Fields(t));
  }
}
