/** What cleaning a text means: the words that are left of it without its control characters,
    joined by single spaces and clamped. */
module SvgWords {
  import opened SvgText

  predicate EndsInWord(s: Text) {
    s != [] && !White(s[|s| - 1])
  }

  /** The maximal runs of units that are no white space. */
  function Words(s: Text): (ws: seq<Text>)
    ensures EndsInWord(s) ==> ws != []
  {
    if s == [] then []
    else
      var front, c := s[..|s| - 1], s[|s| - 1];
      var ws := Words(front);
      if White(c) then ws
      else if EndsInWord(front) then ws[..|ws| - 1] + [ws[|ws| - 1] + [c]]
      else ws + [[c]]
  }

  function Join(ws: seq<Text>): Text {
    if ws == [] then []
    else if |ws| == 1 then ws[0]
    else Join(ws[..|ws| - 1]) + [SPACE] + ws[|ws| - 1]
  }

  lemma WordsOfAppend(s: Text, c: Unit)
    ensures White(c) ==> Words(s + [c]) == Words(s)
    ensures !White(c) && EndsInWord(s) ==>
      Words(s + [c]) == Words(s)[..|Words(s)| - 1] + [Words(s)[|Words(s)| - 1] + [c]]
    ensures !White(c) && !EndsInWord(s) ==> Words(s + [c]) == Words(s) + [[c]]
  {
    assert (s + [c])[..|s + [c]| - 1] == s;
  }

  // ---------------------------------------------------------------- the passes keep the words

  lemma {:induction false} CollapseKeepsWords(s: Text)
    ensures Words(Collapse(s)) == Words(s) && (EndsInWord(Collapse(s)) <==> EndsInWord(s))
  {
    if s != [] {
      var front, last := s[..|s| - 1], s[|s| - 1];
      CollapseKeepsWords(front);
      assert s == front + [last];
      WordsOfAppend(front, last);
      WordsOfAppend(Collapse(front), last);
      WordsOfAppend(Collapse(front), SPACE);
    }
  }

  lemma {:induction false} FirstWhiteDropped(s: Text)
    requires s != [] && White(s[0])
    ensures Words(s) == Words(s[1..])
  {
    var front, last := s[..|s| - 1], s[|s| - 1];
    if front == [] {
      assert s[1..] == [] && Words(front) == [];
    } else {
      FirstWhiteDropped(front);
      assert s[1..] == front[1..] + [last] && s == front + [last];
      WordsOfAppend(front, last);
      WordsOfAppend(front[1..], last);
    }
  }

  lemma {:induction false} TrimStartKeepsWords(s: Text)
    ensures Words(TrimStart(s)) == Words(s)
  {
    if s != [] && White(s[0]) {
      FirstWhiteDropped(s);
      TrimStartKeepsWords(s[1..]);
    }
  }

  lemma {:induction false} TrimEndKeepsWords(s: Text)
    ensures Words(TrimEnd(s)) == Words(s) && (TrimEnd(s) != [] ==> EndsInWord(TrimEnd(s)))
  {
    if s != [] && White(s[|s| - 1]) { TrimEndKeepsWords(s[..|s| - 1]); }
  }

  // ---------------------------------------------------------------- clean text is its words

  lemma JoinOfMore(ws: seq<Text>, w: Text)
    requires ws != []
    ensures Join(ws + [w]) == Join(ws) + [SPACE] + w
  {
    assert (ws + [w])[..|ws + [w]| - 1] == ws;
  }

  lemma JoinOfLonger(front: seq<Text>, w: Text, c: Unit)
    ensures Join(front + [w + [c]]) == Join(front + [w]) + [c]
  {
    if front == [] {
      assert front + [w] == [w] && front + [w + [c]] == [w + [c]];
    } else {
      JoinOfMore(front, w);
      JoinOfMore(front, w + [c]);
      Regroup(Join(front) + [SPACE], w, [c]);
    }
  }

  /** Text that does not start with white space and has only single spaces. */
  ghost predicate Tidy(s: Text) {
    Clean(s) && (s != [] ==> !White(s[0]))
  }

  /** The words joined, with the space that may follow them. */
  function Spaced(s: Text): Text {
    Join(Words(s)) + if s == [] || EndsInWord(s) then [] else [SPACE]
  }

  lemma SpacedWhite(front: Text)
    requires Tidy(front + [SPACE]) && front == Spaced(front)
    ensures Spaced(front + [SPACE]) == front + [SPACE]
  {
    var s := front + [SPACE];
    WordsOfAppend(front, SPACE);
    assert s[0] != SPACE;
    assert front != [];
    assert front[|front| - 1] == s[|front| - 1] && s[|front|] == SPACE;
    assert EndsInWord(front);
    assert Join(Words(front)) == front;
  }

  lemma SpacedLonger(front: Text, c: Unit)
    requires !White(c) && EndsInWord(front) && front == Spaced(front)
    ensures Spaced(front + [c]) == front + [c]
  {
    var ws := Words(front);
    WordsOfAppend(front, c);
    JoinOfLonger(ws[..|ws| - 1], ws[|ws| - 1], c);
    assert ws[..|ws| - 1] + [ws[|ws| - 1]] == ws;
  }

  lemma SpacedMore(front: Text, c: Unit)
    requires !White(c) && Tidy(front) && !EndsInWord(front) && front == Spaced(front)
    ensures Spaced(front + [c]) == front + [c]
  {
    var ws := Words(front);
    WordsOfAppend(front, c);
    if front == [] {
      assert ws + [[c]] == [[c]];
    } else {
      assert front[0] != SPACE;
      assert ws == [] ==> Spaced(front) == [SPACE];
      JoinOfMore(ws, [c]);
    }
  }

  lemma {:induction false} TidyIsJoined(s: Text)
    requires Tidy(s)
    ensures Spaced(s) == s
  {
    if s != [] {
      var front, c := s[..|s| - 1], s[|s| - 1];
      assert s == front + [c];
      SliceIsClean(s, 0, |s| - 1);
      assert s[0..|s| - 1] == front;
      TidyIsJoined(front);
      if White(c) { SpacedWhite(front); }
      else if EndsInWord(front) { SpacedLonger(front, c); }
      else { SpacedMore(front, c); }
    }
  }

  lemma TrimmedIsTidy(b: Text)
    requires Clean(b)
    ensures Tidy(TrimEnd(TrimStart(b)))
  {
    TrimStartIsSuffix(b);
    var k :| 0 <= k <= |b| && TrimStart(b) == b[k..];
    TrimEndIsPrefix(b[k..]);
    PrefixOfSuffix(b, k, TrimEnd(b[k..]));
    SliceIsClean(b, k, k + |TrimEnd(b[k..])|);
  }

  /** The cleaned text is the words of the text without its control characters, in order, with
      one space between two of them, cut at the limit. */
  lemma CleanedIsWords(s: Text, maxLength: nat)
    ensures Cleaned(s, maxLength) == Take(Join(Words(StripControls(s))), maxLength)
  {
    var a := StripControls(s);
    StripLeavesNoControls(s);
    CollapseIsClean(a);
    var t := TrimEnd(TrimStart(Collapse(a)));
    TrimmedIsTidy(Collapse(a));
    TidyIsJoined(t);
    CollapseKeepsWords(a);
    TrimStartKeepsWords(Collapse(a));
    TrimEndKeepsWords(TrimStart(Collapse(a)));
  }

  // ---------------------------------------------------------------- ordinary text

  /** Every unit but controls and white space, by number. */
  predicate Visible(c: Unit) {
    || 0x21 <= c <= 0x7E
    || 0x80 <= c <= 0x9F
    || 0xA1 <= c <= 0x167F
    || 0x1681 <= c <= 0x1FFF
    || 0x200B <= c <= 0x2027
    || 0x202A <= c <= 0x202E
    || 0x2030 <= c <= 0x205E
    || 0x2060 <= c <= 0x2FFF
    || 0x3001 <= c <= 0xFEFE
    || 0xFF00 <= c
  }

  lemma VisibleUnit(c: Unit)
    ensures Visible(c) <==> !Control(c) && !White(c)
  {
  }

  /** Visible units, with single spaces between some of them. */
  ghost predicate Ordinary(s: Text) {
    && (forall i :: 0 <= i < |s| ==> Visible(s[i]) || s[i] == 0x20)
    && (forall i :: 0 <= i < |s| - 1 && s[i] == 0x20 ==> s[i + 1] != 0x20)
    && (s != [] ==> s[0] != 0x20 && s[|s| - 1] != 0x20)
  }

  lemma OrdinaryIsTidy(s: Text)
    ensures Ordinary(s) <==> Tidy(s) && (s == [] || EndsInWord(s))
  {
    forall c: Unit ensures Visible(c) <==> !Control(c) && !White(c) { VisibleUnit(c); }
  }

  /** Stripping drops the control characters wherever they stand, and keeps all other units. */
  lemma {:induction false} StripsPiecewise(a: Text, b: Text)
    ensures StripControls(a + b) == StripControls(a) + StripControls(b)
  {
    if b == [] {
      assert a + b == a;
    } else {
      assert (a + b)[..|a + b| - 1] == a + b[..|b| - 1];
      StripsPiecewise(a, b[..|b| - 1]);
    }
  }

  lemma StripsOne(c: Unit)
    ensures StripControls([c])
         == if 0x00 <= c <= 0x08 || c in {0x0B, 0x0C, 0x7F} || 0x0E <= c <= 0x1F then [] else [c]
  {
    assert [c][..0] == [];
  }

  lemma {:induction false} ControlFree(s: Text)
    requires forall i :: 0 <= i < |s| ==> !Control(s[i])
    ensures StripControls(s) == s
  {
    if s != [] { ControlFree(s[..|s| - 1]); }
  }

  lemma {:induction false} CollapseLeavesClean(s: Text)
    requires Clean(s)
    ensures Collapse(s) == s
  {
    if s != [] {
      CollapseLeavesClean(s[..|s| - 1]);
      if |s| > 1 && s[|s| - 1] == SPACE { assert s[|s| - 2] != SPACE; }
    }
  }

  /** Cleaning leaves a text as it is exactly when it is ordinary and fits. */
  lemma KeptIffOrdinary(s: Text, maxLength: nat)
    ensures Cleaned(s, maxLength) == s <==> Ordinary(s) && |s| <= maxLength
  {
    OrdinaryIsTidy(s);
    CleanedIsClean(s, maxLength);
    if Tidy(s) {
      ControlFree(s);
      CollapseLeavesClean(s);
      TrimEndKeepsWords(s);
      TrimEndIsPrefix(s);
      assert Cleaned(s, maxLength) == Take(TrimEnd(s), maxLength);
    }
  }
}
