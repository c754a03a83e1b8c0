/** Making text safe for SVG: clean, clamp, then five sequential replacements. Text is a
    sequence of UTF-16 code units, as the program's strings are. */
module SvgText {

  type Unit = c: nat | c < 0x1_0000
  type Text = seq<Unit>

  const SPACE: Unit := 0x20
  const QUOT: Unit := 0x22
  const AMP: Unit := 0x26
  const APOS: Unit := 0x27
  const LT: Unit := 0x3C
  const GT: Unit := 0x3E

  // The five references, spelled in code units.
  const AMP_REF: Text := [38, 97, 109, 112, 59]            // &amp;
  const LT_REF: Text := [38, 108, 116, 59]                 // &lt;
  const GT_REF: Text := [38, 103, 116, 59]                 // &gt;
  const QUOT_REF: Text := [38, 113, 117, 111, 116, 59]     // &quot;
  const APOS_REF: Text := [38, 35, 51, 57, 59]             // &#39;

  /** The control characters the program strips: all below space but tab, line feed and
      carriage return, and delete. */
  predicate Control(c: Unit) {
    c <= 0x08 || c == 0x0B || c == 0x0C || 0x0E <= c <= 0x1F || c == 0x7F
  }

  /** White space as regular expressions and trim() understand it. */
  predicate White(c: Unit) {
    0x09 <= c <= 0x0D || c == 0x20 || c == 0xA0 || c == 0x1680 || 0x2000 <= c <= 0x200A
    || c == 0x2028 || c == 0x2029 || c == 0x202F || c == 0x205F || c == 0x3000 || c == 0xFEFF
  }

  // ---------------------------------------------------------------- cleaning

  function StripControls(s: Text): Text {
    if s == [] then []
    else StripControls(s[..|s| - 1]) + if Control(s[|s| - 1]) then [] else [s[|s| - 1]]
  }

  /** Every maximal run of white space becomes one space. */
  function Collapse(s: Text): Text {
    if s == [] then []
    else
      var front, last := Collapse(s[..|s| - 1]), s[|s| - 1];
      if !White(last) then front + [last]
      else if |s| > 1 && White(s[|s| - 2]) then front
      else front + [SPACE]
  }

  function TrimStart(s: Text): Text {
    if s != [] && White(s[0]) then TrimStart(s[1..]) else s
  }

  function TrimEnd(s: Text): Text {
    if s != [] && White(s[|s| - 1]) then TrimEnd(s[..|s| - 1]) else s
  }

  function Take(s: Text, n: nat): Text {
    if |s| <= n then s else s[..n]
  }

  function Cleaned(s: Text, maxLength: nat): Text {
    Take(TrimEnd(TrimStart(Collapse(StripControls(s)))), maxLength)
  }

  /** Clean text: the only white space is single spaces, never first, and no control is left. */
  ghost predicate Clean(s: Text) {
    && (forall i :: 0 <= i < |s| ==> !Control(s[i]) && (White(s[i]) ==> s[i] == SPACE))
    && (forall i :: 0 <= i < |s| - 1 && s[i] == SPACE ==> s[i + 1] != SPACE)
  }

  lemma {:induction false} StripLeavesNoControls(s: Text)
    ensures forall i :: 0 <= i < |StripControls(s)| ==> !Control(StripControls(s)[i])
  {
    if s != [] { StripLeavesNoControls(s[..|s| - 1]); }
  }

  lemma {:induction false} CollapseIsClean(s: Text)
    requires forall i :: 0 <= i < |s| ==> !Control(s[i])
    ensures Clean(Collapse(s))
    ensures s != [] ==> Collapse(s) != []
                        && (White(s[|s| - 1]) <==> Collapse(s)[|Collapse(s)| - 1] == SPACE)
  {
    if s != [] { CollapseIsClean(s[..|s| - 1]); }
  }

  lemma {:induction false} TrimStartIsSuffix(s: Text)
    ensures exists k :: 0 <= k <= |s| && TrimStart(s) == s[k..]
    ensures TrimStart(s) != [] ==> !White(TrimStart(s)[0])
  {
    if s != [] && White(s[0]) {
      TrimStartIsSuffix(s[1..]);
      var k :| 0 <= k <= |s[1..]| && TrimStart(s[1..]) == s[1..][k..];
      assert s[1..][k..] == s[k + 1..];
    } else {
      assert s == s[0..];
    }
  }

  lemma {:induction false} TrimEndIsPrefix(s: Text)
    ensures TrimEnd(s) <= s
  {
    if s != [] && White(s[|s| - 1]) { TrimEndIsPrefix(s[..|s| - 1]); }
  }

  lemma PrefixOfSuffix(b: Text, from: nat, c: Text)
    requires from <= |b| && c <= b[from..]
    ensures c == b[from..from + |c|]
  {
    assert c == b[from..][..|c|];
  }

  lemma TakeIsPrefix(s: Text, n: nat)
    ensures Take(s, n) <= s && |Take(s, n)| <= n
  {
  }

  lemma TrimmingSlices(b: Text, maxLength: nat) returns (from: nat, to: nat)
    ensures from <= to <= |b| && to - from <= maxLength
    ensures Take(TrimEnd(TrimStart(b)), maxLength) == b[from..to]
    ensures from < to ==> !White(b[from])
  {
    TrimStartIsSuffix(b);
    from :| 0 <= from <= |b| && TrimStart(b) == b[from..];
    TrimEndIsPrefix(b[from..]);
    var e := TrimEnd(b[from..]);
    TakeIsPrefix(e, maxLength);
    var c := Take(e, maxLength);
    PrefixOfSuffix(b, from, c);
    to := from + |c|;
  }

  /** The cleaned text is clean, does not start with white space and fits the limit. */
  lemma CleanedIsClean(s: Text, maxLength: nat)
    ensures var c := Cleaned(s, maxLength);
      Clean(c) && |c| <= maxLength && (c != [] ==> !White(c[0]))
  {
    StripLeavesNoControls(s);
    var b := Collapse(StripControls(s));
    CollapseIsClean(StripControls(s));
    var from, to := TrimmingSlices(b, maxLength);
    SliceIsClean(b, from, to);
  }

  lemma SliceIsClean(s: Text, from: nat, to: nat)
    requires Clean(s) && from <= to <= |s|
    ensures Clean(s[from..to])
  {
    var t := s[from..to];
    assert forall i :: 0 <= i < |t| ==> t[i] == s[from + i];
    forall i | 0 <= i < |t| - 1 && t[i] == SPACE ensures t[i + 1] != SPACE {
      assert s[from + i] == SPACE;
    }
  }

  // ---------------------------------------------------------------- escaping

  /** Replace every occurrence of one code unit. */
  function Replace(s: Text, c: Unit, ref: Text): Text {
    if s == [] then []
    else Replace(s[..|s| - 1], c, ref) + if s[|s| - 1] == c then ref else [s[|s| - 1]]
  }

  /** The program's five replacements, ampersand first. */
  function Sequential(s: Text): Text {
    Replace(Replace(Replace(Replace(Replace(s, AMP, AMP_REF), LT, LT_REF), GT, GT_REF), QUOT, QUOT_REF), APOS, APOS_REF)
  }

  function Reference(c: Unit): Text {
    if c == AMP then AMP_REF
    else if c == LT then LT_REF
    else if c == GT then GT_REF
    else if c == QUOT then QUOT_REF
    else if c == APOS then APOS_REF
    else [c]
  }

  /** One simultaneous escape of every character. */
  function Escape(s: Text): Text {
    if s == [] then [] else Escape(s[..|s| - 1]) + Reference(s[|s| - 1])
  }

  function SanitizeTextForSvg(s: Text, maxLength: nat): Text {
    Sequential(Cleaned(s, maxLength))
  }

  lemma {:induction false} ReplaceConcat(a: Text, b: Text, c: Unit, ref: Text)
    ensures Replace(a + b, c, ref) == Replace(a, c, ref) + Replace(b, c, ref)
  {
    if b == [] {
      assert a + b == a;
    } else {
      assert (a + b)[..|a + b| - 1] == a + b[..|b| - 1];
      ReplaceConcat(a, b[..|b| - 1], c, ref);
    }
  }

  lemma {:induction false} ReplaceAbsent(s: Text, c: Unit, ref: Text)
    requires forall i :: 0 <= i < |s| ==> s[i] != c
    ensures Replace(s, c, ref) == s
  {
    if s != [] { ReplaceAbsent(s[..|s| - 1], c, ref); }
  }

  lemma SequentialConcat(a: Text, b: Text)
    ensures Sequential(a + b) == Sequential(a) + Sequential(b)
  {
    ReplaceConcat(a, b, AMP, AMP_REF);
    var a1, b1 := Replace(a, AMP, AMP_REF), Replace(b, AMP, AMP_REF);
    ReplaceConcat(a1, b1, LT, LT_REF);
    var a2, b2 := Replace(a1, LT, LT_REF), Replace(b1, LT, LT_REF);
    ReplaceConcat(a2, b2, GT, GT_REF);
    var a3, b3 := Replace(a2, GT, GT_REF), Replace(b2, GT, GT_REF);
    ReplaceConcat(a3, b3, QUOT, QUOT_REF);
    ReplaceConcat(Replace(a3, QUOT, QUOT_REF), Replace(b3, QUOT, QUOT_REF), APOS, APOS_REF);
  }

  lemma ReplaceOne(x: Unit, c: Unit, ref: Text)
    ensures Replace([x], c, ref) == if x == c then ref else [x]
  {
    assert [x][..0] == [];
  }

  // The later passes leave a reference alone: it holds none of their characters.

  lemma TwoPasses(s: Text)
    requires QUOT !in s && APOS !in s
    ensures Replace(Replace(s, QUOT, QUOT_REF), APOS, APOS_REF) == s
  {
    ReplaceAbsent(s, QUOT, QUOT_REF);
    ReplaceAbsent(s, APOS, APOS_REF);
  }

  lemma FourPasses(s: Text)
    requires LT !in s && GT !in s && QUOT !in s && APOS !in s
    ensures Replace(Replace(Replace(Replace(s, LT, LT_REF), GT, GT_REF), QUOT, QUOT_REF), APOS, APOS_REF) == s
  {
    ReplaceAbsent(s, LT, LT_REF);
    ReplaceAbsent(s, GT, GT_REF);
    TwoPasses(s);
  }

  /** Each pass turns its own character into its reference and hands every other one on. */
  lemma SequentialOne(c: Unit)
    ensures Sequential([c]) == Reference(c)
  {
    var s1 := Replace([c], AMP, AMP_REF);
    ReplaceOne(c, AMP, AMP_REF);
    if c == AMP || c !in {LT, GT, QUOT, APOS} {
      FourPasses(s1);
    } else {
      var s2 := Replace(s1, LT, LT_REF);
      ReplaceOne(c, LT, LT_REF);
      if c == LT { ReplaceAbsent(s2, GT, GT_REF); } else { ReplaceOne(c, GT, GT_REF); }
      var s3 := Replace(s2, GT, GT_REF);
      if c == LT || c == GT { TwoPasses(s3); } else { LastPasses(c); }
    }
  }

  lemma LastPasses(c: Unit)
    requires c == QUOT || c == APOS
    ensures Replace(Replace([c], QUOT, QUOT_REF), APOS, APOS_REF) == Reference(c)
  {
    ReplaceOne(c, QUOT, QUOT_REF);
    if c == QUOT { ReplaceAbsent(Replace([c], QUOT, QUOT_REF), APOS, APOS_REF); }
    else { ReplaceOne(c, APOS, APOS_REF); }
  }

  /** No replacement undoes or doubles another: the five passes are one simultaneous escape. */
  lemma {:induction false} SequentialIsSimultaneous(s: Text)
    ensures Sequential(s) == Escape(s)
  {
    if s != [] {
      assert s == s[..|s| - 1] + [s[|s| - 1]];
      SequentialConcat(s[..|s| - 1], [s[|s| - 1]]);
      SequentialOne(s[|s| - 1]);
      SequentialIsSimultaneous(s[..|s| - 1]);
    }
  }

  // ---------------------------------------------------------------- reading it back

  /** The reference that starts the text, if one does, as (its length, the character it means). */
  function LeadingReference(s: Text): (nat, Unit) {
    if AMP_REF <= s then (5, AMP)
    else if LT_REF <= s then (4, LT)
    else if GT_REF <= s then (4, GT)
    else if QUOT_REF <= s then (6, QUOT)
    else if APOS_REF <= s then (5, APOS)
    else if s != [] then (1, s[0])
    else (1, 0)
  }

  /** An XML reader's view of the text. */
  function Unescape(s: Text): Text
    decreases |s|
  {
    if s == [] then []
    else
      var (n, c) := LeadingReference(s);
      [c] + Unescape(s[n..])
  }

  lemma UnescapeStep(c: Unit, rest: Text)
    ensures Unescape(Reference(c) + rest) == [c] + Unescape(rest)
  {
    var r := Reference(c);
    var s := r + rest;
    assert s[..|r|] == r && s[|r|..] == rest;
    assert s[0] == r[0];
    if c == AMP {
      assert AMP_REF <= s;
    } else if c == LT {
      assert LT_REF <= s && s[1] == 108;
    } else if c == GT {
      assert GT_REF <= s && s[1] == 103;
    } else if c == QUOT {
      assert QUOT_REF <= s && s[1] == 113;
    } else if c == APOS {
      assert APOS_REF <= s && s[1] == 35;
    } else {
      assert s[0] == c;
    }
    assert LeadingReference(s) == (|r|, c);
  }

  lemma {:induction false} UnescapeAppend(s: Text, rest: Text)
    ensures Unescape(Escape(s) + rest) == s + Unescape(rest)
    decreases |s|
  {
    if s == [] {
      assert Escape(s) + rest == rest;
    } else {
      var front, c := s[..|s| - 1], s[|s| - 1];
      var tail := Reference(c) + rest;
      UnescapeAppend(front, tail);
      UnescapeStep(c, rest);
      Regroup(Escape(front), Reference(c), rest);
      Regroup(front, [c], Unescape(rest));
      assert s == front + [c];
    }
  }

  lemma Regroup(a: Text, b: Text, c: Text)
    ensures (a + b) + c == a + (b + c)
  {
  }

  /** A position holds no raw markup: not <, >, " or ', and & only where a reference starts. */
  ghost predicate SafeAt(s: Text, i: nat)
    requires i < |s|
  {
    && s[i] !in {LT, GT, QUOT, APOS}
    && (s[i] == AMP ==>
          AMP_REF <= s[i..] || LT_REF <= s[i..] || GT_REF <= s[i..] || QUOT_REF <= s[i..] || APOS_REF <= s[i..])
  }

  lemma SafeReference(c: Unit, i: nat)
    requires i < |Reference(c)|
    ensures SafeAt(Reference(c), i)
  {
    if i == 0 { assert Reference(c)[0..] == Reference(c); }
  }

  lemma SafePrefix(a: Text, b: Text, i: nat)
    requires i < |a| && SafeAt(a, i)
    ensures SafeAt(a + b, i)
  {
    assert (a + b)[i..] == a[i..] + b;
  }

  lemma SafeSuffix(a: Text, b: Text, i: nat)
    requires i < |b| && SafeAt(b, i)
    ensures SafeAt(a + b, |a| + i)
  {
    assert (a + b)[|a| + i..] == b[i..];
  }

  lemma {:induction false} EscapeIsSafe(s: Text, i: nat)
    requires i < |Escape(s)|
    ensures SafeAt(Escape(s), i)
    decreases |s|
  {
    var front, c := s[..|s| - 1], s[|s| - 1];
    if i < |Escape(front)| {
      EscapeIsSafe(front, i);
      SafePrefix(Escape(front), Reference(c), i);
    } else {
      SafeReference(c, i - |Escape(front)|);
      SafeSuffix(Escape(front), Reference(c), i - |Escape(front)|);
    }
  }

  /** What the sanitizer promises: the result has no raw <, >, " or ' and every & starts one of
      the five references; reading it back gives exactly the cleaned, clamped text. */
  lemma SanitizedTextIsSafeAndFaithful(s: Text, maxLength: nat)
    ensures var out := SanitizeTextForSvg(s, maxLength);
      && (forall i :: 0 <= i < |out| ==> SafeAt(out, i))
      && Unescape(out) == Cleaned(s, maxLength)
      && |Unescape(out)| <= maxLength && Clean(Unescape(out))
  {
    var c := Cleaned(s, maxLength);
    SequentialIsSimultaneous(c);
    CleanedIsClean(s, maxLength);
    forall i | 0 <= i < |Escape(c)| ensures SafeAt(Escape(c), i) { EscapeIsSafe(c, i); }
    UnescapeAppend(c, []);
    assert Escape(c) + [] == Escape(c) && c + Unescape([]) == c;
  }

  // ---------------------------------------------------------------- legal characters

  predicate High(c: Unit) { 0xD800 <= c <= 0xDBFF }

  predicate Low(c: Unit) { 0xDC00 <= c <= 0xDFFF }

  /** A code unit that can take part in a legal XML character. */
  predicate LegalUnit(c: Unit) {
    (c >= 0x20 || c == 0x09 || c == 0x0A || c == 0x0D) && c != 0xFFFE && c != 0xFFFF
  }

  /** Legal units, with surrogates paired wherever two units meet. */
  ghost predicate LegalInside(s: Text) {
    && (forall i :: 0 <= i < |s| ==> LegalUnit(s[i]))
    && (forall i :: 0 <= i < |s| - 1 ==> (High(s[i]) <==> Low(s[i + 1])))
  }

  /** The text consists of characters XML 1.0 allows: legal units, and no lone surrogate. */
  ghost predicate Legal(s: Text) {
    LegalInside(s) && (s != [] ==> !Low(s[0]) && !High(s[|s| - 1]))
  }

  lemma LegalJoin(a: Text, b: Text)
    requires a != [] && b != []
    ensures LegalInside(a + b) <==>
      LegalInside(a) && LegalInside(b) && (High(a[|a| - 1]) <==> Low(b[0]))
  {
    var t := a + b;
    if LegalInside(t) {
      forall i | 0 <= i < |a| ensures LegalUnit(a[i]) { assert t[i] == a[i]; }
      forall i | 0 <= i < |a| - 1 ensures High(a[i]) <==> Low(a[i + 1]) { assert t[i] == a[i] && t[i + 1] == a[i + 1]; }
      forall i | 0 <= i < |b| ensures LegalUnit(b[i]) { assert t[|a| + i] == b[i]; }
      forall i | 0 <= i < |b| - 1 ensures High(b[i]) <==> Low(b[i + 1]) {
        assert t[|a| + i] == b[i] && t[|a| + i + 1] == b[i + 1];
      }
      assert t[|a| - 1] == a[|a| - 1] && t[|a|] == b[0];
    }
  }

  /** Texts that agree in legality and in how they meet their neighbours. */
  ghost predicate MeetAlike(a: Text, b: Text) {
    && a != [] && b != [] && (LegalInside(a) <==> LegalInside(b))
    && (Low(a[0]) <==> Low(b[0])) && (High(a[|a| - 1]) <==> High(b[|b| - 1]))
  }

  lemma JoinAlike(a: Text, b: Text, a': Text, b': Text)
    requires MeetAlike(a, a') && MeetAlike(b, b')
    ensures MeetAlike(a + b, a' + b')
  {
    LegalJoin(a, b);
    LegalJoin(a', b');
  }

  lemma Marked(ref: Text)
    requires |ref| > 1 && forall i :: 0 <= i < |ref| ==> 0x20 <= ref[i] < 0x80
    ensures LegalInside(ref) && !Low(ref[0]) && !High(ref[|ref| - 1])
  {
  }

  /** A reference is as legal as the character it stands for, and meets its neighbours alike. */
  lemma ReferenceLegal(c: Unit)
    ensures MeetAlike(Reference(c), [c])
  {
    if c in {AMP, LT, GT, QUOT, APOS} { Marked(Reference(c)); }
  }

  lemma {:induction false} EscapeLegal(s: Text)
    requires s != []
    ensures MeetAlike(Escape(s), s)
  {
    var front, c := s[..|s| - 1], s[|s| - 1];
    ReferenceLegal(c);
    assert front + [c] == s;
    if front == [] {
      assert Escape(s) == Reference(c);
    } else {
      EscapeLegal(front);
      JoinAlike(Escape(front), Reference(c), front, [c]);
    }
  }

  /** The sanitised text is legal in an XML document exactly when the cleaned text is: escaping
      neither adds nor removes an illegal character. */
  lemma SanitizedIsLegalIff(s: Text, maxLength: nat)
    ensures Legal(SanitizeTextForSvg(s, maxLength)) <==> Legal(Cleaned(s, maxLength))
  {
    var c := Cleaned(s, maxLength);
    SequentialIsSimultaneous(c);
    if c != [] { EscapeLegal(c); }
  }

  ghost predicate Plain(s: Text) {
    forall i :: 0 <= i < |s| ==> !Control(s[i]) && !White(s[i])
  }

  lemma {:induction false} PlainIsKept(s: Text)
    requires Plain(s)
    ensures StripControls(s) == s && Collapse(s) == s
  {
    if s != [] { PlainIsKept(s[..|s| - 1]); }
  }

  /** Text without control characters and white space is only clamped, so what is legal of it
      depends on where the clamp falls. */
  lemma PlainTextIsLegalIff(s: Text, maxLength: nat)
    requires Plain(s)
    ensures Legal(SanitizeTextForSvg(s, maxLength)) <==> Legal(Take(s, maxLength))
  {
    PlainIsKept(s);
    assert Cleaned(s, maxLength) == Take(s, maxLength);
    SanitizedIsLegalIff(s, maxLength);
  }

  /** The clamp can cut a character in two: every pair of surrogates is legal, and sanitised to
      one unit it is not. */
  lemma ClampedPairIsIllegal(high: Unit, low: Unit)
    requires High(high) && Low(low)
    ensures Legal([high, low]) && !Legal(SanitizeTextForSvg([high, low], 1))
  {
    PlainTextIsLegalIff([high, low], 1);
    assert [high, low][..1] == [high];
  }

  /** The two noncharacters pass the control filter. */
  lemma NoncharacterIsIllegal(c: Unit, maxLength: nat)
    requires c == 0xFFFE || c == 0xFFFF
    ensures maxLength >= 1 ==> !Legal(SanitizeTextForSvg([c], maxLength))
  {
    PlainTextIsLegalIff([c], maxLength);
    if maxLength >= 1 { assert [c][0] == c; }
  }
}
