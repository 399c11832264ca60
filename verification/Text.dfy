/** JavaScript strings as UTF-16 code units: trimming, whitespace runs and line breaks. */
module Text {
  type CodeUnit = u: nat | u < 0x1_0000
  type Text = seq<CodeUnit>

  const LINE_FEED: CodeUnit := 10
  const CARRIAGE_RETURN: CodeUnit := 13
  const SPACE: CodeUnit := 32

  /** What \s matches and trim removes. */
  predicate IsWhitespace(c: CodeUnit) {
    || 9 <= c <= 13 || c == SPACE || c == 0xA0 || c == 0x1680 || 0x2000 <= c <= 0x200A
    || c == 0x2028 || c == 0x2029 || c == 0x202F || c == 0x205F || c == 0x3000 || c == 0xFEFF
  }

  /** WhiteSpace of ECMA-262, section 12.2: tabs, the byte order mark, and the space separators of Unicode. */
  const WHITE_SPACE: set<CodeUnit> :=
    {0x9, 0xB, 0xC, 0x20, 0xA0, 0x1680, 0x2000, 0x2001, 0x2002, 0x2003, 0x2004, 0x2005, 0x2006, 0x2007, 0x2008, 0x2009,
     0x200A, 0x202F, 0x205F, 0x3000, 0xFEFF}

  /** LineTerminator of ECMA-262, section 12.3. */
  const LINE_TERMINATORS: set<CodeUnit> := {0xA, 0xD, 0x2028, 0x2029}

  lemma WhitespaceIsAsInTheStandard(c: CodeUnit)
    ensures IsWhitespace(c) <==> c in WHITE_SPACE || c in LINE_TERMINATORS
  {
  }

  function TrimLeft(s: Text): (r: Text)
    ensures |r| <= |s| && r == s[|s| - |r|..]
    ensures r != [] ==> !IsWhitespace(r[0])
    ensures s != [] && IsWhitespace(s[0]) ==> |r| < |s|
    ensures s == [] || !IsWhitespace(s[0]) ==> r == s
  {
    if s != [] && IsWhitespace(s[0]) then TrimLeft(s[1..]) else s
  }

  function TrimRight(s: Text): (r: Text)
    ensures |r| <= |s| && r == s[..|r|]
    ensures r != [] ==> !IsWhitespace(r[|r| - 1])
    ensures s == [] || !IsWhitespace(s[|s| - 1]) ==> r == s
  {
    if s != [] && IsWhitespace(s[|s| - 1]) then TrimRight(s[..|s| - 1]) else s
  }

  function Trim(s: Text): Text {
    TrimRight(TrimLeft(s))
  }

  /** Each run of whitespace becomes one space. */
  function Collapse(s: Text): Text
    decreases |s|
  {
    if s == [] then []
    else if IsWhitespace(s[0]) then [SPACE] + Collapse(TrimLeft(s))
    else [s[0]] + Collapse(s[1..])
  }

  /** A carriage return, with the line feed that follows it if there is one, becomes a line feed. */
  function UnifyLineBreaks(s: Text): Text
    decreases |s|
  {
    if s == [] then []
    else if s[0] == CARRIAGE_RETURN then
      [LINE_FEED] + UnifyLineBreaks(if |s| > 1 && s[1] == LINE_FEED then s[2..] else s[1..])
    else [s[0]] + UnifyLineBreaks(s[1..])
  }

  /** normalizeEvidenceText. */
  function Normalize(s: Text): Text {
    Trim(Collapse(UnifyLineBreaks(s)))
  }

  // ----- the line-break step is redundant -----

  lemma LineBreaksAreWhitespace()
    ensures IsWhitespace(LINE_FEED) && IsWhitespace(CARRIAGE_RETURN)
  {
  }

  lemma {:induction false} TrimLeftUnified(s: Text)
    ensures TrimLeft(UnifyLineBreaks(s)) == UnifyLineBreaks(TrimLeft(s))
    decreases |s|
  {
    hide IsWhitespace;
    LineBreaksAreWhitespace();
    if s != [] && IsWhitespace(s[0]) {
      var u := UnifyLineBreaks(s);
      if s[0] == CARRIAGE_RETURN && |s| > 1 && s[1] == LINE_FEED {
        assert u[1..] == UnifyLineBreaks(s[2..]);
        assert s[1..][1..] == s[2..];
        TrimLeftUnified(s[2..]);
      } else {
        assert u[1..] == UnifyLineBreaks(s[1..]);
        TrimLeftUnified(s[1..]);
      }
    }
  }

  lemma {:induction false} CollapseUnified(s: Text)
    ensures Collapse(UnifyLineBreaks(s)) == Collapse(s)
    decreases |s|
  {
    if s != [] {
      var u := UnifyLineBreaks(s);
      if IsWhitespace(s[0]) {
        TrimLeftUnified(s);
        CollapseUnified(TrimLeft(s));
      } else {
        assert u[1..] == UnifyLineBreaks(s[1..]);
        CollapseUnified(s[1..]);
      }
    }
  }

  /** Collapsing whitespace already takes care of every kind of line break. */
  lemma LineBreakStepIsRedundant(s: Text)
    ensures Normalize(s) == Trim(Collapse(s))
  {
    CollapseUnified(s);
  }

  // ----- what is kept -----

  /** How many characters there are before the first whitespace. */
  function WordLength(s: Text): (n: nat)
    ensures n <= |s| && (n < |s| ==> IsWhitespace(s[n])) && forall i | 0 <= i < n :: !IsWhitespace(s[i])
  {
    if s == [] || IsWhitespace(s[0]) then 0 else 1 + WordLength(s[1..])
  }

  /** The runs of characters other than whitespace. */
  function Words(s: Text): seq<Text>
    decreases |s|
  {
    if s == [] then []
    else if IsWhitespace(s[0]) then Words(s[1..])
    else [s[..WordLength(s)]] + Words(s[WordLength(s)..])
  }

  /** Words with a space between any two. */
  function Joined(words: seq<Text>): Text {
    if words == [] then []
    else if |words| == 1 then words[0]
    else words[0] + [SPACE] + Joined(words[1..])
  }

  lemma {:induction false} WordsAfterSpace(s: Text)
    ensures Words(TrimLeft(s)) == Words(s)
  {
    if s != [] && IsWhitespace(s[0]) {
      WordsAfterSpace(s[1..]);
    }
  }

  lemma {:induction false} CollapseOfWord(s: Text, n: nat)
    requires n <= |s| && forall i | 0 <= i < n :: !IsWhitespace(s[i])
    ensures Collapse(s) == s[..n] + Collapse(s[n..])
    decreases n
  {
    if n == 0 {
      assert s[0..] == s && s[..0] == [];
    } else {
      CollapseOfWord(s[1..], n - 1);
      assert s[1..][n - 1..] == s[n..] && s[..n] == [s[0]] + s[1..][..n - 1];
    }
  }

  /** What trimming the end leaves: everything up to the last character that is not whitespace. */
  lemma {:induction false} TrimRightIs(s: Text, n: nat)
    requires n <= |s| && (forall i | n <= i < |s| :: IsWhitespace(s[i])) && (n > 0 ==> !IsWhitespace(s[n - 1]))
    ensures TrimRight(s) == s[..n]
    decreases |s|
  {
    hide IsWhitespace;
    if n < |s| {
      TrimRightIs(s[..|s| - 1], n);
      assert s[..|s| - 1][..n] == s[..n];
    } else {
      assert s[..n] == s;
    }
  }

  lemma {:induction false} TrimRightDrops(s: Text)
    ensures forall i | |TrimRight(s)| <= i < |s| :: IsWhitespace(s[i])
    decreases |s|
  {
    hide IsWhitespace;
    if s != [] && IsWhitespace(s[|s| - 1]) {
      TrimRightDrops(s[..|s| - 1]);
    }
  }

  lemma TrimRightOfSum(a: Text, b: Text)
    ensures TrimRight(a + b) == if TrimRight(b) == [] then TrimRight(a) else a + TrimRight(b)
  {
    hide IsWhitespace, TrimRight;
    var all := a + b;
    var n := if TrimRight(b) == [] then |TrimRight(a)| else |a| + |TrimRight(b)|;
    TrimRightDrops(a);
    TrimRightDrops(b);
    forall i | n <= i < |all| ensures IsWhitespace(all[i]) {
      assert all[i] == if i < |a| then a[i] else b[i - |a|];
    }
    TrimRightIs(all, n);
  }

  lemma JoinedIsEmpty(words: seq<Text>)
    requires forall w | w in words :: w != []
    ensures Joined(words) == [] <==> words == []
  {
    if words != [] {
      assert words[0] in words;
    }
  }

  lemma {:induction false} WordsAreNotEmpty(s: Text)
    ensures forall w | w in Words(s) :: w != []
    decreases |s|
  {
    if s == [] {
    } else if IsWhitespace(s[0]) {
      WordsAreNotEmpty(s[1..]);
    } else {
      WordsAreNotEmpty(s[WordLength(s)..]);
    }
  }

  /** A word and what follows it. */
  lemma CollapseStep(s: Text, rest: Text)
    requires s != [] && !IsWhitespace(s[0]) && rest == TrimLeft(s[WordLength(s)..])
    ensures Words(s) == [s[..WordLength(s)]] + Words(rest)
    ensures Collapse(s[WordLength(s)..]) == if WordLength(s) < |s| then [SPACE] + Collapse(rest) else []
  {
    WordsAfterSpace(s[WordLength(s)..]);
    var after := s[WordLength(s)..];
    assert after != [] ==> IsWhitespace(after[0]);
    hide IsWhitespace, TrimLeft;
  }

  /** From the first word on. */
  lemma {:induction false} CollapseJoins(s: Text)
    requires s != [] ==> !IsWhitespace(s[0])
    ensures TrimRight(Collapse(s)) == Joined(Words(s))
    decreases |s|
  {
    hide IsWhitespace, Collapse, Words, TrimRight, TrimLeft;
    if s == [] {
      EmptyIsJoined();
    } else {
      var n := WordLength(s);
      assert n > 0;
      var word, rest := s[..n], TrimLeft(s[n..]);
      CollapseStep(s, rest);
      CollapseOfWord(s, n);
      CollapseJoins(rest);
      WordsAreNotEmpty(rest);
      JoinedIsEmpty(Words(rest));
      SpaceIsTrimmed();
      TrimRightOfSum([SPACE], Collapse(rest));
      TrimRightOfSum(word, Collapse(s[n..]));
      TrimRightIs(word, n);
      assert word[..n] == word;
      JoinedCons(word, Words(rest));
    }
  }

  lemma EmptyIsJoined()
    ensures TrimRight(Collapse([])) == Joined(Words([]))
  {
  }

  lemma JoinedCons(word: Text, words: seq<Text>)
    ensures Joined([word] + words) == if words == [] then word else word + [SPACE] + Joined(words)
  {
    assert ([word] + words)[1..] == words;
  }

  lemma SpaceIsTrimmed()
    ensures TrimRight([SPACE]) == [] && TrimRight([]) == []
  {
    assert [SPACE][..0] == [];
  }

  /** Normalizing keeps the words and their order, and puts one space between any two: nothing else is lost or added. */
  lemma NormalizeJoinsWords(s: Text)
    ensures Normalize(s) == Joined(Words(s))
  {
    LineBreakStepIsRedundant(s);
    var rest := TrimLeft(s);
    WordsAfterSpace(s);
    CollapseJoins(rest);
    if s != [] && IsWhitespace(s[0]) {
      SpaceBefore(Collapse(rest), rest);
    } else {
      NoSpaceBefore(s);
    }
  }

  lemma SpaceBefore(c: Text, rest: Text)
    requires c == Collapse(rest) && (rest != [] ==> !IsWhitespace(rest[0]))
    ensures TrimLeft([SPACE] + c) == c
  {
    assert ([SPACE] + c)[1..] == c;
    NoSpaceBefore(rest);
  }

  lemma NoSpaceBefore(s: Text)
    requires s != [] ==> !IsWhitespace(s[0])
    ensures TrimLeft(Collapse(s)) == Collapse(s)
  {
  }

  // ----- normal texts -----

  /** Whitespace occurs only as single spaces. */
  predicate IsSpaced(s: Text) {
    forall i | 0 <= i < |s| && IsWhitespace(s[i]) :: s[i] == SPACE && (i + 1 < |s| ==> !IsWhitespace(s[i + 1]))
  }

  /** Words separated by single spaces. */
  predicate IsNormal(s: Text) {
    IsSpaced(s) && (s != [] ==> !IsWhitespace(s[0]) && !IsWhitespace(s[|s| - 1]))
  }

  lemma SpacedCons(c: CodeUnit, rest: Text)
    requires IsSpaced(rest) && (IsWhitespace(c) ==> c == SPACE && (rest != [] ==> !IsWhitespace(rest[0])))
    ensures IsSpaced([c] + rest)
  {
    hide IsWhitespace;
    var s := [c] + rest;
    forall i | 0 <= i < |s| && IsWhitespace(s[i]) ensures s[i] == SPACE && (i + 1 < |s| ==> !IsWhitespace(s[i + 1])) {
      if i > 0 {
        assert s[i] == rest[i - 1];
      }
    }
  }

  lemma {:induction false} CollapseSpaces(s: Text)
    ensures IsSpaced(Collapse(s))
    ensures s == [] ==> Collapse(s) == []
    ensures s != [] && !IsWhitespace(s[0]) ==> Collapse(s) != [] && !IsWhitespace(Collapse(s)[0])
    decreases |s|
  {
    hide IsWhitespace, IsSpaced;
    if s == [] {
      assert IsSpaced([]) by {
        EmptyIsSpaced();
      }
    } else if IsWhitespace(s[0]) {
      CollapseSpaces(TrimLeft(s));
      SpacedCons(SPACE, Collapse(TrimLeft(s)));
    } else {
      CollapseSpaces(s[1..]);
      SpacedCons(s[0], Collapse(s[1..]));
    }
  }

  lemma EmptyIsSpaced()
    ensures IsSpaced([])
  {
  }

  lemma {:induction false} CollapseOfSpaced(s: Text)
    requires IsSpaced(s)
    ensures Collapse(s) == s
    decreases |s|
  {
    if s != [] {
      assert forall i | 0 <= i < |s[1..]| :: s[1..][i] == s[i + 1];
      CollapseOfSpaced(s[1..]);
      if IsWhitespace(s[0]) {
        assert TrimLeft(s) == s[1..];
      }
    }
  }

  lemma SliceIsSpaced(s: Text, from: nat, to: nat)
    requires IsSpaced(s) && from <= to <= |s|
    ensures IsSpaced(s[from..to])
  {
    hide IsWhitespace;
    assert forall i | 0 <= i < to - from :: s[from..to][i] == s[from + i];
  }

  lemma TrimIsSlice(s: Text) returns (from: nat, to: nat)
    ensures from <= to <= |s| && Trim(s) == s[from..to]
    ensures Trim(s) != [] ==> !IsWhitespace(Trim(s)[0]) && !IsWhitespace(Trim(s)[|Trim(s)| - 1])
  {
    hide IsWhitespace, TrimLeft, TrimRight;
    var t := TrimLeft(s);
    from, to := |s| - |t|, |s| - |t| + |TrimRight(t)|;
    assert s[from..to] == s[from..][..to - from];
  }

  lemma NormalizeIsNormal(s: Text)
    ensures IsNormal(Normalize(s))
  {
    hide IsWhitespace, IsSpaced, Collapse, UnifyLineBreaks, Trim;
    var c := Collapse(UnifyLineBreaks(s));
    CollapseSpaces(UnifyLineBreaks(s));
    var from, to := TrimIsSlice(c);
    SliceIsSpaced(c, from, to);
  }

  lemma NormalStays(s: Text)
    requires IsNormal(s)
    ensures Normalize(s) == s
  {
    LineBreakStepIsRedundant(s);
    CollapseOfSpaced(s);
  }

  /** Normalizing twice is normalizing once, and a text is unchanged exactly if it is in normal form. */
  lemma NormalizeIsIdempotent(s: Text)
    ensures Normalize(Normalize(s)) == Normalize(s)
    ensures Normalize(s) == s <==> IsNormal(s)
  {
    NormalizeIsNormal(s);
    NormalStays(Normalize(s));
    if IsNormal(s) {
      NormalStays(s);
    }
  }
}
