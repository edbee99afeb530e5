/** The word counter: `split` on a character class repeated one or more times, and the statistics
    the page derives from it. */
module WordCounter {
  import opened Lists
  import opened JsText

  /** The complement of a character class. */
  function Not(p: char -> bool): char -> bool
  {
    c => !p(c)
  }

  /** `s` without its leading run of `p`-characters. */
  function DropRun(s: string, p: char -> bool): (r: string)
    ensures |r| <= |s| && r == s[|s| - |r|..]
    ensures forall i :: 0 <= i < |s| - |r| ==> p(s[i])
    ensures r == [] || !p(r[0])
    ensures s != [] && p(s[0]) ==> |r| < |s|
  {
    if s != [] && p(s[0]) then DropRun(s[1..], p) else s
  }

  /** `s.split(/[p]+/)`: the pieces between maximal runs of `p`-characters. A run at either end
      yields an empty piece there, and the empty string splits into one empty piece. */
  function Split(s: string, p: char -> bool): (r: seq<string>)
    ensures |r| >= 1
    ensures forall k, j :: 0 <= k < |r| && 0 <= j < |r[k]| ==> !p(r[k][j])
    decreases |s|
  {
    if s == [] then [""]
    else if !p(s[0]) then
      var rest := Split(s[1..], p);
      [[s[0]] + rest[0]] + rest[1..]
    else [""] + Split(DropRun(s, p), p)
  }

  function B(b: bool): nat
  {
    if b then 1 else 0
  }

  /** The number of maximal runs of `p`-characters in `s`, where `prev` says whether the character
      before `s` was one (so that a run continuing it is not counted again). */
  function RunsAfter(s: string, p: char -> bool, prev: bool): nat
  {
    if s == [] then 0 else B(p(s[0]) && !prev) + RunsAfter(s[1..], p, p(s[0]))
  }

  function Runs(s: string, p: char -> bool): nat
  {
    RunsAfter(s, p, false)
  }

  /** Whether the last character of `s` is a `p`-character (`prev` for the empty string). */
  function LastIs(s: string, p: char -> bool, prev: bool): bool
  {
    if s == [] then prev else p(s[|s| - 1])
  }

  lemma FlagIrrelevant(s: string, p: char -> bool)
    requires s == [] || !p(s[0])
    ensures RunsAfter(s, p, true) == RunsAfter(s, p, false)
  {
  }

  /** Inside a run nothing new is counted. */
  lemma {:induction false} SkipRun(s: string, p: char -> bool)
    ensures RunsAfter(s, p, true) == RunsAfter(DropRun(s, p), p, true)
  {
    if s != [] && p(s[0]) {
      SkipRun(s[1..], p);
    }
  }

  /** A run at the front counts once, and then the rest is counted afresh. */
  lemma DropRunRuns(s: string, p: char -> bool)
    requires s != [] && p(s[0])
    ensures Runs(s, p) == 1 + Runs(DropRun(s, p), p)
  {
    SkipRun(s[1..], p);
    FlagIrrelevant(DropRun(s, p), p);
  }

  /** `split(/[p]+/).length` is one more than the number of maximal runs of `p`. */
  lemma {:induction false} SplitCount(s: string, p: char -> bool)
    ensures |Split(s, p)| == 1 + Runs(s, p)
    decreases |s|
  {
    if s == [] {
    } else if !p(s[0]) {
      SplitCount(s[1..], p);
    } else {
      SplitCount(DropRun(s, p), p);
      DropRunRuns(s, p);
    }
  }

  /** Runs of a class and of its complement alternate: their counts differ only by where the
      string starts and ends. */
  lemma {:induction false} Alternation(s: string, p: char -> bool, prev: bool)
    ensures RunsAfter(s, p, prev) + B(prev) == RunsAfter(s, Not(p), !prev) + B(LastIs(s, p, prev))
  {
    if s != [] {
      Alternation(s[1..], p, p(s[0]));
      assert LastIs(s, p, prev) == LastIs(s[1..], p, p(s[0]));
    }
  }

  /** A string with no `p`-character has no run of it. */
  lemma {:induction false} NoRuns(s: string, p: char -> bool, prev: bool)
    requires forall i :: 0 <= i < |s| ==> !p(s[i])
    ensures RunsAfter(s, p, prev) == 0
  {
    if s != [] {
      NoRuns(s[1..], p, false);
    }
  }

  /** A leading stretch without `p`-characters adds no run and resets `prev`. */
  lemma {:induction false} LeadingGap(a: string, t: string, p: char -> bool, prev: bool)
    requires forall i :: 0 <= i < |a| ==> !p(a[i])
    ensures RunsAfter(a + t, p, prev) == RunsAfter(t, p, if a == [] then prev else false)
  {
    if a != [] {
      assert (a + t)[1..] == a[1..] + t;
      LeadingGap(a[1..], t, p, false);
    } else {
      assert a + t == t;
    }
  }

  /** A trailing stretch without `p`-characters adds no run. */
  lemma {:induction false} TrailingGap(t: string, a: string, p: char -> bool, prev: bool)
    requires forall i :: 0 <= i < |a| ==> !p(a[i])
    ensures RunsAfter(t + a, p, prev) == RunsAfter(t, p, prev)
  {
    if t == [] {
      assert t + a == a;
      NoRuns(a, p, prev);
    } else {
      assert (t + a)[1..] == t[1..] + a;
      TrailingGap(t[1..], a, p, p(t[0]));
    }
  }

  /** Trimming whitespace does not change the runs of non-whitespace. */
  lemma TrimKeepsWords(text: string)
    ensures Runs(Trim(text), Not(IsSpace)) == Runs(text, Not(IsSpace))
  {
    TrimStartKeepsWords(text);
    TrimEndKeepsWords(TrimStart(text));
  }

  lemma TrimStartKeepsWords(text: string)
    ensures Runs(TrimStart(text), Not(IsSpace)) == Runs(text, Not(IsSpace))
  {
    var s := TrimStart(text);
    var lead := text[..|text| - |s|];
    assert text == lead + s;
    SpacesAreGap(lead);
    LeadingGap(lead, s, Not(IsSpace), false);
  }

  lemma TrimEndKeepsWords(s: string)
    ensures Runs(TrimEnd(s), Not(IsSpace)) == Runs(s, Not(IsSpace))
  {
    var t := TrimEnd(s);
    var tail := s[|t|..];
    assert s == t + tail;
    SpacesAreGap(tail);
    TrailingGap(t, tail, Not(IsSpace), false);
  }

  /** Whitespace holds no non-whitespace character. */
  lemma SpacesAreGap(a: string)
    requires AllSpace(a)
    ensures forall i :: 0 <= i < |a| ==> !Not(IsSpace)(a[i])
  {
  }

  predicate IsNewline(c: char)
  {
    c == '\n'
  }

  predicate IsTerminator(c: char)
  {
    c == '.' || c == '!' || c == '?'
  }

  /** `Math.ceil(words / 200)`. */
  function ReadTime(words: nat): (r: nat)
    ensures 200 * r >= words
    ensures r > 0 ==> 200 * (r - 1) < words
  {
    (words + 199) / 200
  }

  datatype Stats = Stats(words: nat, chars: nat, charsNoSpace: nat, paragraphs: nat, sentences: nat,
                         readTime: nat)

  /** The statistics the page's effect computes for `text`. Both character counts are
      JavaScript `length`s, in UTF-16 code units. */
  function Analyze(text: string): (r: Stats)
    ensures Trim(text) == "" ==> r.words == 0 && r.paragraphs == 0 && r.sentences == 0 && r.readTime == 0
    ensures r.chars == Utf16Length(text) && |text| <= r.chars && r.charsNoSpace <= r.chars
    ensures r.readTime == ReadTime(r.words)
  {
    var blank := Trim(text) == "";
    var words := if blank then 0 else |Split(Trim(text), IsSpace)|;
    FilterSplitsLength(text, IsSpace);
    Stats(
      words,
      Utf16Length(text),
      Utf16Length(Filter(text, Not(IsSpace))),
      if blank then 0 else |Split(text, IsNewline)|,
      if blank then 0 else |Split(text, IsTerminator)| - 1,
      ReadTime(words))
  }

  /** `words` is the number of maximal runs of non-whitespace characters. */
  lemma WordsAreRuns(text: string)
    ensures Analyze(text).words == Runs(text, Not(IsSpace))
  {
    var t := Trim(text);
    TrimKeepsWords(text);
    if t == "" {
      NoRuns(t, Not(IsSpace), false);
    } else {
      SplitCount(t, IsSpace);
      Alternation(t, IsSpace, true);
      FlagIrrelevant(t, IsSpace);
    }
  }

  /** For non-blank text, `sentences` counts the maximal runs of '.', '!' and '?' and `paragraphs`
      is one more than the number of maximal runs of line breaks, both in the untrimmed text. */
  lemma SentencesAndParagraphs(text: string)
    requires Trim(text) != ""
    ensures Analyze(text).sentences == Runs(text, IsTerminator)
    ensures Analyze(text).paragraphs == 1 + Runs(text, IsNewline)
  {
    SplitCount(text, IsTerminator);
    SplitCount(text, IsNewline);
  }

  /** Filtering by a class and by its complement splits the string's UTF-16 length between the
      two results. */
  lemma {:induction false} FilterSplitsLength(s: string, p: char -> bool)
    ensures Utf16Length(Filter(s, p)) + Utf16Length(Filter(s, Not(p))) == Utf16Length(s)
  {
    if s != [] {
      FilterSplitsLength(s[1..], p);
      var kept := if p(s[0]) then Filter(s, p) else Filter(s, Not(p));
      assert kept[1..] == if p(s[0]) then Filter(s[1..], p) else Filter(s[1..], Not(p));
    }
  }

  /** A string of whitespace takes one code unit per character. */
  lemma {:induction false} SpacesOneUnitEach(s: string)
    requires AllSpace(s)
    ensures Utf16Length(s) == |s|
  {
    if s != [] {
      SpaceIsOneUnit(s[0]);
      SpacesOneUnitEach(s[1..]);
    }
  }

  /** `charsNoSpace` is `chars` less one unit per whitespace character: it is 0 for blank text and
      equals `chars` for text without whitespace. */
  lemma CharsNoSpaceCounts(text: string)
    ensures Analyze(text).charsNoSpace + |Filter(text, IsSpace)| == Analyze(text).chars
    ensures AllSpace(text) ==> Analyze(text).charsNoSpace == 0
    ensures (forall i :: 0 <= i < |text| ==> !IsSpace(text[i])) ==> Analyze(text).charsNoSpace == Analyze(text).chars
  {
    var spaces := Filter(text, IsSpace);
    FilterSplitsLength(text, IsSpace);
    SpacesOneUnitEach(spaces);
    if forall i :: 0 <= i < |text| ==> !IsSpace(text[i]) {
      if spaces != [] {
        assert spaces[0] in text && IsSpace(spaces[0]);
      }
    }
  }

  /** `length` counts an emoji as two: for "😀" both counts are 2, one per surrogate. */
  lemma EmojiCountsTwo()
    ensures Analyze("\U{1F600}").chars == 2 && Analyze("\U{1F600}").charsNoSpace == 2
  {
    var e := "\U{1F600}";
    assert !IsSpace(e[0]);
    assert Filter(e, Not(IsSpace)) == e;
  }
}
