/**
 * Caption text (subtitle_assemblyai.py): cleaning the story text, cutting
 * its words into five to nine groups, timing one caption per group, and
 * the burn step that falls back to the input video path on any failure.
 * Rendering (TextClip, CompositeVideoClip, write_videofile) is replaced by
 * caption records and by booleans that say whether a rendering call
 * succeeded.
 */
module Captions {
  import opened Outcomes
  import opened PyStrings

  /** What the cleaner falls back to, and what the burn step shows when no caption could be drawn. */
  const Placeholder: string := "Story content available in video"

  /** Markers after which everything is dropped, tried in this order. */
  const UnwantedMarkers: seq<string> := [
    "STORY:", "TITLE:", "THE STORY:", "STORY SCRIPT", "Genre:", "Part:",
    "Generated:", "Story ID:", "NOTES:", "Duration:", "Word count:",
    "Character count:", "For continuation", "This story", "This 30-60 second",
    "CRITICAL:", "ONLY write", "DO NOT include", "Start directly", "End with",
    "Nothing else"
  ]

  /** A line whose lower-cased text contains one of these is dropped. */
  const InstructionKeywords: seq<string> := [
    "note:", "instruction:", "important:", "remember:", "focus on",
    "the story should", "make sure", "ensure", "critical:", "only return",
    "do not include", "start directly", "end with", "nothing else"
  ]

  /** A line that starts with one of these is dropped. */
  const InstructionPrefixes: seq<string> := ["This story", "This 30-60", "Note:", "Instruction:"]

  predicate NonEmptyAll(ms: seq<string>) {
    forall i :: 0 <= i < |ms| ==> ms[i] != []
  }

  /** Text that `strip()` leaves alone. */
  predicate Stripped(s: string) {
    s == [] || (!IsSpace(s[0]) && !IsSpace(s[|s| - 1]))
  }

  // ---------------------------------------------------------------- markers

  /**
   * One round of the marker loop: when `m` occurs, keep the stripped text
   * before its first occurrence (`split(m)[0].strip()`).
   */
  function CutAt(t: string, m: string): (r: string)
    requires m != []
    ensures !Contains(r, m)
    ensures !Contains(t, m) ==> r == t
    ensures Contains(t, m) ==> r == Strip(Before(t, m)) && OccursAt(t, m, |Before(t, m)|)
  {
    if Contains(t, m) then
      CutFacts(t, m);
      Strip(Before(t, m))
    else t
  }

  lemma {:induction false} CutFacts(t: string, m: string)
    requires m != [] && Contains(t, m)
    ensures !Contains(Strip(Before(t, m)), m)
    ensures OccursAt(t, m, |Before(t, m)|)
  {
    BeforeStopsAtFirst(t, m);
    BeforeIsFree(t, m);
    StripKeepsAbsence(Before(t, m), m);
  }

  /** Stripping never brings in a pattern that was absent. */
  lemma {:induction false} StripKeepsAbsence(b: string, m: string)
    requires !Contains(b, m)
    ensures !Contains(Strip(b), m)
  {
    var off := StripOffset(b);
    var t := Strip(b);
    StripIsSlice(b);
    AbsentFromSlice(b, m, off, off + |t|);
    assert t == b[off..off + |t|];
  }

  /** Cutting never brings in text that was absent: the result lies inside `t`. */
  lemma {:induction false} CutKeepsAbsence(t: string, m: string, p: string)
    requires m != [] && !Contains(t, p)
    ensures !Contains(CutAt(t, m), p)
  {
    if Contains(t, m) {
      var b := Before(t, m);
      assert !Contains(b, p) by {
        AbsentFromSlice(t, p, 0, |b|);
        assert t[0..|b|] == b;
      }
      StripKeepsAbsence(b, p);
    }
  }

  /** The marker loop after the markers `ms` (lines 124-130). */
  function CutMarkers(t: string, ms: seq<string>): string
    requires NonEmptyAll(ms)
  {
    if ms == [] then t else CutAt(CutMarkers(t, ms[..|ms| - 1]), ms[|ms| - 1])
  }

  /** After the marker loop none of the markers occurs in the text. */
  lemma {:induction false} CutMarkersRemovesAll(t: string, ms: seq<string>)
    requires NonEmptyAll(ms)
    ensures forall i :: 0 <= i < |ms| ==> !Contains(CutMarkers(t, ms), ms[i])
  {
    if ms != [] {
      var front := ms[..|ms| - 1];
      var c := CutMarkers(t, front);
      CutMarkersRemovesAll(t, front);
      forall i | 0 <= i < |ms|
        ensures !Contains(CutMarkers(t, ms), ms[i])
      {
        if i < |ms| - 1 {
          assert front[i] == ms[i];
          CutKeepsAbsence(c, ms[|ms| - 1], ms[i]);
        }
      }
    }
  }

  /** Cutting keeps out any character the text did not hold. */
  lemma {:induction false} CutMarkersKeepsCharOut(t: string, ms: seq<string>, c: char)
    requires NonEmptyAll(ms) && c !in t
    ensures c !in CutMarkers(t, ms)
  {
    if ms != [] {
      CutMarkersKeepsCharOut(t, ms[..|ms| - 1], c);
      var u := CutMarkers(t, ms[..|ms| - 1]);
      var m := ms[|ms| - 1];
      if Contains(u, m) {
        var b := Before(u, m);
        assert b == u[..|b|];
        StripIsSlice(b);
      }
    }
  }

  // ---------------------------------------------------------------- lines

  /** Some instruction keyword occurs in the lower-cased line. */
  predicate Instructional(line: string) {
    exists k :: 0 <= k < |InstructionKeywords| && Contains(Lower(line), InstructionKeywords[k])
  }

  predicate OpensWithInstruction(line: string) {
    exists k :: 0 <= k < |InstructionPrefixes| && StartsWith(line, InstructionPrefixes[k])
  }

  /** The test a stripped line must pass to be kept (lines 139-151). */
  predicate KeepsLine(line: string) {
    !Instructional(line) && !OpensWithInstruction(line) && line != [] && |line| > 5
  }

  /** The stripped lines that pass, in order. */
  function KeptLines(lines: seq<string>): (r: seq<string>)
    ensures |r| <= |lines|
    ensures forall j :: 0 <= j < |r| ==> KeepsLine(r[j]) && Stripped(r[j])
  {
    if lines == [] then []
    else
      var rest := KeptLines(lines[..|lines| - 1]);
      var line := Strip(lines[|lines| - 1]);
      if KeepsLine(line) then
        KeepAppended(rest, line);
        rest + [line]
      else rest
  }

  /** Appending a stripped line that passes keeps every line passing and stripped. */
  lemma {:induction false} KeepAppended(kept: seq<string>, line: string)
    requires forall j :: 0 <= j < |kept| ==> KeepsLine(kept[j]) && Stripped(kept[j])
    requires KeepsLine(line) && Stripped(line)
    ensures forall j :: 0 <= j < |kept| + 1 ==> KeepsLine((kept + [line])[j]) && Stripped((kept + [line])[j])
  {
    forall j | 0 <= j < |kept| + 1
      ensures KeepsLine((kept + [line])[j]) && Stripped((kept + [line])[j])
    {
      if j < |kept| {
        assert (kept + [line])[j] == kept[j];
      } else {
        assert (kept + [line])[j] == line;
      }
    }
  }

  /** A character absent from every line is absent from every kept line. */
  lemma {:induction false} KeptLinesKeepCharOut(lines: seq<string>, c: char)
    requires forall i :: 0 <= i < |lines| ==> c !in lines[i]
    ensures forall j :: 0 <= j < |KeptLines(lines)| ==> c !in KeptLines(lines)[j]
  {
    if lines != [] {
      var front := lines[..|lines| - 1];
      var l := lines[|lines| - 1];
      assert forall i :: 0 <= i < |front| ==> front[i] == lines[i];
      KeptLinesKeepCharOut(front, c);
      StripKeepsCharOut(l, c);
      if KeepsLine(Strip(l)) {
        CharOutAppended(KeptLines(front), Strip(l), c);
      }
    }
  }

  /** Stripping brings in no character. */
  lemma {:induction false} StripKeepsCharOut(l: string, c: char)
    requires c !in l
    ensures c !in Strip(l)
  {
    StripIsSlice(l);
  }

  /** Appending a line without `c` to lines without `c` gives lines without `c`. */
  lemma {:induction false} CharOutAppended(kept: seq<string>, line: string, c: char)
    requires forall j :: 0 <= j < |kept| ==> c !in kept[j]
    requires c !in line
    ensures forall j :: 0 <= j < |kept + [line]| ==> c !in (kept + [line])[j]
  {
    forall j | 0 <= j < |kept + [line]|
      ensures c !in (kept + [line])[j]
    {
      if j < |kept| {
        assert (kept + [line])[j] == kept[j];
      }
    }
  }

  /** `sep.join(xs)` holds a character only if the separator or a piece does. */
  lemma {:induction false} JoinKeepsCharOut(sep: string, xs: seq<string>, c: char)
    requires c !in sep && forall i :: 0 <= i < |xs| ==> c !in xs[i]
    ensures c !in Join(sep, xs)
  {
    if |xs| > 1 {
      assert forall i :: 0 <= i < |xs| - 1 ==> xs[1..][i] == xs[i + 1];
      JoinKeepsCharOut(sep, xs[1..], c);
    }
  }

  /** Joining stripped non-empty pieces with blanks gives stripped text. */
  lemma {:induction false} JoinOfStrippedIsStripped(xs: seq<string>)
    requires forall i :: 0 <= i < |xs| ==> xs[i] != [] && Stripped(xs[i])
    ensures Stripped(Join(" ", xs))
  {
    if xs != [] {
      JoinStartsWithFirst(" ", xs);
      JoinEndsWithLast(" ", xs);
      var s := Join(" ", xs);
      var last := xs[|xs| - 1];
      assert s[0] == xs[0][0];
      assert s[|s| - 1] == s[|s| - |last|..][|last| - 1] == last[|last| - 1];
    }
  }

  // ---------------------------------------------------------------- clean_text_for_subtitles

  /** The lines of the marker-cut text that survive the line filter. */
  function CaptionLines(text: string): seq<string> {
    KeptLines(SplitOn(CutMarkers(text, UnwantedMarkers), '\n'))
  }

  /** The last step (lines 153-160): fall back to the placeholder when the joined lines are short, and strip. */
  function Finish(joined: string): string {
    FinishWith(joined, Placeholder)
  }

  /** The last step with `fallback` in place of the placeholder. */
  function FinishWith(joined: string, fallback: string): string {
    if Strip(joined) == [] || |Strip(joined)| < 10 then fallback else Strip(joined)
  }

  /** What `clean_text_for_subtitles` returns (lines 94-160); empty text counts as falsy. */
  function CleanedForSubtitles(text: string): string {
    if text == [] then Placeholder else Finish(Join(" ", CaptionLines(text)))
  }

  lemma {:induction false} MarkersAreNonEmpty()
    ensures NonEmptyAll(UnwantedMarkers)
  {
  }

  /** The marker loop of lines 124-130, over the markers `ms` in order. */
  method CutEachMarker(text: string, ms: seq<string>) returns (cleaned: string)
    requires NonEmptyAll(ms)
    ensures cleaned == CutMarkers(text, ms)
  {
    cleaned := text;
    var i := 0;
    while i < |ms|
      invariant 0 <= i <= |ms|
      invariant cleaned == CutMarkers(text, ms[..i])
    {
      var pattern := ms[i];
      assert ms[..i + 1][..i] == ms[..i];
      if Contains(cleaned, pattern) {
        cleaned := Strip(Before(cleaned, pattern));
      }
      i := i + 1;
    }
    assert ms[..i] == ms;
  }

  /** One more line is kept exactly when it passes the test once stripped. */
  lemma {:induction false} KeptLinesStep(lines: seq<string>, j: nat)
    requires j < |lines|
    ensures var line := Strip(lines[j]);
            KeptLines(lines[..j + 1]) == if KeepsLine(line) then KeptLines(lines[..j]) + [line] else KeptLines(lines[..j])
  {
    assert lines[..j + 1][..j] == lines[..j];
  }

  /** The line loop of lines 133-151. */
  method KeepLines(lines: seq<string>) returns (cleanLines: seq<string>)
    ensures cleanLines == KeptLines(lines)
  {
    cleanLines := [];
    var j := 0;
    while j < |lines|
      invariant 0 <= j <= |lines|
      invariant cleanLines == KeptLines(lines[..j])
    {
      var line := Strip(lines[j]);
      KeptLinesStep(lines, j);
      if Instructional(line) {
        // skipped: an instruction keyword occurs in the line
      } else if OpensWithInstruction(line) {
        // skipped: the line opens like an instruction
      } else if line != [] && |line| > 5 {
        cleanLines := cleanLines + [line];
      }
      j := j + 1;
    }
    assert lines[..j] == lines;
  }

  method CleanTextForSubtitles(text: string) returns (r: string)
    ensures r == CleanedForSubtitles(text)
  {
    if text == [] {
      return Placeholder;
    }
    MarkersAreNonEmpty();
    var cleaned := CutEachMarker(text, UnwantedMarkers);
    var lines := SplitOn(cleaned, '\n');
    var cleanLines := KeepLines(lines);
    cleaned := Join(" ", cleanLines);
    ghost var joined := cleaned;
    if Strip(cleaned) == [] || |Strip(cleaned)| < 10 {
      cleaned := Placeholder;
    }
    r := Strip(cleaned);
    PlaceholderIsStripped();
    FinishWithStrip(joined, Placeholder);
  }

  /** Stripping the chosen text gives the last step whenever the fallback is already stripped. */
  lemma {:induction false} FinishWithStrip(joined: string, fallback: string)
    requires Strip(fallback) == fallback
    ensures FinishWith(joined, fallback)
            == Strip(if Strip(joined) == [] || |Strip(joined)| < 10 then fallback else joined)
  {
  }

  lemma {:induction false} PlaceholderHasNoNewline()
    ensures '\n' !in Placeholder
  {
  }

  lemma {:induction false} PlaceholderIsStripped()
    ensures Strip(Placeholder) == Placeholder && |Placeholder| == 32
  {
    StripKeeps(Placeholder);
  }

  /** The last step either keeps the joined lines whole, when they make at least ten characters, or gives the placeholder. */
  lemma {:induction false} FinishShape(kept: seq<string>)
    requires forall i :: 0 <= i < |kept| ==> kept[i] != [] && Stripped(kept[i])
    ensures Finish(Join(" ", kept)) == if |Join(" ", kept)| < 10 then Placeholder else Join(" ", kept)
    ensures |Finish(Join(" ", kept))| >= 10
  {
    JoinOfStrippedIsStripped(kept);
    FinishOfStripped(Join(" ", kept));
    PlaceholderLength();
    FinishWithStripped(Join(" ", kept), Placeholder);
  }

  lemma {:induction false} FinishOfStripped(j: string)
    requires Stripped(j)
    ensures Finish(j) == Placeholder || (Finish(j) == j && |j| >= 10)
    ensures |Finish(j)| >= 10
  {
    PlaceholderLength();
    FinishWithStripped(j, Placeholder);
  }

  /** Stripped text of ten characters or more is kept whole; shorter text gives the fallback. */
  lemma {:induction false} FinishWithStripped(j: string, fallback: string)
    requires Stripped(j)
    ensures FinishWith(j, fallback) == if |j| < 10 then fallback else j
  {
    StripKeeps(j);
  }

  /** The placeholder is 32 characters long, so it passes the ten-character floor itself. */
  lemma {:induction false} PlaceholderLength()
    ensures |Placeholder| == 32
  {
  }

  /**
   * The cleaned text is the placeholder, or the kept lines -- each stripped,
   * longer than five characters, free of instruction keywords and prefixes
   * -- joined by single blanks, at least ten characters long.  Empty input
   * gives the placeholder.
   */
  lemma {:induction false} CleanedShape(text: string)
    ensures text == [] ==> CleanedForSubtitles(text) == Placeholder
    ensures CleanedForSubtitles(text) == Placeholder
            || (CleanedForSubtitles(text) == Join(" ", CaptionLines(text)) && |CleanedForSubtitles(text)| >= 10)
    ensures forall j :: 0 <= j < |CaptionLines(text)| ==> KeepsLine(CaptionLines(text)[j]) && Stripped(CaptionLines(text)[j])
    ensures |CleanedForSubtitles(text)| >= 10
  {
    if text != [] {
      FinishShape(CaptionLines(text));
    }
  }

  /** A character absent from the kept lines and the placeholder is absent from the result of the last step. */
  lemma {:induction false} FinishKeepsCharOut(kept: seq<string>, c: char)
    requires c != ' ' && c !in Placeholder
    requires forall i :: 0 <= i < |kept| ==> c !in kept[i]
    ensures c !in Finish(Join(" ", kept))
  {
    JoinKeepsCharOut(" ", kept, c);
    StripIsSlice(Join(" ", kept));
  }

  /** The cleaned text is on one line. */
  lemma {:induction false} CleanedHasNoNewline(text: string)
    ensures '\n' !in CleanedForSubtitles(text)
  {
    if text != [] {
      LinesHaveNoNewline(CutMarkers(text, UnwantedMarkers));
    }
  }

  lemma {:induction false} LinesHaveNoNewline(cut: string)
    ensures '\n' !in Finish(Join(" ", KeptLines(SplitOn(cut, '\n'))))
  {
    var lines := SplitOn(cut, '\n');
    KeptLinesKeepCharOut(lines, '\n');
    PlaceholderHasNoNewline();
    FinishKeepsCharOut(KeptLines(lines), '\n');
  }

  /** The cleaned text always has a first word, so the fallback word list at line 19 is never used. */
  lemma {:induction false} CleanedHasWords(text: string)
    ensures |Words(CleanedForSubtitles(text))| >= 1
  {
    CleanedShape(text);
    var r := CleanedForSubtitles(text);
    if r != Placeholder {
      JoinOfStrippedIsStripped(CaptionLines(text));
    }
    FirstWord(r);
  }

  // ---------------------------------------------------------------- segmentation

  /** Why caption building raises. */
  datatype CaptionError =
    | ZeroStep      // `range(0, n, 0)`: fewer than five words
    | NoSegments    // division of the video length by zero segments

  /** The word list used when the cleaned text has no words (line 19). */
  const PlaceholderWords: seq<string> := ["Story", "content", "available", "in", "video"]

  function Min(a: int, b: int): int { if a <= b then a else b }
  function Max(a: int, b: int): int { if a >= b then a else b }

  /** `min(8, max(5, n // 10))` */
  function SegmentCount(n: nat): (k: nat)
    ensures 5 <= k <= 8
  {
    Min(8, Max(5, n / 10))
  }

  /** `words_per_segment = n // num_segments` */
  function Step(n: nat): nat {
    n / SegmentCount(n)
  }

  function Flatten<T>(ss: seq<seq<T>>): seq<T> {
    if ss == [] then [] else ss[0] + Flatten(ss[1..])
  }

  /**
   * The slices `xs[i:i + w]` for `i` in `range(0, len(xs), w)`: they give
   * back `xs` in order, none is empty, all but the last hold exactly `w`
   * items, and the last holds between one and `w`.
   */
  function Chunks<T>(xs: seq<T>, w: nat): (r: seq<seq<T>>)
    requires w > 0
    ensures Flatten(r) == xs
    ensures forall i :: 0 <= i < |r| ==> 0 < |r[i]| <= w
    ensures forall i :: 0 <= i < |r| - 1 ==> |r[i]| == w
    ensures xs == [] <==> r == []
    ensures xs != [] ==> |xs| == (|r| - 1) * w + |r[|r| - 1]|
    decreases |xs|
  {
    if xs == [] then []
    else if |xs| <= w then
      assert Flatten([xs]) == xs + Flatten([]);
      [xs]
    else
      var rest := Chunks(xs[w..], w);
      ConsRow(xs[..w], rest, w);
      SplitAt(xs, w);
      OneMoreRow(|rest|, w);
      [xs[..w]] + rest
  }

  /** A full row in front of rows of at most `w` items, all full but the last. */
  lemma {:induction false} ConsRow<T>(row: seq<T>, rest: seq<seq<T>>, w: nat)
    requires |row| == w && rest != []
    requires forall i :: 0 <= i < |rest| ==> 0 < |rest[i]| <= w
    requires forall i :: 0 <= i < |rest| - 1 ==> |rest[i]| == w
    ensures var r := [row] + rest;
            Flatten(r) == row + Flatten(rest) && r[|r| - 1] == rest[|rest| - 1]
            && (forall i :: 0 <= i < |r| ==> |r[i]| <= w) && (forall i :: 0 <= i < |r| - 1 ==> |r[i]| == w)
  {
    var r := [row] + rest;
    assert r[1..] == rest;
    assert forall i :: 1 <= i < |r| ==> r[i] == rest[i - 1];
  }

  /** A sequence is its part before `k` followed by its part from `k`. */
  lemma {:induction false} SplitAt<T>(xs: seq<T>, k: nat)
    requires k <= |xs|
    ensures xs[..k] + xs[k..] == xs
  {
  }

  /** One more row of `w` items. */
  lemma {:induction false} OneMoreRow(n: nat, w: nat)
    requires n > 0
    ensures n * w == w + (n - 1) * w
  {
  }

  /** The segment one slice of words contributes: the stripped join, unless it is blank. */
  function Piece(slice: seq<string>): seq<string> {
    var segment := Join(" ", slice);
    if Strip(segment) != [] then [Strip(segment)] else []
  }

  lemma {:induction false} PieceOf(slice: seq<string>, segment: string)
    requires segment == Join(" ", slice)
    ensures Piece(slice) == if Strip(segment) != [] then [Strip(segment)] else []
  {
  }

  /** What `piece` makes of the slices `xs[i:i + w]`, `i` in `range(0, len(xs), w)`, concatenated. */
  function GroupedBy<T, U>(xs: seq<T>, w: nat, piece: seq<T> -> seq<U>): seq<U>
    requires w > 0
    decreases |xs|
  {
    if xs == [] then []
    else piece(xs[..Min(w, |xs|)]) + GroupedBy(xs[Min(w, |xs|)..], w, piece)
  }

  lemma {:induction false} GroupedByStep<T, U>(xs: seq<T>, i: nat, w: nat, piece: seq<T> -> seq<U>, before: seq<U>)
    requires w > 0 && i < |xs|
    requires GroupedBy(xs, w, piece) == before + GroupedBy(xs[i..], w, piece)
    ensures GroupedBy(xs, w, piece) == (before + piece(xs[i..Min(i + w, |xs|)])) + GroupedBy(xs[Min(i + w, |xs|)..], w, piece)
  {
    var ys := xs[i..];
    var stop := Min(w, |ys|);
    assert ys[..stop] == xs[i..Min(i + w, |xs|)];
    assert ys[stop..] == xs[Min(i + w, |xs|)..];
  }

  /** The segments of one split with step `w` (lines 26-29, and 34-37 with another step). */
  function Grouped(words: seq<string>, w: nat): seq<string>
    requires w > 0
  {
    GroupedBy(words, w, Piece)
  }

  /** One split: `range(0, len(words), w)` with the slice joined by blanks and kept when not blank. */
  method GroupWords(words: seq<string>, w: nat) returns (segments: seq<string>)
    requires w > 0
    ensures segments == Grouped(words, w)
  {
    segments := [];
    var i := 0;
    assert words[0..] == words;
    while i < |words|
      invariant 0 <= i <= |words|
      invariant Grouped(words, w) == segments + GroupedBy(words[i..], w, Piece)
    {
      var stop := Min(i + w, |words|);
      var segment := Join(" ", words[i..stop]);
      GroupedByStep(words, i, w, Piece, segments);
      ghost var next := segments + Piece(words[i..stop]);
      PieceOf(words[i..stop], segment);
      if Strip(segment) != [] {
        segments := segments + [Strip(segment)];
      }
      assert segments == next;
      i := stop;
    }
    assert words[i..] == [];
  }

  lemma {:induction false} AppendAssoc<T>(a: seq<T>, b: seq<T>, c: seq<T>)
    ensures a + (b + c) == (a + b) + c
  {
  }

  /** The segments `create_simple_subtitles_from_text` ends up with (lines 22-37). */
  function Segments(words: seq<string>): Result<seq<string>, CaptionError> {
    var w := Step(|words|);
    if w == 0 then Err(ZeroStep)
    else
      var first := Grouped(words, w);
      if |first| < 3 then Ok(Grouped(words, Max(1, |words| / 5))) else Ok(first)
  }

  method SplitIntoSegments(words: seq<string>) returns (r: Result<seq<string>, CaptionError>)
    ensures r == Segments(words)
  {
    var numSegments := Min(8, Max(5, |words| / 10));
    var wordsPerSegment := |words| / numSegments;
    if wordsPerSegment == 0 {
      return Err(ZeroStep);
    }
    var segments := GroupWords(words, wordsPerSegment);
    if |segments| < 3 {
      segments := GroupWords(words, Max(1, |words| / 5));
    }
    return Ok(segments);
  }

  /** `' '.join` of every chunk. */
  function JoinEach(cs: seq<seq<string>>): (r: seq<string>)
    ensures |r| == |cs| && forall i :: 0 <= i < |cs| ==> r[i] == Join(" ", cs[i])
  {
    if cs == [] then [] else [Join(" ", cs[0])] + JoinEach(cs[1..])
  }

  predicate AllWords(ws: seq<string>) {
    forall i :: 0 <= i < |ws| ==> IsWord(ws[i])
  }

  /** Words joined by blanks are never blank and need no stripping. */
  lemma {:induction false} JoinedWordsAreStripped(ws: seq<string>)
    requires ws != [] && AllWords(ws)
    ensures Strip(Join(" ", ws)) == Join(" ", ws) && Join(" ", ws) != []
  {
    var j := Join(" ", ws);
    assert j != [] by {
      JoinStartsWithFirst(" ", ws);
    }
    assert Stripped(j) by {
      JoinOfStrippedIsStripped(ws);
    }
    StripKeeps(j);
  }

  /** On a word list every chunk becomes one segment: the blank-test never drops one. */
  lemma {:induction false} GroupedIsJoinedChunks(words: seq<string>, w: nat)
    requires w > 0 && AllWords(words)
    ensures Grouped(words, w) == JoinEach(Chunks(words, w))
    decreases |words|
  {
    if words != [] {
      var stop := Min(w, |words|);
      var chunk := words[..stop];
      var rest := words[stop..];
      assert AllWords(chunk) && AllWords(rest);
      JoinedWordsAreStripped(chunk);
      PieceOf(chunk, Join(" ", chunk));
      assert Piece(chunk) == [Join(" ", chunk)];
      GroupedIsJoinedChunks(rest, w);
      var cs := Chunks(words, w);
      assert cs == [chunk] + Chunks(rest, w);
      assert cs[1..] == Chunks(rest, w);
      assert Grouped(words, w) == [Join(" ", chunk)] + Grouped(rest, w);
    }
  }

  /** Each segment's words are its chunk of the word list. */
  lemma {:induction false} WordsOfJoinEach(cs: seq<seq<string>>)
    requires forall i :: 0 <= i < |cs| ==> AllWords(cs[i])
    ensures forall i :: 0 <= i < |cs| ==> Words(JoinEach(cs)[i]) == cs[i]
  {
    forall i | 0 <= i < |cs|
      ensures Words(JoinEach(cs)[i]) == cs[i]
    {
      WordsOfJoin(cs[i]);
    }
  }

  /** A chunk of a word list is a word list. */
  lemma {:induction false} ChunkOfWords(cs: seq<seq<string>>, i: nat)
    requires i < |cs| && AllWords(Flatten(cs))
    ensures AllWords(cs[i])
  {
    var f := Flatten(cs);
    assert f == cs[0] + Flatten(cs[1..]);
    assert forall j :: 0 <= j < |cs[0]| ==> cs[0][j] == f[j];
    if i > 0 {
      assert forall j :: 0 <= j < |Flatten(cs[1..])| ==> Flatten(cs[1..])[j] == f[|cs[0]| + j];
      ChunkOfWords(cs[1..], i - 1);
    }
  }

  /** `n // num_segments` times `num_segments` is at most `n`, and at least `n` is at most nine steps. */
  lemma {:induction false} StepBounds(n: nat)
    requires n >= 5
    ensures Step(n) >= 1
    ensures SegmentCount(n) * Step(n) <= n <= 9 * Step(n)
  {
    var k := SegmentCount(n);
    if k == 5 {
    } else if k == 6 {
    } else if k == 7 {
    } else {
    }
  }

  /**
   * The count of chunks of `n` words with the step `Step(n)`, from
   * `n == (k - 1) * w + last` with `1 <= last <= w`, is between five and nine.
   */
  lemma {:induction false} ChunkCountBounds(n: nat, k: int, last: int)
    requires n >= 5 && Step(n) >= 1
    requires n == (k - 1) * Step(n) + last && 1 <= last <= Step(n)
    ensures 5 <= k <= 9
  {
    var w := Step(n);
    StepBounds(n);
    assert k >= 5 by {
      if k < 5 {
        MulMonotone(k, 4, w);
      }
    }
    assert k <= 9 by {
      if k > 9 {
        MulMonotone(9, k - 1, w);
      }
    }
  }

  /**
   * With at least five words there are between five and nine segments --
   * nine, not eight, for example with 9 or 89 words -- so the re-split for
   * fewer than three segments never happens, and the segments are the
   * first split's chunks, joined.
   */
  lemma {:induction false} SegmentsOfEnoughWords(words: seq<string>)
    requires |words| >= 5 && AllWords(words)
    ensures Segments(words).Ok?
    ensures Segments(words).value == JoinEach(Chunks(words, Step(|words|)))
    ensures 5 <= |Segments(words).value| <= 9
  {
    var n := |words|;
    StepBounds(n);
    var w := Step(n);
    var cs := Chunks(words, w);
    ChunkCountBounds(n, |cs|, |cs[|cs| - 1]|);
    GroupedIsJoinedChunks(words, w);
  }

  lemma {:induction false} MulMonotone(a: int, b: int, w: nat)
    requires a <= b
    ensures a * w <= b * w
  {
  }

  lemma {:induction false} StepOf9()
    ensures Step(9) == 1
  {
    assert SegmentCount(9) == 5;
  }

  lemma {:induction false} StepOf89()
    ensures Step(89) == 11
  {
    assert SegmentCount(89) == 8;
  }

  /** Nine words give nine one-word segments. */
  lemma {:induction false} NineWordsNineSegments(words: seq<string>)
    requires |words| == 9 && AllWords(words)
    ensures Segments(words).Ok? && |Segments(words).value| == 9
    ensures forall i :: 0 <= i < 9 ==> |Words(Segments(words).value[i])| == 1
  {
    SegmentWords(words);
    StepOf9();
    var cs := Chunks(words, 1);
    assert 9 == (|cs| - 1) * 1 + |cs[|cs| - 1]|;
  }

  /** 89 words give eight segments of eleven words and a ninth of one. */
  lemma {:induction false} EightyNineWordsNineSegments(words: seq<string>)
    requires |words| == 89 && AllWords(words)
    ensures Segments(words).Ok? && |Segments(words).value| == 9
    ensures forall i :: 0 <= i < 8 ==> |Words(Segments(words).value[i])| == 11
    ensures |Words(Segments(words).value[8])| == 1
  {
    StepOf89();
    SegmentWords(words);
    var cs := Chunks(words, 11);
    ChunkCount(words, 11);
    NineChunksOf89(|cs|);
    assert 89 == (|cs| - 1) * 11 + |cs[|cs| - 1]|;
  }

  /** Eleven-word chunks of 89 words number nine. */
  lemma {:induction false} NineChunksOf89(k: int)
    requires (k - 1) * 11 < 89 <= k * 11
    ensures k == 9
  {
  }

  /** From 80 words on there are eight segments when eight divides the count, and nine otherwise. */
  lemma {:induction false} NineSegmentsFromEighty(words: seq<string>)
    requires |words| >= 80 && AllWords(words)
    ensures Segments(words).Ok?
    ensures |Segments(words).value| == 9 <==> |words| % 8 != 0
    ensures |Segments(words).value| == 8 <==> |words| % 8 == 0
  {
    var n := |words|;
    assert SegmentCount(n) == 8;
    SegmentWords(words);
    var w := Step(n);
    ChunkCount(words, w);
    ChunksFromEighty(n, w, |Chunks(words, w)|);
  }

  /** The arithmetic of `NineSegmentsFromEighty`: `k` chunks of width `n // 8` cover `n` words. */
  lemma {:induction false} ChunksFromEighty(n: int, w: int, k: int)
    requires n >= 80 && w == n / 8 && (k - 1) * w < n <= k * w
    ensures n % 8 != 0 ==> k == 9
    ensures n % 8 == 0 ==> k == 8
  {
    var r := n % 8;
    assert n == 8 * w + r && 0 <= r < 8 <= w;
    SignOfProduct(k - 8, w);
    SignOfProduct(k - 9, w);
    SignOfProduct(k - 10, w);
    assert (k - 8) * w == k * w - 8 * w;
    assert (k - 9) * w == (k - 1) * w - 8 * w;
    assert (k - 10) * w == (k - 1) * w - 9 * w;
  }

  /** A product with a positive factor has the sign of the other factor. */
  lemma {:induction false} SignOfProduct(d: int, w: int)
    requires w > 0
    ensures d * w > 0 ==> d > 0
    ensures d * w < 0 ==> d < 0
    ensures d * w >= 0 ==> d >= 0
  {
  }

  /** Each segment's words are the chunk it was joined from. */
  lemma {:induction false} SegmentWords(words: seq<string>)
    requires |words| >= 5 && AllWords(words)
    ensures Segments(words).Ok? && |Segments(words).value| == |Chunks(words, Step(|words|))|
    ensures forall i :: 0 <= i < |Segments(words).value| ==>
              Words(Segments(words).value[i]) == Chunks(words, Step(|words|))[i]
  {
    SegmentsOfEnoughWords(words);
    var cs := Chunks(words, Step(|words|));
    forall i | 0 <= i < |cs|
      ensures AllWords(cs[i])
    {
      ChunkOfWords(cs, i);
    }
    WordsOfJoinEach(cs);
  }

  /** There are as many segments as chunks of `Step(|words|)` words. */
  lemma {:induction false} SegmentsAreChunks(words: seq<string>)
    requires |words| >= 5 && AllWords(words)
    ensures |Segments(words).value| == |Chunks(words, Step(|words|))|
  {
    SegmentsOfEnoughWords(words);
  }

  /** Every chunk but the last is full and the last is not empty. */
  lemma {:induction false} ChunkCount<T>(xs: seq<T>, w: nat)
    requires w > 0 && xs != []
    ensures (|Chunks(xs, w)| - 1) * w < |xs| <= |Chunks(xs, w)| * w
  {
    var cs := Chunks(xs, w);
    assert 0 < |cs[|cs| - 1]| <= w;
  }

  /** Fewer than five words make the step zero, and `range` raises. */
  lemma {:induction false} FewWordsRaise(words: seq<string>)
    requires |words| < 5
    ensures Segments(words) == Err(ZeroStep)
  {
  }

  // ---------------------------------------------------------------- timing and clips

  /** A caption: its text, when it appears and how long it stays (the TextClip of lines 54-64). */
  datatype Caption = Caption(text: string, start: real, duration: real)

  /** `i * segment_duration`: when caption `i` appears. */
  function StartAt(i: nat, slot: real): real {
    (i as real) * slot
  }

  /** Where slot `i` of `k` equal slots of a `d`-second video begins: `i * (d / k)`. */
  function SlotStart(i: nat, k: nat, d: real): real
    requires k > 0
  {
    StartAt(i, d / (k as real))
  }

  /** The `k` slots tile the video: the first starts at 0, each starts where the one before ends, the last ends at `d`. */
  lemma {:induction false} SlotsTile(k: nat, d: real)
    requires k > 0
    ensures SlotStart(0, k, d) == 0.0
    ensures forall i: nat :: i < k ==> SlotStart(i, k, d) + d / (k as real) == SlotStart(i + 1, k, d)
    ensures SlotStart(k - 1, k, d) + d / (k as real) == d
  {
    var slot := d / (k as real);
    assert (k as real) * slot == d;
    forall i: nat | i < k
      ensures SlotStart(i, k, d) + slot == SlotStart(i + 1, k, d)
    {
      assert ((i + 1) as real) * slot == StartAt(i, slot) + slot;
    }
    assert ((k - 1) as real) * slot + slot == (k as real) * slot;
  }

  /** `segment[:30] if len(segment) > 30 else segment` */
  function Shortened(segment: string): (r: string)
    ensures |r| <= 30 && |r| <= |segment| && r == segment[..|r|]
    ensures |segment| <= 30 ==> r == segment
    ensures |segment| > 30 ==> r == segment[..30]
  {
    if |segment| > 30 then segment[..30] else segment
  }

  /**
   * The caption for segment `i`: blank segments (`not segment.strip()`) are skipped; when drawing the
   * segment fails, its first thirty characters are tried; when that fails
   * too, the segment gets no caption.
   */
  function ClipFor(i: nat, segment: string, slot: real, firstOk: nat -> bool, retryOk: nat -> bool): Option<Caption> {
    if IsBlank(segment) then None
    else if firstOk(i) then Some(Caption(segment, StartAt(i, slot), slot))
    else if retryOk(i) then Some(Caption(Shortened(segment), StartAt(i, slot), slot))
    else None
  }

  /** The captions of the segments, in order (lines 45-89). */
  function ClipsFor(segments: seq<string>, slot: real, firstOk: nat -> bool, retryOk: nat -> bool): (r: seq<Caption>)
    ensures |r| <= |segments|
    ensures forall j :: 0 <= j < |r| ==> r[j].duration == slot
  {
    if segments == [] then []
    else
      var n := |segments| - 1;
      ClipsFor(segments[..n], slot, firstOk, retryOk) + Listed(ClipFor(n, segments[n], slot, firstOk, retryOk))
  }

  /** The caption, if there is one, as a list of zero or one. */
  function Listed(c: Option<Caption>): (r: seq<Caption>)
    ensures c.Some? ==> r == [c.value]
    ensures c.None? ==> r == []
  {
    if c.Some? then [c.value] else []
  }

  lemma {:induction false} ClipsForStep(segments: seq<string>, i: nat, slot: real, firstOk: nat -> bool, retryOk: nat -> bool)
    requires i < |segments|
    ensures ClipsFor(segments[..i + 1], slot, firstOk, retryOk)
            == ClipsFor(segments[..i], slot, firstOk, retryOk) + Listed(ClipFor(i, segments[i], slot, firstOk, retryOk))
  {
    assert segments[..i + 1][..i] == segments[..i];
  }

  /** The caption loop: each segment gets the slot `video_duration / len(segments)`. */
  method CaptionClips(segments: seq<string>, videoDuration: real, firstOk: nat -> bool, retryOk: nat -> bool)
    returns (r: Result<seq<Caption>, CaptionError>)
    ensures segments == [] ==> r == Err(NoSegments)
    ensures segments != [] ==> r == Ok(ClipsFor(segments, videoDuration / (|segments| as real), firstOk, retryOk))
  {
    if |segments| == 0 {
      return Err(NoSegments);
    }
    var segmentDuration := videoDuration / (|segments| as real);
    var clips: seq<Caption> := [];
    var i := 0;
    while i < |segments|
      invariant 0 <= i <= |segments|
      invariant clips == ClipsFor(segments[..i], segmentDuration, firstOk, retryOk)
    {
      var segment := segments[i];
      ClipsForStep(segments, i, segmentDuration, firstOk, retryOk);
      ghost var next := clips + Listed(ClipFor(i, segment, segmentDuration, firstOk, retryOk));
      if IsBlank(segment) {
        assert clips == next;
        i := i + 1;
        continue;
      }
      var startTime := StartAt(i, segmentDuration);
      if firstOk(i) {
        clips := clips + [Caption(segment, startTime, segmentDuration)];
      } else {
        var simpleText := if |segment| > 30 then segment[..30] else segment;
        if retryOk(i) {
          clips := clips + [Caption(simpleText, startTime, segmentDuration)];
        }
      }
      assert clips == next;
      i := i + 1;
    }
    assert segments[..i] == segments;
    return Ok(clips);
  }

  /** When every segment is drawn at the first try, segment `i` is shown from `i * slot` for one slot. */
  lemma {:induction false} AllClipsDrawn(segments: seq<string>, slot: real, firstOk: nat -> bool, retryOk: nat -> bool)
    requires forall i :: 0 <= i < |segments| ==> !IsBlank(segments[i])
    requires forall i: nat :: firstOk(i)
    ensures |ClipsFor(segments, slot, firstOk, retryOk)| == |segments|
    ensures forall i :: 0 <= i < |segments| ==>
              ClipsFor(segments, slot, firstOk, retryOk)[i] == Caption(segments[i], StartAt(i, slot), slot)
  {
    if segments != [] {
      var n := |segments| - 1;
      var front := segments[..n];
      assert forall i :: 0 <= i < n ==> front[i] == segments[i];
      AllClipsDrawn(front, slot, firstOk, retryOk);
      var c := Caption(segments[n], StartAt(n, slot), slot);
      assert ClipFor(n, segments[n], slot, firstOk, retryOk) == Some(c);
      var all := ClipsFor(segments, slot, firstOk, retryOk);
      var before := ClipsFor(front, slot, firstOk, retryOk);
      assert all == before + [c];
      forall i | 0 <= i < |segments|
        ensures all[i] == Caption(segments[i], StartAt(i, slot), slot)
      {
        if i < n {
          assert all[i] == before[i];
        }
      }
    }
  }

  /** When every drawing attempt fails, no caption survives. */
  lemma {:induction false} NoClipDrawn(segments: seq<string>, slot: real, firstOk: nat -> bool, retryOk: nat -> bool)
    requires forall i: nat :: !firstOk(i) && !retryOk(i)
    ensures ClipsFor(segments, slot, firstOk, retryOk) == []
  {
    if segments != [] {
      NoClipDrawn(segments[..|segments| - 1], slot, firstOk, retryOk);
    }
  }

  /** Whether segment `i` ends up with a caption: it is not blank, and the first or the second drawing succeeds. */
  predicate Drawn(i: nat, segment: string, firstOk: nat -> bool, retryOk: nat -> bool) {
    !IsBlank(segment) && (firstOk(i) || retryOk(i))
  }

  /** The indices of the segments that get a caption, in increasing order. */
  function DrawnIndices(segments: seq<string>, firstOk: nat -> bool, retryOk: nat -> bool): (r: seq<nat>)
    ensures forall j :: 0 <= j < |r| ==> r[j] < |segments|
  {
    if segments == [] then []
    else
      var n := |segments| - 1;
      DrawnIndices(segments[..n], firstOk, retryOk) + (if Drawn(n, segments[n], firstOk, retryOk) then [n] else [])
  }

  /** The drawn indices increase strictly. */
  lemma {:induction false} DrawnIndicesIncrease(segments: seq<string>, firstOk: nat -> bool, retryOk: nat -> bool)
    ensures forall j, k :: 0 <= j < k < |DrawnIndices(segments, firstOk, retryOk)| ==>
              DrawnIndices(segments, firstOk, retryOk)[j] < DrawnIndices(segments, firstOk, retryOk)[k]
  {
    if segments != [] {
      var n := |segments| - 1;
      var front := DrawnIndices(segments[..n], firstOk, retryOk);
      DrawnIndicesIncrease(segments[..n], firstOk, retryOk);
      assert forall a, b :: 0 <= a < b < |front| ==> front[a] < front[b];
      var r := DrawnIndices(segments, firstOk, retryOk);
      assert r == front + (if Drawn(n, segments[n], firstOk, retryOk) then [n] else []);
      forall j, k | 0 <= j < k < |r|
        ensures r[j] < r[k]
      {
        if k < |front| {
          assert r[j] == front[j] && r[k] == front[k];
          assert front[j] < front[k];
        } else {
          assert |segments[..n]| == n;
          assert r[j] == front[j] < n && r[k] == n;
        }
      }
    }
  }

  /** The drawn indices are exactly the segments that get a caption. */
  lemma {:induction false} DrawnIndicesExact(segments: seq<string>, firstOk: nat -> bool, retryOk: nat -> bool)
    ensures forall i :: 0 <= i < |segments| ==>
              (i in DrawnIndices(segments, firstOk, retryOk) <==> Drawn(i, segments[i], firstOk, retryOk))
  {
    if segments != [] {
      var n := |segments| - 1;
      var front := segments[..n];
      var frontIdx := DrawnIndices(front, firstOk, retryOk);
      DrawnIndicesExact(front, firstOk, retryOk);
      var r := DrawnIndices(segments, firstOk, retryOk);
      assert r == frontIdx + (if Drawn(n, segments[n], firstOk, retryOk) then [n] else []);
      assert n !in frontIdx;
      forall i | 0 <= i < |segments|
        ensures i in r <==> Drawn(i, segments[i], firstOk, retryOk)
      {
        if i < n {
          assert front[i] == segments[i];
        }
      }
    }
  }

  /** Caption `j` is the caption of the `j`-th drawn segment, whatever the drawings that fail. */
  lemma {:induction false} ClipsForDrawn(segments: seq<string>, slot: real, firstOk: nat -> bool, retryOk: nat -> bool)
    ensures |ClipsFor(segments, slot, firstOk, retryOk)| == |DrawnIndices(segments, firstOk, retryOk)|
    ensures forall j :: 0 <= j < |ClipsFor(segments, slot, firstOk, retryOk)| ==>
              var i := DrawnIndices(segments, firstOk, retryOk)[j];
              ClipFor(i, segments[i], slot, firstOk, retryOk) == Some(ClipsFor(segments, slot, firstOk, retryOk)[j])
  {
    if segments != [] {
      var n := |segments| - 1;
      var front := segments[..n];
      assert forall i :: 0 <= i < n ==> front[i] == segments[i];
      ClipsForDrawn(front, slot, firstOk, retryOk);
      var before := ClipsFor(front, slot, firstOk, retryOk);
      var frontIdx := DrawnIndices(front, firstOk, retryOk);
      var last := ClipFor(n, segments[n], slot, firstOk, retryOk);
      var lastIdx: seq<nat> := if Drawn(n, segments[n], firstOk, retryOk) then [n] else [];
      assert ClipsFor(segments, slot, firstOk, retryOk) == before + Listed(last);
      assert DrawnIndices(segments, firstOk, retryOk) == frontIdx + lastIdx;
      forall j | 0 <= j < |frontIdx|
        ensures frontIdx[j] < |segments| && ClipFor(frontIdx[j], segments[frontIdx[j]], slot, firstOk, retryOk) == Some(before[j])
      {
        assert ClipFor(frontIdx[j], front[frontIdx[j]], slot, firstOk, retryOk) == Some(before[j]);
      }
      DrawnStep(segments, slot, firstOk, retryOk, before, frontIdx, Listed(last), lastIdx);
    }
  }

  /** One step of `ClipsForDrawn`: the last segment adds its caption and its index, or neither. */
  lemma {:induction false} DrawnStep(segments: seq<string>, slot: real, firstOk: nat -> bool, retryOk: nat -> bool,
                                     before: seq<Caption>, frontIdx: seq<nat>, tail: seq<Caption>, tailIdx: seq<nat>)
    requires segments != []
    requires ClipsFor(segments, slot, firstOk, retryOk) == before + tail
    requires DrawnIndices(segments, firstOk, retryOk) == frontIdx + tailIdx
    requires |before| == |frontIdx| && |tail| == |tailIdx| <= 1
    requires forall j :: 0 <= j < |frontIdx| ==>
               frontIdx[j] < |segments| && ClipFor(frontIdx[j], segments[frontIdx[j]], slot, firstOk, retryOk) == Some(before[j])
    requires tail != [] ==>
               tailIdx[0] < |segments| && ClipFor(tailIdx[0], segments[tailIdx[0]], slot, firstOk, retryOk) == Some(tail[0])
    ensures |ClipsFor(segments, slot, firstOk, retryOk)| == |DrawnIndices(segments, firstOk, retryOk)|
    ensures forall j :: 0 <= j < |ClipsFor(segments, slot, firstOk, retryOk)| ==>
              var i := DrawnIndices(segments, firstOk, retryOk)[j];
              ClipFor(i, segments[i], slot, firstOk, retryOk) == Some(ClipsFor(segments, slot, firstOk, retryOk)[j])
  {
    var all := before + tail;
    var idx := frontIdx + tailIdx;
    forall j | 0 <= j < |all|
      ensures ClipFor(idx[j], segments[idx[j]], slot, firstOk, retryOk) == Some(all[j])
    {
      if j < |before| {
        assert all[j] == before[j] && idx[j] == frontIdx[j];
      } else {
        assert all[j] == tail[0] && idx[j] == tailIdx[0];
      }
    }
  }

  /**
   * When only some drawings fail, every surviving caption still belongs to one segment, in segment
   * order: it starts at that segment's own slot, so a dropped segment leaves a gap, and it shows the
   * segment, or its first thirty characters when only the second drawing succeeded. The segments
   * drawn are exactly those that are not blank and have one drawing that succeeds.
   */
  lemma {:induction false} SurvivingCaptions(segments: seq<string>, slot: real, firstOk: nat -> bool, retryOk: nat -> bool)
    ensures var r := ClipsFor(segments, slot, firstOk, retryOk);
            var idx := DrawnIndices(segments, firstOk, retryOk);
            |r| == |idx| &&
            forall j :: 0 <= j < |r| ==>
              !IsBlank(segments[idx[j]]) && r[j].start == StartAt(idx[j], slot) &&
              (firstOk(idx[j]) ==> r[j].text == segments[idx[j]]) &&
              (!firstOk(idx[j]) ==> retryOk(idx[j]) && r[j].text == Shortened(segments[idx[j]]))
    ensures forall j, k :: 0 <= j < k < |DrawnIndices(segments, firstOk, retryOk)| ==>
              DrawnIndices(segments, firstOk, retryOk)[j] < DrawnIndices(segments, firstOk, retryOk)[k]
    ensures forall i :: 0 <= i < |segments| ==>
              (i in DrawnIndices(segments, firstOk, retryOk) <==> Drawn(i, segments[i], firstOk, retryOk))
  {
    ClipsForDrawn(segments, slot, firstOk, retryOk);
    DrawnIndicesIncrease(segments, firstOk, retryOk);
    DrawnIndicesExact(segments, firstOk, retryOk);
  }

  /** A caption drawn at the second try holds at most the first thirty characters of its segment. */
  lemma {:induction false} RetryIsShortened(i: nat, segment: string, slot: real, firstOk: nat -> bool, retryOk: nat -> bool)
    requires !IsBlank(segment) && !firstOk(i) && retryOk(i)
    ensures ClipFor(i, segment, slot, firstOk, retryOk).Some?
    ensures var t := ClipFor(i, segment, slot, firstOk, retryOk).value.text; |t| <= 30 && t == segment[..|t|]
  {
  }

  // ---------------------------------------------------------------- create_simple_subtitles_from_text

  /** The captions made from a word list, or the exception raised on the way (lines 21-92). */
  function CaptionsOfWords(words: seq<string>, videoDuration: real, firstOk: nat -> bool, retryOk: nat -> bool): Result<seq<Caption>, CaptionError> {
    match Segments(words)
    case Err(e) => Err(e)
    case Ok(segments) =>
      if segments == [] then Err(NoSegments)
      else Ok(ClipsFor(segments, videoDuration / (|segments| as real), firstOk, retryOk))
  }

  /** The captions `create_simple_subtitles_from_text` returns, or the exception it raises (lines 9-92). */
  function SimpleSubtitles(text: string, videoDuration: real, firstOk: nat -> bool, retryOk: nat -> bool): Result<seq<Caption>, CaptionError> {
    var words := Words(CleanedForSubtitles(text));
    CaptionsOfWords(if words == [] then PlaceholderWords else words, videoDuration, firstOk, retryOk)
  }

  method CreateSimpleSubtitles(text: string, videoDuration: real, firstOk: nat -> bool, retryOk: nat -> bool)
    returns (r: Result<seq<Caption>, CaptionError>)
    ensures r == SimpleSubtitles(text, videoDuration, firstOk, retryOk)
  {
    var cleaned := CleanTextForSubtitles(text);
    var words := Words(cleaned);
    if words == [] {
      words := PlaceholderWords;
    }
    var segments := SplitIntoSegments(words);
    if segments.Err? {
      return Err(segments.error);
    }
    r := CaptionClips(segments.value, videoDuration, firstOk, retryOk);
  }

  /** No segment of a word list is blank. */
  lemma {:induction false} SegmentsNotBlank(words: seq<string>)
    requires |words| >= 5 && AllWords(words)
    ensures Segments(words).Ok?
    ensures forall i :: 0 <= i < |Segments(words).value| ==> !IsBlank(Segments(words).value[i])
  {
    SegmentsOfEnoughWords(words);
    var segments := Segments(words).value;
    var cs := Chunks(words, Step(|words|));
    forall i | 0 <= i < |segments|
      ensures !IsBlank(segments[i])
    {
      assert AllWords(cs[i]) by {
        ChunkOfWords(cs, i);
      }
      JoinedWordsAreStripped(cs[i]);
      StripEmptyIffBlank(segments[i]);
    }
  }

  /**
   * Captions from a word list fail exactly when it has fewer than five
   * words.  Otherwise there are five to nine segments, and when each is drawn
   * at the first try the captions show the segments in order, in equal
   * slots that tile the whole video.
   */
  lemma {:induction false} CaptionsOfWordsOutcome(words: seq<string>, videoDuration: real, firstOk: nat -> bool, retryOk: nat -> bool)
    requires AllWords(words)
    ensures CaptionsOfWords(words, videoDuration, firstOk, retryOk).Err? <==> |words| < 5
    ensures |words| < 5 ==> CaptionsOfWords(words, videoDuration, firstOk, retryOk) == Err(ZeroStep)
    ensures |words| >= 5 && (forall i: nat :: firstOk(i)) ==>
              var segments := Segments(words).value;
              var clips := CaptionsOfWords(words, videoDuration, firstOk, retryOk).value;
              5 <= |clips| == |segments| <= 9
              && (forall i :: 0 <= i < |clips| ==>
                    clips[i].text == segments[i]
                    && clips[i].start == SlotStart(i, |clips|, videoDuration)
                    && clips[i].duration == videoDuration / (|clips| as real))
    ensures |words| >= 5 && (forall i: nat :: !firstOk(i) && !retryOk(i)) ==>
              CaptionsOfWords(words, videoDuration, firstOk, retryOk) == Ok([])
  {
    CaptionsOfFewWords(words, videoDuration, firstOk, retryOk);
    if |words| >= 5 {
      if forall i: nat :: firstOk(i) {
        CaptionsOfWordsInSlots(words, videoDuration, firstOk, retryOk);
      }
      if forall i: nat :: !firstOk(i) && !retryOk(i) {
        CaptionsOfWordsNoneDrawn(words, videoDuration, firstOk, retryOk);
      }
    }
  }

  /** The word-list path fails exactly on fewer than five words, and then with the zero-step error. */
  lemma {:induction false} CaptionsOfFewWords(words: seq<string>, videoDuration: real, firstOk: nat -> bool, retryOk: nat -> bool)
    requires AllWords(words)
    ensures CaptionsOfWords(words, videoDuration, firstOk, retryOk).Err? <==> |words| < 5
    ensures |words| < 5 ==> CaptionsOfWords(words, videoDuration, firstOk, retryOk) == Err(ZeroStep)
  {
    if |words| >= 5 {
      SegmentsOfEnoughWords(words);
    }
  }

  /** Enough words, each segment drawn at the first try: the segments in order, in equal slots. */
  lemma {:induction false} CaptionsOfWordsInSlots(words: seq<string>, videoDuration: real, firstOk: nat -> bool, retryOk: nat -> bool)
    requires AllWords(words) && |words| >= 5 && forall i: nat :: firstOk(i)
    ensures Segments(words).Ok? && CaptionsOfWords(words, videoDuration, firstOk, retryOk).Ok?
    ensures var segments := Segments(words).value;
            var clips := CaptionsOfWords(words, videoDuration, firstOk, retryOk).value;
            5 <= |clips| == |segments| <= 9
            && (forall i :: 0 <= i < |clips| ==>
                  clips[i].text == segments[i]
                  && clips[i].start == SlotStart(i, |clips|, videoDuration)
                  && clips[i].duration == videoDuration / (|clips| as real))
  {
    SegmentsOfEnoughWords(words);
    SegmentsNotBlank(words);
    ClipsInSlots(Segments(words).value, videoDuration, firstOk, retryOk);
  }

  /** Enough words, but no drawing ever succeeds: no captions and no error. */
  lemma {:induction false} CaptionsOfWordsNoneDrawn(words: seq<string>, videoDuration: real, firstOk: nat -> bool, retryOk: nat -> bool)
    requires AllWords(words) && |words| >= 5 && forall i: nat :: !firstOk(i) && !retryOk(i)
    ensures CaptionsOfWords(words, videoDuration, firstOk, retryOk) == Ok([])
  {
    SegmentsOfEnoughWords(words);
    SegmentsNotBlank(words);
    var segments := Segments(words).value;
    NoClipDrawn(segments, videoDuration / (|segments| as real), firstOk, retryOk);
  }

  /** Segments that are all drawn at the first try fill equal slots of the video, in order. */
  lemma {:induction false} ClipsInSlots(segments: seq<string>, videoDuration: real, firstOk: nat -> bool, retryOk: nat -> bool)
    requires segments != [] && forall i :: 0 <= i < |segments| ==> !IsBlank(segments[i])
    requires forall i: nat :: firstOk(i)
    ensures var clips := ClipsFor(segments, videoDuration / (|segments| as real), firstOk, retryOk);
            |clips| == |segments|
            && forall i :: 0 <= i < |clips| ==>
                 clips[i].text == segments[i]
                 && clips[i].start == SlotStart(i, |clips|, videoDuration)
                 && clips[i].duration == videoDuration / (|clips| as real)
  {
    var slot := videoDuration / (|segments| as real);
    AllClipsDrawn(segments, slot, firstOk, retryOk);
  }

  /** `create_simple_subtitles_from_text` raises exactly when the cleaned text has fewer than five words. */
  lemma {:induction false} SimpleSubtitlesOutcome(text: string, videoDuration: real, firstOk: nat -> bool, retryOk: nat -> bool)
    ensures SimpleSubtitles(text, videoDuration, firstOk, retryOk).Err? <==> |Words(CleanedForSubtitles(text))| < 5
    ensures |Words(CleanedForSubtitles(text))| < 5 ==> SimpleSubtitles(text, videoDuration, firstOk, retryOk) == Err(ZeroStep)
    ensures SimpleSubtitles(text, videoDuration, firstOk, retryOk)
            == CaptionsOfWords(Words(CleanedForSubtitles(text)), videoDuration, firstOk, retryOk)
    ensures |Words(CleanedForSubtitles(text))| >= 5 && (forall i: nat :: !firstOk(i) && !retryOk(i)) ==>
              SimpleSubtitles(text, videoDuration, firstOk, retryOk) == Ok([])
  {
    CleanedHasWords(text);
    CaptionsOfWordsOutcome(Words(CleanedForSubtitles(text)), videoDuration, firstOk, retryOk);
  }

  // ---------------------------------------------------------------- burn_subtitles_on_video

  /** `f"{base}_subtitled{ext}"` with `base, ext = os.path.splitext(video_path)`. */
  function DefaultOutputPath(videoPath: string): (r: string)
    ensures |r| == |videoPath| + 10 && r != videoPath
    ensures var base := SplitExt(videoPath).0;
            r[..|base|] == base && r[|base|..|base| + 10] == "_subtitled"
            && r[..|base|] + r[|base| + 10..] == videoPath
  {
    var (base, ext) := SplitExt(videoPath);
    var r := base + "_subtitled" + ext;
    assert r[..|base|] == base && r[|base| + 10..] == ext;
    r
  }

  /**
   * What `burn_subtitles_on_video` returns (lines 162-236), next to the
   * captions it lays over the video (empty when it gives up).  `duration`
   * is the loaded video's length, or `None` when loading raises;
   * `fallbackOk` and `writeOk` say whether drawing the fallback caption and
   * writing the file succeed.
   */
  function Burned(videoPath: string, text: string, outputPath: Option<string>, duration: Option<real>,
                  firstOk: nat -> bool, retryOk: nat -> bool, fallbackOk: bool, writeOk: bool): (string, seq<Caption>)
  {
    var out := if outputPath.None? then DefaultOutputPath(videoPath) else outputPath.value;
    if duration.None? then (videoPath, [])
    else Composited(videoPath, out, duration.value, SimpleSubtitles(text, duration.value, firstOk, retryOk), fallbackOk, writeOk)
  }

  /** Lines 190-230, given the outcome of caption building. */
  function Composited(videoPath: string, out: string, videoDuration: real, subtitles: Result<seq<Caption>, CaptionError>,
                      fallbackOk: bool, writeOk: bool): (string, seq<Caption>)
  {
    match subtitles
    case Err(_) => (videoPath, [])
    case Ok(clips) =>
      if clips == [] && !fallbackOk then (videoPath, [])
      else
        var shown := if clips != [] then clips else [Caption(Placeholder, 0.0, videoDuration)];
        if writeOk then (out, shown) else (videoPath, [])
  }

  method BurnSubtitles(videoPath: string, text: string, outputPath: Option<string>, duration: Option<real>,
                       firstOk: nat -> bool, retryOk: nat -> bool, fallbackOk: bool, writeOk: bool)
    returns (r: string, shown: seq<Caption>)
    ensures (r, shown) == Burned(videoPath, text, outputPath, duration, firstOk, retryOk, fallbackOk, writeOk)
  {
    var out := if outputPath.None? then DefaultOutputPath(videoPath) else outputPath.value;
    if duration.None? {
      return videoPath, [];
    }
    var videoDuration := duration.value;
    var subtitleClips := CreateSimpleSubtitles(text, videoDuration, firstOk, retryOk);
    if subtitleClips.Err? {
      return videoPath, [];
    }
    if subtitleClips.value != [] {
      shown := subtitleClips.value;
    } else {
      if !fallbackOk {
        return videoPath, [];
      }
      shown := [Caption(Placeholder, 0.0, videoDuration)];
    }
    if !writeOk {
      return videoPath, [];
    }
    r := out;
  }

  /**
   * The outcomes of compositing: the output path with at least one caption
   * shown, or the input video when caption building failed, nothing could
   * be drawn and no fallback either, or writing failed.
   */
  lemma {:induction false} CompositedOutcome(videoPath: string, out: string, videoDuration: real,
                          subtitles: Result<seq<Caption>, CaptionError>, fallbackOk: bool, writeOk: bool)
    ensures var (r, shown) := Composited(videoPath, out, videoDuration, subtitles, fallbackOk, writeOk);
            (r == out && shown != []) || (r == videoPath && shown == [])
    ensures var (r, shown) := Composited(videoPath, out, videoDuration, subtitles, fallbackOk, writeOk);
            subtitles.Err? || !writeOk ==> r == videoPath && shown == []
    ensures var (r, shown) := Composited(videoPath, out, videoDuration, subtitles, fallbackOk, writeOk);
            subtitles.Ok? && subtitles.value != [] && writeOk ==> r == out && shown == subtitles.value
    ensures var (r, shown) := Composited(videoPath, out, videoDuration, subtitles, fallbackOk, writeOk);
            subtitles == Ok([]) && writeOk && fallbackOk ==> r == out && shown == [Caption(Placeholder, 0.0, videoDuration)]
  {
  }

  /**
   * `burn_subtitles_on_video` returns the output path, with at least one
   * caption burned in, or else the input video.  It returns the input video
   * when the duration cannot be read, when writing fails and when the cleaned
   * story has fewer than five words; when no caption at all can be drawn,
   * the placeholder caption covers the whole video.
   */
  lemma {:induction false} BurnedOutcome(videoPath: string, text: string, outputPath: Option<string>, duration: Option<real>,
                      firstOk: nat -> bool, retryOk: nat -> bool, fallbackOk: bool, writeOk: bool)
    ensures var (r, shown) := Burned(videoPath, text, outputPath, duration, firstOk, retryOk, fallbackOk, writeOk);
            var out := outputPath.GetOr(DefaultOutputPath(videoPath));
            (r == out && shown != []) || (r == videoPath && shown == [])
    ensures var (r, shown) := Burned(videoPath, text, outputPath, duration, firstOk, retryOk, fallbackOk, writeOk);
            duration.None? || !writeOk || |Words(CleanedForSubtitles(text))| < 5 ==> r == videoPath && shown == []
    ensures var (r, shown) := Burned(videoPath, text, outputPath, duration, firstOk, retryOk, fallbackOk, writeOk);
            duration.Some? && writeOk && fallbackOk && |Words(CleanedForSubtitles(text))| >= 5
            && (forall i: nat :: !firstOk(i) && !retryOk(i)) ==>
              r == outputPath.GetOr(DefaultOutputPath(videoPath)) && shown == [Caption(Placeholder, 0.0, duration.value)]
  {
    if duration.Some? {
      var out := outputPath.GetOr(DefaultOutputPath(videoPath));
      var subtitles := SimpleSubtitles(text, duration.value, firstOk, retryOk);
      SimpleSubtitlesOutcome(text, duration.value, firstOk, retryOk);
      CompositedOutcome(videoPath, out, duration.value, subtitles, fallbackOk, writeOk);
    }
  }
}
