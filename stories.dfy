/**
 * The story generator (story_generator.py): the genre, hook and hook-type
 * tables, the title rule, the text normaliser applied to every generated
 * story, the search for a saved script by its id, and the failure and
 * key-rotation control flow of story and continuation generation.  The
 * text service is represented by the replies it gives; ids, dates and the
 * random prompt choice are inputs.
 */
module Stories {
  import opened Outcomes
  import opened PyStrings
  import opened KeyStore
  import opened Settings

  // ---------------------------------------------------------------- lookups

  /** The hook instruction per genre (story_generator.py:170-176). */
  const HookTable: map<string, string> := map[
    "aita" :=
      "Start with a shocking revelation or " +
        "controversial statement that immediately " +
        "grabs attention. Use phrases like 'You " +
        "won't believe what happened next' or " +
        "'This changed everything'.",
    "confessions" :=
      "Begin with a surprising admission or " +
        "secret that creates instant curiosity. " +
        "Use phrases like 'I've been hiding this " +
        "for years' or 'What I'm about to tell " +
        "you will shock you'.",
    "horror" :=
      "Start with an eerie atmosphere or " +
        "unexplained event that creates tension. " +
        "Use phrases like 'Something wasn't " +
        "right' or 'I should have known better'.",
    "malicious_compliance" :=
      "Begin with a situation where someone " +
        "follows rules to the extreme with " +
        "unexpected results. Use phrases like 'I " +
        "did exactly what they asked' or 'They " +
        "got what they wanted, but not what they " +
        "expected'.",
    "inspiring" :=
      "Start with a relatable problem or " +
        "challenge that everyone faces. Use " +
        "phrases like 'We've all been there' or " +
        "'This moment changed everything'."
  ]

  /** The hook type recorded with each story (story_generator.py:181-187). */
  const HookTypes: map<string, string> := map[
    "aita" := "controversial_statement",
    "confessions" := "surprising_admission",
    "horror" := "eerie_atmosphere",
    "malicious_compliance" := "rule_following_extreme",
    "inspiring" := "relatable_problem"
  ]

  const DefaultGenre: string := "inspiring"

  /** `get_hook_instruction`: an unknown genre gets the inspiring hook. */
  function HookInstruction(genre: string): (r: string)
    ensures genre in HookTable ==> r == HookTable[genre]
    ensures genre !in HookTable ==> r == HookTable[DefaultGenre]
  {
    if genre in HookTable then HookTable[genre] else HookTable[DefaultGenre]
  }

  /** `get_hook_type`: an unknown genre gets "relatable_problem". */
  function HookType(genre: string): (r: string)
    ensures genre in HookTypes ==> r == HookTypes[genre]
    ensures genre !in HookTypes ==> r == "relatable_problem"
  {
    if genre in HookTypes then HookTypes[genre] else "relatable_problem"
  }

  /** `Config.GENRE_PROMPTS.get(genre, Config.GENRE_PROMPTS["inspiring"])`, never empty. */
  function PromptsFor(genre: string): (r: seq<string>)
    ensures |r| == 5
  {
    if genre in GenrePrompts then GenrePrompts[genre] else GenrePrompts[DefaultGenre]
  }

  /**
   * What `generate_story` uses of a genre's table entries: the genre itself,
   * its hook instruction, its prompt list and its hook type.
   */
  datatype Prompting = Prompting(genre: string, hook: string, prompts: seq<string>, hookType: string)

  /** The table entries `generate_story` looks up for `genre`. */
  function PromptingFor(genre: string): (r: Prompting)
    ensures r.genre == genre && |r.prompts| == 5
  {
    Prompting(genre, HookInstruction(genre), PromptsFor(genre), HookType(genre))
  }

  /** The prompt sent when the random choice falls on entry `pick`: the hook, a blank line, the prompt. */
  function PromptOf(p: Prompting, pick: nat): string
    requires pick < |p.prompts|
  {
    p.hook + "\n\n" + p.prompts[pick]
  }

  /** The prompt sent for `genre` when the random choice falls on entry `pick`. */
  function FullPrompt(genre: string, pick: nat): string
    requires pick < 5
  {
    PromptOf(PromptingFor(genre), pick)
  }

  /** The three tables cover the same genres, the ones the configuration lists. */
  lemma {:induction false} TablesAgree(genre: string)
    ensures genre in HookTable <==> genre in Genres
    ensures genre in HookTypes <==> genre in Genres
    ensures genre in GenrePrompts <==> genre in Genres
  {
  }

  /** An unknown genre is treated exactly like "inspiring": same prompts, hook and hook type. */
  lemma {:induction false} UnknownGenreIsInspiring(genre: string, pick: nat)
    requires genre !in Genres && pick < 5
    ensures PromptsFor(genre) == PromptsFor(DefaultGenre)
    ensures HookInstruction(genre) == HookInstruction(DefaultGenre)
    ensures HookType(genre) == HookType(DefaultGenre) == "relatable_problem"
    ensures FullPrompt(genre, pick) == FullPrompt(DefaultGenre, pick)
    ensures PromptingFor(genre) == PromptingFor(DefaultGenre).(genre := genre)
  {
    TablesAgree(genre);
  }

  /** The prompt starts with the hook instruction, and a blank line and the chosen prompt follow it. */
  lemma {:induction false} PromptShape(p: Prompting, pick: nat)
    requires pick < |p.prompts|
    ensures StartsWith(PromptOf(p, pick), p.hook) && PromptOf(p, pick)[|p.hook|..] == "\n\n" + p.prompts[pick]
  {
    assert PromptOf(p, pick) == p.hook + ("\n\n" + p.prompts[pick]);
  }

  /** The fixed parts of the continuation prompt. */
  const ContinuationHead: string := "\n            This is a continuation of a "
  const ContinuationMiddle: string := " story. The original story was:\n            \n            \""
  const ContinuationTail: string :=
    "\"\n            \n            " +
      "Now write the next part of this story. " +
      "Make it engaging and continue the " +
      "narrative naturally. \n            " +
      "Keep it around 60 seconds when read " +
      "aloud. Make sure it has a satisfying " +
      "continuation that builds on the " +
      "original story.\n            "

  /** `x` and `y` written into a template of three fixed parts. */
  function Framed(head: string, x: string, middle: string, y: string, tail: string): (r: string)
    ensures Contains(r, x) && Contains(r, y)
  {
    InfixContained(head, x, middle + y + tail);
    InfixContained(head + x + middle, y, tail);
    assert head + x + (middle + y + tail) == head + x + middle + y + tail;
    head + x + middle + y + tail
  }

  /** The prompt of `generate_continuation` (story_generator.py:114-121): it quotes the genre and the original story. */
  function ContinuationPrompt(genre: string, story: string): (r: string)
    ensures Contains(r, story) && Contains(r, genre)
  {
    Framed(ContinuationHead, genre, ContinuationMiddle, story, ContinuationTail)
  }

  // ---------------------------------------------------------------- generate_title

  /**
   * `generate_title`: the stripped first line, cut to fifty characters plus
   * "..." when it is longer.
   */
  function Title(story: string): (r: string)
    ensures var first := Strip(SplitOn(story, '\n')[0]);
            |r| <= 53
            && (|first| <= 50 ==> r == first)
            && (|first| > 50 ==> r == first[..50] + "...")
  {
    var first := Strip(SplitOn(story, '\n')[0]);
    if |first| > 50 then first[..50] + "..." else first
  }

  // ---------------------------------------------------------------- clean_story_text

  /** The openings of the metadata lines a saved script may carry. */
  const TitleTag: string := "TITLE:"
  const GenreTag: string := "GENRE:"
  const DateTag: string := "DATE:"

  /** `ch in '.!?'`: the characters a cleaned story may end with. */
  predicate EndsSentence(ch: char) {
    ch == '.' || ch == '!' || ch == '?'
  }

  /** A stripped line that `clean_story_text` drops as metadata. */
  predicate Metadata(line: string) {
    StartsWith(line, TitleTag) || StartsWith(line, GenreTag) || StartsWith(line, DateTag)
  }

  /** A stripped line that `clean_story_text` keeps. */
  predicate KeepsStoryLine(line: string) {
    line != [] && !Metadata(line)
  }

  /** The stripped lines the loop at story_generator.py:209-213 keeps, in order. */
  function StoryLines(lines: seq<string>): (r: seq<string>)
    ensures |r| <= |lines|
    ensures forall i :: 0 <= i < |r| ==> KeepsStoryLine(r[i]) && Strip(r[i]) == r[i]
  {
    if lines == [] then []
    else
      var kept := StoryLines(lines[..|lines| - 1]);
      var line := Strip(lines[|lines| - 1]);
      StripIdempotent(lines[|lines| - 1]);
      if KeepsStoryLine(line) then kept + [line] else kept
  }

  /** A line survives exactly when its stripped form is neither blank nor metadata. */
  lemma {:induction false} StoryLinesMembers(lines: seq<string>)
    ensures forall x :: x in StoryLines(lines) <==> exists l :: l in lines && x == Strip(l) && KeepsStoryLine(x)
  {
    if lines != [] {
      var init := lines[..|lines| - 1];
      var last := lines[|lines| - 1];
      StoryLinesMembers(init);
      assert lines == init + [last];
      assert forall l :: l in lines <==> l in init || l == last;
      assert StoryLines(lines) == if KeepsStoryLine(Strip(last)) then StoryLines(init) + [Strip(last)] else StoryLines(init);
    }
  }

  /** `cleaned_text += '.'` unless the text is empty or already ends in '.', '!' or '?'. */
  function Punctuate(s: string): (r: string)
    ensures r == [] <==> s == []
    ensures r != [] ==> EndsSentence(r[|r| - 1])
    ensures s != [] && EndsSentence(s[|s| - 1]) ==> r == s
    ensures s != [] && !EndsSentence(s[|s| - 1]) ==> r == s + "."
  {
    if s != [] && !EndsSentence(s[|s| - 1]) then s + "." else s
  }

  /** What `clean_story_text` returns (story_generator.py:203-225). */
  function CleanedStory(text: string): string {
    CleanedOfLines(StoryLines(SplitOn(text, '\n')))
  }

  /** What `clean_story_text` makes of the lines it keeps. */
  function CleanedOfLines(kept: seq<string>): string {
    Punctuate(Collapse(Join(" ", kept)))
  }

  /** Lines as the loop keeps them. */
  predicate KeptLines(kept: seq<string>) {
    forall i :: 0 <= i < |kept| ==> KeepsStoryLine(kept[i]) && Strip(kept[i]) == kept[i]
  }

  /** The loop of `clean_story_text`, which builds the kept lines by appends. */
  method KeepStoryLines(lines: seq<string>) returns (kept: seq<string>)
    ensures kept == StoryLines(lines)
  {
    kept := [];
    for i := 0 to |lines|
      invariant kept == StoryLines(lines[..i])
    {
      assert lines[..i + 1][..i] == lines[..i];
      var line := Strip(lines[i]);
      if line != [] && !StartsWith(line, TitleTag) && !StartsWith(line, GenreTag) && !StartsWith(line, DateTag) {
        kept := kept + [line];
      }
    }
    assert lines[..|lines|] == lines;
  }

  /**
   * `clean_story_text`: the line loop, then `' '.join(text.split())`, then
   * the closing '.' of `Punctuate`.
   */
  method CleanStoryText(text: string) returns (r: string)
    ensures r == CleanedStory(text)
  {
    var kept := KeepStoryLines(SplitOn(text, '\n'));
    r := Punctuate(Collapse(Join(" ", kept)));
  }

  /** The words of `s`, with a '.' added to the last one unless it already ends in '.', '!' or '?'. */
  function PunctuatedWords(ws: seq<string>): (vs: seq<string>)
    requires forall i :: 0 <= i < |ws| ==> IsWord(ws[i])
    ensures |vs| == |ws|
    ensures forall i :: 0 <= i < |vs| ==> IsWord(vs[i])
  {
    if ws == [] then []
    else
      var last := ws[|ws| - 1];
      assert IsWord(last);
      if EndsSentence(last[|last| - 1]) then ws
      else
        var v := last + ".";
        assert forall i :: 0 <= i < |v| ==> !IsSpace(v[i]) by {
          assert forall i :: 0 <= i < |last| ==> v[i] == last[i];
          assert v[|last|] == '.';
        }
        ws[..|ws| - 1] + [v]
  }

  /** Punctuating text made of words joined by blanks adds the '.' to the last word. */
  lemma {:induction false} PunctuateJoin(ws: seq<string>)
    requires forall i :: 0 <= i < |ws| ==> IsWord(ws[i])
    ensures Punctuate(Join(" ", ws)) == Join(" ", PunctuatedWords(ws))
  {
    if ws != [] {
      var last := ws[|ws| - 1];
      LastCharOfJoin(ws);
      if !EndsSentence(last[|last| - 1]) {
        JoinAppend(ws, '.');
        assert PunctuatedWords(ws) == ws[..|ws| - 1] + [last + "."];
      }
    }
  }

  /** Words joined by blanks end in the last character of the last word. */
  lemma {:induction false} LastCharOfJoin(ws: seq<string>)
    requires ws != [] && IsWord(ws[|ws| - 1])
    ensures var j := Join(" ", ws); var last := ws[|ws| - 1];
            j != [] && j[|j| - 1] == last[|last| - 1]
  {
    var last := ws[|ws| - 1];
    var j := Join(" ", ws);
    JoinEndsWithLast(" ", ws);
    assert j[|j| - 1] == j[|j| - |last|..][|last| - 1];
  }

  /** The cleaned story is a list of words joined by single blanks. */
  lemma {:induction false} CleanedIsJoinedWords(kept: seq<string>)
    ensures CleanedOfLines(kept) == Join(" ", PunctuatedWords(Words(Join(" ", kept))))
  {
    PunctuateJoin(Words(Join(" ", kept)));
  }

  /**
   * No newline, no white space at either end and no run of white space:
   * every white-space character is a single blank between two words.
   * When not empty, the text ends in '.', '!' or '?'.
   */
  predicate CleanShaped(c: string) {
    Tidy(c) && '\n' !in c && Strip(c) == c && (c != [] ==> EndsSentence(c[|c| - 1]))
  }

  /** The shape of the cleaned text, whatever lines were kept. */
  lemma {:induction false} CleanedShape(kept: seq<string>)
    ensures CleanShaped(CleanedOfLines(kept))
  {
    var c := CleanedOfLines(kept);
    CleanedIsJoinedWords(kept);
    JoinIsTidy(PunctuatedWords(Words(Join(" ", kept))));
    assert IsSpace('\n');
    if c != [] {
      assert !IsSpace(c[0]) && !IsSpace(c[|c| - 1]);
    }
    StripKeeps(c);
  }

  /** The cleaned story is tidy white space, has no newline and ends a sentence. */
  lemma {:induction false} CleanedStoryShape(text: string)
    ensures CleanShaped(CleanedStory(text))
  {
    CleanedShape(StoryLines(SplitOn(text, '\n')));
  }

  /** The part of `s` before index `k` holds all of a prefix `p` when the character at `k` is not in `p`. */
  lemma {:induction false} PrefixEndsBefore(s: string, p: string, k: nat)
    requires StartsWith(s, p) && k <= |s|
    requires k == |s| || s[k] !in p
    ensures |p| <= k
  {
  }

  /** Joined text is at least its first piece, followed by the blank or by nothing. */
  lemma {:induction false} JoinAfterFirst(ws: seq<string>)
    requires |ws| > 0
    ensures |Join(" ", ws)| >= |ws[0]| && Join(" ", ws)[..|ws[0]|] == ws[0]
    ensures |Join(" ", ws)| == |ws[0]| || Join(" ", ws)[|ws[0]|] == ' '
  {
    JoinStartsWithFirst(" ", ws);
    if |ws| > 1 {
      assert Join(" ", ws) == ws[0] + " " + Join(" ", ws[1..]);
    }
  }

  /** A prefix without blank or '.' that opens punctuated words opens the first word. */
  lemma {:induction false} PunctuatedOpensLikeFirstWord(ws: seq<string>, p: string)
    requires ' ' !in p && '.' !in p
    requires ws != [] && forall i :: 0 <= i < |ws| ==> IsWord(ws[i])
    ensures StartsWith(Punctuate(Join(" ", ws)), p) ==> StartsWith(ws[0], p)
  {
    var collapsed := Join(" ", ws);
    var c := Punctuate(collapsed);
    var w := ws[0];
    if StartsWith(c, p) {
      JoinAfterFirst(ws);
      if c == collapsed {
        PrefixEndsBefore(c, p, |w|);
      } else {
        assert c == collapsed + ".";
        assert c[..|w|] == w && (|c| == |w| || c[|w|] == ' ' || c[|w|] == '.');
        PrefixEndsBefore(c, p, |w|);
      }
      assert w[..|p|] == c[..|p|];
    }
  }

  /** A prefix of the first word of a text that opens with a non-space character is a prefix of the text. */
  lemma {:induction false} WordsOpenLikeText(j: string, p: string)
    requires j != [] && !IsSpace(j[0])
    ensures StartsWith(Words(j)[0], p) ==> StartsWith(j, p)
  {
    FirstWord(j);
    if StartsWith(Words(j)[0], p) {
      PrefixOfPrefix(j, WordLength(j), p);
    }
  }

  /** What opens a prefix of a text opens the text. */
  lemma {:induction false} PrefixOfPrefix(j: string, k: nat, p: string)
    requires k <= |j| && StartsWith(j[..k], p)
    ensures StartsWith(j, p)
  {
    assert j[..k][..|p|] == j[..|p|];
  }

  /** A prefix without blank that opens joined lines opens the first line. */
  lemma {:induction false} JoinOpensLikeFirst(kept: seq<string>, p: string)
    requires ' ' !in p && kept != []
    ensures StartsWith(Join(" ", kept), p) ==> StartsWith(kept[0], p)
  {
    var j := Join(" ", kept);
    if StartsWith(j, p) {
      JoinAfterFirst(kept);
      PrefixEndsBefore(j, p, |kept[0]|);
      assert kept[0][..|p|] == j[..|p|];
    }
  }

  /**
   * A prefix that holds no blank and no '.' opens the cleaned text only if
   * it opens the first kept line.
   */
  lemma {:induction false} CleanedOpensLikeFirstLine(kept: seq<string>, p: string)
    requires ' ' !in p && '.' !in p
    requires KeptLines(kept) && kept != []
    ensures StartsWith(CleanedOfLines(kept), p) ==> StartsWith(kept[0], p)
  {
    var j := Join(" ", kept);
    JoinAfterFirst(kept);
    assert j[0] == kept[0][0];
    FirstWord(j);
    PunctuatedOpensLikeFirstWord(Words(j), p);
    WordsOpenLikeText(j, p);
    JoinOpensLikeFirst(kept, p);
  }

  lemma {:induction false} TagsHoldNoBlankOrDot()
    ensures ' ' !in TitleTag && '.' !in TitleTag
    ensures ' ' !in GenreTag && '.' !in GenreTag
    ensures ' ' !in DateTag && '.' !in DateTag
  {
  }

  /** The cleaned text never itself reads as a metadata line. */
  lemma {:induction false} CleanedIsNotMetadata(kept: seq<string>)
    requires KeptLines(kept) && kept != []
    ensures !Metadata(CleanedOfLines(kept))
  {
    TagsHoldNoBlankOrDot();
    CleanedOpensLikeFirstLine(kept, TitleTag);
    CleanedOpensLikeFirstLine(kept, GenreTag);
    CleanedOpensLikeFirstLine(kept, DateTag);
  }

  /** The cleaned text is empty exactly when no line was kept. */
  lemma {:induction false} CleanedOfLinesEmptyIff(kept: seq<string>)
    requires KeptLines(kept)
    ensures CleanedOfLines(kept) == [] <==> kept == []
  {
    if kept != [] {
      var j := Join(" ", kept);
      JoinAfterFirst(kept);
      FirstWord(j);
      JoinAfterFirst(Words(j));
    }
  }

  /** The cleaned story is empty exactly when every line is blank or metadata. */
  lemma {:induction false} CleanedEmptyIff(text: string)
    ensures CleanedStory(text) == [] <==> StoryLines(SplitOn(text, '\n')) == []
    ensures CleanedStory(text) == [] <==> forall l :: l in SplitOn(text, '\n') ==> !KeepsStoryLine(Strip(l))
  {
    var lines := SplitOn(text, '\n');
    var kept := StoryLines(lines);
    StoryLinesMembers(lines);
    CleanedOfLinesEmptyIff(kept);
    if kept != [] {
      assert kept[0] in kept;
    }
  }

  /** No kept lines clean to empty text. */
  lemma {:induction false} CleanedOfNoLines()
    ensures CleanedOfLines([]) == []
  {
    assert Words(Join(" ", [])) == [];
  }

  /** Empty text cleans to empty text. */
  lemma {:induction false} CleanedOfEmpty()
    ensures CleanedStory([]) == []
  {
    assert SplitOn([], '\n') == [[]];
    assert StoryLines([[]]) == [];
  }

  /** A single line that is kept as it is. */
  lemma {:induction false} StoryLinesOfOne(c: string)
    requires Strip(c) == c && KeepsStoryLine(c)
    ensures StoryLines([c]) == [c]
  {
    assert [c][..0] == [];
  }

  /** A kept line without newline cleans as that one line. */
  lemma {:induction false} CleanedOfOneLine(c: string)
    requires '\n' !in c && Strip(c) == c && KeepsStoryLine(c)
    ensures CleanedStory(c) == Punctuate(Collapse(c))
  {
    SplitOnAbsent(c, '\n');
    StoryLinesOfOne(c);
    assert Join(" ", [c]) == c;
  }

  /** Words joined by blanks and ending a sentence are left alone by collapsing and punctuating. */
  lemma {:induction false} JoinedSentenceIsFixed(c: string, vs: seq<string>)
    requires forall i :: 0 <= i < |vs| ==> IsWord(vs[i])
    requires c == Join(" ", vs) && c != [] && EndsSentence(c[|c| - 1])
    ensures Punctuate(Collapse(c)) == c
  {
    WordsOfJoin(vs);
    assert Collapse(c) == c;
  }

  /** Words joined by blanks, ending a sentence and not reading as metadata, clean to themselves. */
  lemma {:induction false} CleanShapedIsFixed(c: string, vs: seq<string>)
    requires forall i :: 0 <= i < |vs| ==> IsWord(vs[i])
    requires c == Join(" ", vs) && c != [] && CleanShaped(c) && !Metadata(c)
    ensures CleanedStory(c) == c
  {
    CleanedOfOneLine(c);
    JoinedSentenceIsFixed(c, vs);
  }

  /** Cleaning the cleaned text of kept lines changes nothing. */
  lemma {:induction false} CleanedOfLinesIdempotent(kept: seq<string>)
    requires KeptLines(kept)
    ensures CleanedStory(CleanedOfLines(kept)) == CleanedOfLines(kept)
  {
    CleanedOfLinesEmptyIff(kept);
    if kept == [] {
      CleanedOfEmpty();
    } else {
      CleanedShape(kept);
      CleanedIsNotMetadata(kept);
      CleanedIsJoinedWords(kept);
      CleanShapedIsFixed(CleanedOfLines(kept), PunctuatedWords(Words(Join(" ", kept))));
    }
  }

  /** Cleaning a cleaned story changes nothing. */
  lemma {:induction false} CleanedStoryIdempotent(text: string)
    ensures CleanedStory(CleanedStory(text)) == CleanedStory(text)
  {
    CleanedOfLinesIdempotent(StoryLines(SplitOn(text, '\n')));
  }

  /** The title of a cleaned story is its opening: all of it up to fifty characters, else fifty and "...". */
  lemma {:induction false} TitleOfCleaned(text: string)
    ensures var c := CleanedStory(text);
            Title(c) == if |c| <= 50 then c else c[..50] + "..."
  {
    var c := CleanedStory(text);
    CleanedStoryShape(text);
    SplitOnAbsent(c, '\n');
  }

  // ---------------------------------------------------------------- generate_story

  /** A saved script: the dictionary `generate_story` or `generate_continuation` builds. */
  datatype StoryRecord =
    | Original(story: string, genre: string, videoId: string, title: string, date: string, hookType: string)
    | Continuation(story: string, genre: string, videoId: string, title: string, date: string, originalId: string)

  /** What one `generate` request of the text service gives: the generated text, or an exception. */
  datatype Reply = Generated(text: string) | Raised

  /**
   * One pass through the body of `generate_story`: where the random prompt
   * choice falls, the service's reply, and the id and date a successful pass
   * stamps on the record.
   */
  datatype Attempt = Attempt(pick: nat, reply: Reply, videoId: string, date: string)

  /** `update_cohere_client`: a client for a truthy key, otherwise none. */
  function ClientFor(key: Option<string>): (r: Option<string>)
    ensures r.Some? <==> key.Some? && key.value != []
    ensures r.Some? ==> r == key
  {
    if key.Some? && key.value != [] then key else None
  }

  /** The client `update_cohere_client` builds from a key list, the other list and the preferred provider. */
  function StoryClient(eleven: seq<string>, provider: string): seq<string> -> Option<string> {
    keys => ClientFor(PreferredKey(keys, eleven, provider))
  }

  /** Every prompt choice falls inside the prompt list. */
  predicate ValidPicks(p: Prompting, attempts: seq<Attempt>) {
    forall i :: 0 <= i < |attempts| ==> attempts[i].pick < |p.prompts|
  }

  /** The record `generate_story` builds around the stripped generated text. */
  function NewStory(p: Prompting, text: string, videoId: string, date: string): StoryRecord {
    var story := CleanedStory(text);
    Original(story, p.genre, videoId, Title(story), date, p.hookType)
  }

  /**
   * One pass through `generate_story` (story_generator.py:36-95): it sends the
   * hook and the chosen prompt; an exception rotates the keys, blank text
   * gives no story, and anything else becomes the saved record.
   */
  function StoryPass(p: Prompting, a: Attempt): Pass<StoryRecord>
    requires a.pick < |p.prompts|
  {
    var step := match a.reply
      case Raised => Rotate
      case Generated(t) =>
        if Strip(t) == [] then Done(None) else Done(Some(NewStory(p, Strip(t), a.videoId, a.date)));
    Pass(PromptOf(p, a.pick), step)
  }

  function StoryPasses(p: Prompting, attempts: seq<Attempt>): (r: seq<Pass<StoryRecord>>)
    requires ValidPicks(p, attempts)
    ensures |r| == |attempts| && forall i :: 0 <= i < |r| ==> r[i] == StoryPass(p, attempts[i])
  {
    seq(|attempts|, i requires 0 <= i < |attempts| => StoryPass(p, attempts[i]))
  }

  /**
   * `generate_story` with the Cohere key list `cohere`, the ElevenLabs list
   * `eleven`, the preferred provider and the current client, facing the
   * passes in `attempts` one at a time.
   */
  function RunStory(p: Prompting, cohere: seq<string>, eleven: seq<string>, provider: string,
                    client: Option<string>, attempts: seq<Attempt>): Run<StoryRecord>
    requires ValidPicks(p, attempts)
  {
    Retry(cohere, StoryClient(eleven, provider), client, StoryPasses(p, attempts))
  }

  /**
   * Request `j` carries the prompt chosen in pass `j`, every request but the
   * last raised, a run still retrying has used up every pass, and a story
   * comes from the non-blank reply to the last request.
   */
  lemma {:induction false} RunStoryTrace(p: Prompting, cohere: seq<string>, eleven: seq<string>, provider: string,
                      client: Option<string>, attempts: seq<Attempt>)
    requires ValidPicks(p, attempts)
    ensures var r := RunStory(p, cohere, eleven, provider, client, attempts);
            forall j :: 0 <= j < |r.requests| ==> r.requests[j].payload == PromptOf(p, attempts[j].pick)
    ensures var r := RunStory(p, cohere, eleven, provider, client, attempts);
            forall j :: 0 <= j < |r.requests| - 1 ==> attempts[j].reply == Raised
    ensures var r := RunStory(p, cohere, eleven, provider, client, attempts);
            r.outcome == StillRetrying ==> |r.requests| == |attempts|
    ensures var r := RunStory(p, cohere, eleven, provider, client, attempts);
            r.outcome.Returned? && r.outcome.answer.Some? ==>
              |r.requests| > 0
              && var a := attempts[|r.requests| - 1];
                 a.reply.Generated? && Strip(a.reply.text) != []
                 && r.outcome.answer.value == NewStory(p, Strip(a.reply.text), a.videoId, a.date)
  {
    var passes := StoryPasses(p, attempts);
    RetryTrace(cohere, StoryClient(eleven, provider), client, passes);
    var r := RunStory(p, cohere, eleven, provider, client, attempts);
    forall j | 0 <= j < |r.requests|
      ensures r.requests[j].payload == PromptOf(p, attempts[j].pick)
      ensures j < |r.requests| - 1 ==> attempts[j].reply == Raised
    {
      StoryPassSteps(p, attempts[j]);
    }
    if r.outcome.Returned? && r.outcome.answer.Some? {
      StoryPassSteps(p, attempts[|r.requests| - 1]);
    }
  }

  /** A pass sends the chosen prompt, rotates exactly when the request raised, and a story comes from non-blank text. */
  lemma {:induction false} StoryPassSteps(p: Prompting, a: Attempt)
    requires a.pick < |p.prompts|
    ensures StoryPass(p, a).payload == PromptOf(p, a.pick)
    ensures StoryPass(p, a).step == Rotate <==> a.reply == Raised
    ensures StoryPass(p, a).step.Done? && StoryPass(p, a).step.answer.Some? ==>
              a.reply.Generated? && Strip(a.reply.text) != []
              && StoryPass(p, a).step.answer.value == NewStory(p, Strip(a.reply.text), a.videoId, a.date)
  {
  }

  /** The key list a run leaves behind is a rotation of the one it started with. */
  lemma {:induction false} RunStoryRotates(p: Prompting, cohere: seq<string>, eleven: seq<string>, provider: string,
                        client: Option<string>, attempts: seq<Attempt>)
    requires ValidPicks(p, attempts)
    ensures var r := RunStory(p, cohere, eleven, provider, client, attempts);
            (exists n: nat :: n <= |attempts| && r.keys == RotateTimes(cohere, n))
            && multiset(r.keys) == multiset(cohere)
  {
    RetryRotates(cohere, StoryClient(eleven, provider), client, StoryPasses(p, attempts));
  }

  /** With Cohere preferred and every Cohere key truthy, every rotation of the list gives a client for its first key. */
  lemma {:induction false} StoryClientFollowsRotation(cohere: seq<string>, eleven: seq<string>)
    requires cohere != [] && forall k :: k in cohere ==> k != []
    ensures forall m: nat :: StoryClient(eleven, Cohere)(RotateTimes(cohere, m)) == Some(RotateTimes(cohere, m)[0])
  {
    forall m: nat
      ensures StoryClient(eleven, Cohere)(RotateTimes(cohere, m)) == Some(RotateTimes(cohere, m)[0])
    {
      var ks := RotateTimes(cohere, m);
      RotateTimesPermutes(cohere, m);
      assert ks[0] in multiset(ks);
      assert ks[0] in cohere;
      assert PreferredKey(ks, eleven, Cohere) == Some(ks[0]);
      assert StoryClient(eleven, Cohere)(ks) == ClientFor(PreferredKey(ks, eleven, Cohere));
    }
  }

  /** Pass `i` sends the hook followed by the chosen prompt, and it rotates exactly when the request raised. */
  lemma {:induction false} StoryPassesMeaning(p: Prompting, attempts: seq<Attempt>)
    requires ValidPicks(p, attempts)
    ensures var r := StoryPasses(p, attempts);
            forall i :: 0 <= i < |r| ==>
              r[i].payload == PromptOf(p, attempts[i].pick) && (r[i].step == Rotate <==> attempts[i].reply == Raised)
  {
  }

  /** Passes whose request raised are the ones that rotate. */
  lemma {:induction false} RaisedPassesRotate(p: Prompting, attempts: seq<Attempt>)
    requires ValidPicks(p, attempts)
    requires forall j :: 0 <= j < |attempts| ==> attempts[j].reply == Raised
    ensures forall j :: 0 <= j < |attempts| ==> StoryPasses(p, attempts)[j].step == Rotate
  {
  }

  /**
   * With Cohere preferred and every Cohere key truthy, a run of failures
   * tries the keys in list order, one request each, and when every pass
   * fails the run is still retrying: there is no retry bound.
   */
  lemma {:induction false} EveryKeyTriedInTurn(p: Prompting, cohere: seq<string>, eleven: seq<string>, attempts: seq<Attempt>)
    requires ValidPicks(p, attempts)
    requires |cohere| > 1 && forall k :: k in cohere ==> k != []
    requires forall j :: 0 <= j < |attempts| ==> attempts[j].reply == Raised
    ensures var r := RunStory(p, cohere, eleven, Cohere, Some(cohere[0]), attempts);
            |r.requests| == |attempts| && forall j :: 0 <= j < |cohere| && j < |attempts| ==> r.requests[j].key == cohere[j]
    ensures RunStory(p, cohere, eleven, Cohere, Some(cohere[0]), attempts).outcome == StillRetrying
  {
    StoryClientFollowsRotation(cohere, eleven);
    RaisedPassesRotate(p, attempts);
    RetryCycles(cohere, StoryClient(eleven, Cohere), StoryPasses(p, attempts), |attempts|);
    RotationCycles(cohere);
  }

  /** Blank generated text ends the run with no story, and no key is rotated (story_generator.py:59-61). */
  lemma {:induction false} BlankReplyDoesNotRotate(p: Prompting, cohere: seq<string>, eleven: seq<string>, provider: string,
                                key: string, attempts: seq<Attempt>)
    requires ValidPicks(p, attempts)
    requires attempts != [] && attempts[0].reply.Generated? && IsBlank(attempts[0].reply.text)
    ensures var r := RunStory(p, cohere, eleven, provider, Some(key), attempts);
            r.outcome == Returned(None) && r.keys == cohere && |r.requests| == 1
  {
    var passes := StoryPasses(p, attempts);
    StripEmptyIffBlank(attempts[0].reply.text);
    assert passes[0] == StoryPass(p, attempts[0]);
    assert passes[0].step == Done(None);
    RetryDone(cohere, StoryClient(eleven, provider), Some(key), passes);
  }

  /**
   * Text that holds only metadata lines still yields a saved story, whose
   * text is empty: the cleaned story is not replaced by a placeholder.
   */
  lemma {:induction false} MetadataOnlyReplyGivesEmptyStory(p: Prompting, cohere: seq<string>, eleven: seq<string>, provider: string,
                                         key: string, attempts: seq<Attempt>)
    requires ValidPicks(p, attempts)
    requires attempts != [] && attempts[0].reply.Generated?
    requires var text := Strip(attempts[0].reply.text); text != [] && StoryLines(SplitOn(text, '\n')) == []
    ensures var r := RunStory(p, cohere, eleven, provider, Some(key), attempts);
            r.outcome.Returned? && r.outcome.answer.Some? && r.outcome.answer.value.story == []
  {
    var a := attempts[0];
    var passes := StoryPasses(p, attempts);
    CleanedOfNoLines();
    assert passes[0] == StoryPass(p, a);
    assert passes[0].step == Done(Some(NewStory(p, Strip(a.reply.text), a.videoId, a.date)));
    RetryDone(cohere, StoryClient(eleven, provider), Some(key), passes);
  }

  /** A text of one line that reads as metadata once stripped cleans to nothing. */
  lemma {:induction false} MetadataLineCleansToNothing(line: string)
    requires '\n' !in line && Metadata(Strip(line))
    ensures StoryLines(SplitOn(line, '\n')) == [] && CleanedStory(line) == []
  {
    SplitOnAbsent(line, '\n');
    assert StoryLines([line]) == StoryLines([]);
    CleanedEmptyIff(line);
  }

  // ---------------------------------------------------------------- load_script_by_id

  /** A file in the scripts directory: its name and, when it can be read and parsed, the record it holds. */
  datatype ScriptFile = ScriptFile(name: string, content: Option<StoryRecord>)

  const JsonSuffix: string := ".json"

  /**
   * The search of `load_script_by_id` (story_generator.py:248-256) over the
   * directory listing: the first `.json` file whose record has the id.  A
   * `.json` file that cannot be read raises, which ends the search with
   * nothing (story_generator.py:258-260).
   */
  function FindScript(files: seq<ScriptFile>, videoId: string): Option<StoryRecord>
  {
    if files == [] then None
    else
      var f := files[0];
      if !EndsWith(f.name, JsonSuffix) then FindScript(files[1..], videoId)
      else if f.content.None? then None
      else if f.content.value.videoId == videoId then f.content
      else FindScript(files[1..], videoId)
  }

  /** File `j` is a readable `.json` file with the id, and every `.json` file before it is readable and has another id. */
  predicate FirstMatchAt(files: seq<ScriptFile>, videoId: string, j: int) {
    0 <= j < |files| && EndsWith(files[j].name, JsonSuffix)
    && files[j].content.Some? && files[j].content.value.videoId == videoId
    && forall k :: 0 <= k < j && EndsWith(files[k].name, JsonSuffix) ==>
         files[k].content.Some? && files[k].content.value.videoId != videoId
  }

  /** The search finds a record exactly when there is a first match, and then returns that match's record. */
  lemma {:induction false} FindScriptIsFirstMatch(files: seq<ScriptFile>, videoId: string)
    ensures FindScript(files, videoId).Some? <==> exists j :: FirstMatchAt(files, videoId, j)
    ensures forall j :: FirstMatchAt(files, videoId, j) ==> FindScript(files, videoId) == files[j].content
  {
    if files != [] {
      var f := files[0];
      FindScriptIsFirstMatch(files[1..], videoId);
      var skips := !EndsWith(f.name, JsonSuffix) || (f.content.Some? && f.content.value.videoId != videoId);
      if skips {
        forall j | FirstMatchAt(files, videoId, j)
          ensures j > 0 && FirstMatchAt(files[1..], videoId, j - 1)
        {
          assert j != 0;
          forall k | 0 <= k < j - 1 && EndsWith(files[1..][k].name, JsonSuffix)
            ensures files[1..][k].content.Some? && files[1..][k].content.value.videoId != videoId
          {
            assert files[1..][k] == files[k + 1];
          }
        }
        forall j | FirstMatchAt(files[1..], videoId, j)
          ensures FirstMatchAt(files, videoId, j + 1)
        {
          forall k | 0 <= k < j + 1 && EndsWith(files[k].name, JsonSuffix)
            ensures files[k].content.Some? && files[k].content.value.videoId != videoId
          {
            if k > 0 {
              assert files[k] == files[1..][k - 1];
            }
          }
        }
      } else if f.content.None? {
        forall j | FirstMatchAt(files, videoId, j)
          ensures false
        {
        }
      } else {
        assert FirstMatchAt(files, videoId, 0);
        forall j | FirstMatchAt(files, videoId, j)
          ensures j == 0
        {
        }
      }
    }
  }

  /** `load_script_by_id`, with `listing` absent when the scripts directory does not exist. */
  function LoadedScript(listing: Option<seq<ScriptFile>>, videoId: string): Option<StoryRecord> {
    if listing.None? then None else FindScript(listing.value, videoId)
  }

  /** The loop of `load_script_by_id`. */
  method LoadScriptById(videoId: string, listing: Option<seq<ScriptFile>>) returns (r: Option<StoryRecord>)
    ensures r == LoadedScript(listing, videoId)
  {
    if listing.None? {
      return None;
    }
    var files := listing.value;
    for i := 0 to |files|
      invariant FindScript(files, videoId) == FindScript(files[i..], videoId)
    {
      assert files[i..][1..] == files[i + 1..];
      var f := files[i];
      if EndsWith(f.name, JsonSuffix) {
        if f.content.None? {
          return None;
        }
        if f.content.value.videoId == videoId {
          return f.content;
        }
      }
    }
    return None;
  }

  // ---------------------------------------------------------------- generate_continuation

  const ContinuationTitlePrefix: string := "Continuation: "

  /**
   * `generate_continuation` (story_generator.py:97-166) with the current client
   * and the script found for `continuationId`: the record it returns and the
   * request it sends.  There is no retry: an exception gives no record.
   */
  function Continued(client: Option<string>, original: Option<StoryRecord>, continuationId: string,
                     reply: Reply, videoId: string, date: string): (Option<StoryRecord>, Option<Request>)
  {
    if client.None? || original.None? then (None, None)
    else
      var o := original.value;
      var sent := Some(Request(client.value, ContinuationPrompt(o.genre, o.story)));
      (ContinuationReply(o, continuationId, reply, videoId, date), sent)
  }

  /** The record `generate_continuation` builds from the reply to its request about the original `o`. */
  function ContinuationReply(o: StoryRecord, continuationId: string, reply: Reply, videoId: string, date: string)
    : Option<StoryRecord>
  {
    match reply
    case Raised => None
    case Generated(t) =>
      if Strip(t) == [] then None
      else
        var story := CleanedStory(Strip(t));
        Some(Continuation(story, o.genre, videoId, ContinuationTitlePrefix + o.title, date, continuationId))
  }

  /**
   * Without a client, or for an id with no script, nothing is sent and
   * nothing is returned.  Otherwise one request quoting the original story
   * is sent, and a record comes back exactly when the reply is text that is
   * not blank: a continuation of the same genre pointing back at the
   * original, titled "Continuation: " and the original title, with its
   * story cleaned.
   */
  lemma {:induction false} ContinuationRequest(client: Option<string>, original: Option<StoryRecord>, continuationId: string,
                            reply: Reply, videoId: string, date: string)
    ensures var sent := Continued(client, original, continuationId, reply, videoId, date).1;
            (sent.Some? <==> client.Some? && original.Some?)
            && (sent.Some? ==> sent.value.key == client.value && Contains(sent.value.payload, original.value.story)
                               && Contains(sent.value.payload, original.value.genre))
  {
  }

  /** A record comes back exactly when there is a client and a script and the reply is text that is not blank. */
  lemma {:induction false} ContinuationRecordExists(client: Option<string>, original: Option<StoryRecord>, continuationId: string,
                                                    reply: Reply, videoId: string, date: string)
    ensures var r := Continued(client, original, continuationId, reply, videoId, date).0;
            r.Some? <==> client.Some? && original.Some? && reply.Generated? && !IsBlank(reply.text)
  {
    ContinuedRecordIsReply(client, original, continuationId, reply, videoId, date);
    if reply.Generated? {
      StripEmptyIffBlank(reply.text);
    }
  }

  /** The record continues the original: same genre, pointing back at it, with the cleaned reply as its story. */
  lemma {:induction false} ContinuationRecord(client: Option<string>, original: Option<StoryRecord>, continuationId: string,
                           reply: Reply, videoId: string, date: string)
    ensures var r := Continued(client, original, continuationId, reply, videoId, date).0;
            r.Some? ==> r.value == Continuation(CleanedStory(Strip(reply.text)), original.value.genre, videoId,
                                                ContinuationTitlePrefix + original.value.title, date, continuationId)
    ensures var r := Continued(client, original, continuationId, reply, videoId, date).0;
            r.Some? ==> CleanShaped(r.value.story)
  {
    ContinuedRecordIsReply(client, original, continuationId, reply, videoId, date);
    if client.Some? && original.Some? && reply.Generated? {
      StripEmptyIffBlank(reply.text);
      if Strip(reply.text) != [] {
        TextRecord(original.value, continuationId, reply.text, videoId, date);
      }
    }
  }

  /** With a client and a script, the record is the one built from the reply; otherwise there is none. */
  lemma {:induction false} ContinuedRecordIsReply(client: Option<string>, original: Option<StoryRecord>, continuationId: string,
                                                  reply: Reply, videoId: string, date: string)
    ensures Continued(client, original, continuationId, reply, videoId, date).0 ==
              if client.None? || original.None? then None
              else ContinuationReply(original.value, continuationId, reply, videoId, date)
  {
  }

  /** Non-blank text continues `o` with the cleaned text as its story. */
  lemma {:induction false} TextRecord(o: StoryRecord, continuationId: string, t: string, videoId: string, date: string)
    requires Strip(t) != []
    ensures var story := CleanedStory(Strip(t));
            CleanShaped(story)
            && ContinuationReply(o, continuationId, Generated(t), videoId, date)
               == Some(Continuation(story, o.genre, videoId, ContinuationTitlePrefix + o.title, date, continuationId))
  {
    CleanedStoryShape(Strip(t));
  }

  // ---------------------------------------------------------------- the generator

  /**
   * `StoryGenerator`: it holds the text-service client, built from the
   * shared key store's preferred key, and rebuilds it after each rotation.
   * The client is represented by the key it was built with.
   */
  class StoryGenerator {
    const config: ApiConfig
    var cohereClient: Option<string>

    /** `__init__`: build the client from the current preferred key (the directory creation is not modelled). */
    constructor (config: ApiConfig)
      ensures this.config == config && cohereClient == ClientFor(config.PreferredAiKey())
    {
      this.config := config;
      cohereClient := ClientFor(config.PreferredAiKey());
    }

    /** `update_cohere_client` */
    method UpdateCohereClient()
      modifies this
      ensures cohereClient == ClientFor(config.PreferredAiKey())
    {
      cohereClient := ClientFor(config.PreferredAiKey());
    }

    /**
     * `generate_story`: it looks up the genre's hook, prompts and hook type,
     * and runs the retry loop with them.
     */
    method GenerateStory(genre: string, attempts: seq<Attempt>) returns (r: Outcome<StoryRecord>, requests: seq<Request>)
      requires ValidPicks(PromptingFor(genre), attempts)
      modifies this, config
      ensures var run := RunStory(PromptingFor(genre), old(config.cohereKeys), old(config.elevenLabsKeys),
                                  old(config.preferredAiProvider), old(cohereClient), attempts);
              run == Run(r, requests, config.cohereKeys, cohereClient)
      ensures config.elevenLabsKeys == old(config.elevenLabsKeys) && config.preferredAiProvider == old(config.preferredAiProvider)
    {
      r, requests := GenerateWith(PromptingFor(genre), attempts);
    }

    /**
     * The body of `generate_story` for the looked-up entries `p`, its
     * recursive retry written as a loop: it returns the outcome and the
     * requests sent, leaves the rotated Cohere list in the key store and the
     * last client built in `cohereClient`.
     */
    method GenerateWith(p: Prompting, attempts: seq<Attempt>) returns (r: Outcome<StoryRecord>, requests: seq<Request>)
      requires ValidPicks(p, attempts)
      modifies this, config
      ensures var run := RunStory(p, old(config.cohereKeys), old(config.elevenLabsKeys), old(config.preferredAiProvider),
                                  old(cohereClient), attempts);
              run == Run(r, requests, config.cohereKeys, cohereClient)
      ensures config.elevenLabsKeys == old(config.elevenLabsKeys) && config.preferredAiProvider == old(config.preferredAiProvider)
    {
      ghost var passes := StoryPasses(p, attempts);
      ghost var clientOf := StoryClient(config.elevenLabsKeys, config.preferredAiProvider);
      ghost var whole := RunStory(p, config.cohereKeys, config.elevenLabsKeys, config.preferredAiProvider, cohereClient, attempts);
      requests := [];
      var i := 0;
      while true
        invariant 0 <= i <= |attempts|
        invariant config.elevenLabsKeys == old(config.elevenLabsKeys)
        invariant config.preferredAiProvider == old(config.preferredAiProvider)
        invariant whole == RunStory(p, old(config.cohereKeys), old(config.elevenLabsKeys), old(config.preferredAiProvider),
                                    old(cohereClient), attempts)
        invariant Continues(whole, requests, Retry(config.cohereKeys, clientOf, cohereClient, passes[i..]))
        decreases |attempts| - i
      {
        if cohereClient.None? {
          EndsWithoutClient(whole, requests, config.cohereKeys, clientOf, passes[i..]);
          return Returned(None), requests;
        }
        if i == |attempts| {
          assert passes[i..] == [];
          EndsOutOfPasses(whole, requests, config.cohereKeys, clientOf, cohereClient);
          return StillRetrying, requests;
        }
        var a := attempts[i];
        var prompt := PromptOf(p, a.pick);
        assert passes[i..][0] == passes[i] == StoryPass(p, a);
        var request := Request(cohereClient.value, prompt);
        match a.reply {
          case Generated(t) =>
            var text := Strip(t);
            if text == [] {
              assert passes[i..][0].step == Done(None);
              EndsAtPass(whole, requests, config.cohereKeys, clientOf, cohereClient, passes[i..]);
              return Returned(None), requests + [request];
            }
            var story := CleanStoryText(text);
            assert passes[i..][0].step == Done(Some(Original(story, p.genre, a.videoId, Title(story), a.date, p.hookType)));
            EndsAtPass(whole, requests, config.cohereKeys, clientOf, cohereClient, passes[i..]);
            return Returned(Some(Original(story, p.genre, a.videoId, Title(story), a.date, p.hookType))), requests + [request];
          case Raised =>
            assert passes[i..][0].step == Rotate;
            if |config.cohereKeys| > 1 {
              RetryRotated(whole, requests, passes[i..]);
              requests := requests + [request];
              assert passes[i..][1..] == passes[i + 1..];
              i := i + 1;
            } else {
              EndsAtPass(whole, requests, config.cohereKeys, clientOf, cohereClient, passes[i..]);
              return Returned(None), requests + [request];
            }
        }
      }
    }

    /**
     * A pass that raised with more than one Cohere key stored: its request is
     * recorded, the keys are rotated and the client rebuilt, and the rest of
     * the call is the call on the rotated list and the remaining passes.
     */
    method RetryRotated(ghost whole: Run<StoryRecord>, ghost requests: seq<Request>, ghost rest: seq<Pass<StoryRecord>>)
      requires cohereClient.Some? && rest != [] && rest[0].step == Rotate && |config.cohereKeys| > 1
      requires Continues(whole, requests, Retry(config.cohereKeys, StoryClient(config.elevenLabsKeys, config.preferredAiProvider),
                                                cohereClient, rest))
      modifies this, config
      ensures Continues(whole, requests + [Request(old(cohereClient).value, rest[0].payload)],
                        Retry(config.cohereKeys, StoryClient(config.elevenLabsKeys, config.preferredAiProvider), cohereClient, rest[1..]))
      ensures config.elevenLabsKeys == old(config.elevenLabsKeys) && config.preferredAiProvider == old(config.preferredAiProvider)
    {
      var clientOf := StoryClient(config.elevenLabsKeys, config.preferredAiProvider);
      ContinuesAfterRotate(whole, requests, config.cohereKeys, clientOf, cohereClient, rest);
      config.cohereKeys := config.cohereKeys[1..] + [config.cohereKeys[0]];
      UpdateCohereClient();
      assert cohereClient == clientOf(config.cohereKeys);
    }

    /** `generate_continuation`: the record returned and the request sent, if any. */
    method GenerateContinuation(continuationId: string, listing: Option<seq<ScriptFile>>, reply: Reply,
                                videoId: string, date: string) returns (r: Option<StoryRecord>, sent: Option<Request>)
      ensures (r, sent) == Continued(cohereClient, LoadedScript(listing, continuationId), continuationId, reply, videoId, date)
    {
      if cohereClient.None? {
        return None, None;
      }
      var original := LoadScriptById(continuationId, listing);
      if original.None? {
        return None, None;
      }
      var o := original.value;
      sent := Some(Request(cohereClient.value, ContinuationPrompt(o.genre, o.story)));
      match reply {
        case Raised =>
          r := None;
        case Generated(t) =>
          var text := Strip(t);
          if text == [] {
            r := None;
          } else {
            var story := CleanStoryText(text);
            r := Some(Continuation(story, o.genre, videoId, ContinuationTitlePrefix + o.title, date, continuationId));
          }
      }
    }
  }
}
