/**
 * The `love.` completion trigger of the `intellijloveframework` package: the
 * line prefix up to the cursor is trimmed, matched against the fixed pattern
 * `^\s*love\.(\w*)\.?$`, and the match decides which registry lists are handed
 * to the completion result set.
 */
module Completion {
  import opened Wrappers
  import opened JavaStrings
  import opened Registry
  import opened LoveTypes
  import FrameworkElements

  /** `\s` of a Java regular expression: space, tab, newline, vertical tab, form feed, carriage return. */
  predicate IsRegexSpace(c: char) {
    c == ' ' || c == '\t' || c == '\n' || c == '\U{B}' || c == '\U{C}' || c == '\r'
  }

  /** `\w` of a Java regular expression: an ASCII letter, digit or underscore. */
  predicate IsWordChar(c: char) {
    ('a' <= c <= 'z') || ('A' <= c <= 'Z') || ('0' <= c <= '9') || c == '_'
  }

  predicate AllRegexSpace(s: string) {
    forall i :: 0 <= i < |s| ==> IsRegexSpace(s[i])
  }

  predicate AllWordChars(s: string) {
    forall i :: 0 <= i < |s| ==> IsWordChar(s[i])
  }

  /** The end of the longest run of `\s` characters starting at `i`. */
  function SpaceRunEnd(s: string, i: nat): (k: nat)
    requires i <= |s|
    ensures i <= k <= |s|
    ensures forall m :: i <= m < k ==> IsRegexSpace(s[m])
    ensures k < |s| ==> !IsRegexSpace(s[k])
    decreases |s| - i
  {
    if i < |s| && IsRegexSpace(s[i]) then SpaceRunEnd(s, i + 1) else i
  }

  /** The end of the longest run of `\w` characters starting at `i`. */
  function WordRunEnd(s: string, i: nat): (k: nat)
    requires i <= |s|
    ensures i <= k <= |s|
    ensures forall m :: i <= m < k ==> IsWordChar(s[m])
    ensures k < |s| ==> !IsWordChar(s[k])
    decreases |s| - i
  {
    if i < |s| && IsWordChar(s[i]) then WordRunEnd(s, i + 1) else i
  }

  /** A successful match: group 1, and whether the optional final dot was present. */
  datatype LineMatch = LineMatch(word: string, trailingDot: bool)

  /** The strings the pattern describes: indentation, `love.`, a word, and perhaps one more dot. */
  function LoveLine(indent: string, word: string, trailingDot: bool): string {
    indent + "love." + word + (if trailingDot then "." else "")
  }

  /**
   * `LOVE_LINE_PATTERN.matcher(s).matches()` together with `group(1)`. The
   * leading `\s*` and the `\w*` are both followed by a character they cannot
   * match, so their longest runs are the only ones a match can use.
   */
  function MatchLoveLine(s: string): Option<LineMatch> {
    var i := SpaceRunEnd(s, 0);
    if i + 5 <= |s| && s[i..i + 5] == "love." then
      var j := WordRunEnd(s, i + 5);
      if j == |s| then Some(LineMatch(s[i + 5..j], false))
      else if j + 1 == |s| && s[j] == '.' then Some(LineMatch(s[i + 5..j], true))
      else None
    else None
  }

  /** Every match comes from a string of the pattern's shape, rebuilt from its parts. */
  lemma MatchSound(s: string)
    requires MatchLoveLine(s).Some?
    ensures AllWordChars(MatchLoveLine(s).value.word)
    ensures exists indent :: AllRegexSpace(indent) &&
              s == LoveLine(indent, MatchLoveLine(s).value.word, MatchLoveLine(s).value.trailingDot)
  {
    var i := SpaceRunEnd(s, 0);
    var j := WordRunEnd(s, i + 5);
    var m := MatchLoveLine(s).value;
    var indent := s[..i];
    assert AllRegexSpace(indent);
    assert s == indent + s[i..i + 5] + s[i + 5..j] + s[j..];
    if m.trailingDot {
      assert s[j..] == ".";
    } else {
      assert s[j..] == "";
    }
  }

  /** Every string of the pattern's shape matches, with its own word and dot. */
  lemma MatchComplete(indent: string, word: string, trailingDot: bool)
    requires AllRegexSpace(indent) && AllWordChars(word)
    ensures MatchLoveLine(LoveLine(indent, word, trailingDot)) == Some(LineMatch(word, trailingDot))
  {
    var s := LoveLine(indent, word, trailingDot);
    var n := |indent|;
    SpaceRunEndAt(s, 0, n);
    assert s[n..n + 5] == "love.";
    WordRunEndAt(s, n + 5, n + 5 + |word|);
    assert s[n + 5..n + 5 + |word|] == word;
  }

  /** A run of spaces up to a non-space ends exactly there. */
  lemma {:induction false} SpaceRunEndAt(s: string, i: nat, k: nat)
    requires i <= k <= |s|
    requires forall m :: i <= m < k ==> IsRegexSpace(s[m])
    requires k < |s| ==> !IsRegexSpace(s[k])
    ensures SpaceRunEnd(s, i) == k
    decreases k - i
  {
    if i < k {
      SpaceRunEndAt(s, i + 1, k);
    }
  }

  /** A run of word characters up to a non-word character ends exactly there. */
  lemma {:induction false} WordRunEndAt(s: string, i: nat, k: nat)
    requires i <= k <= |s|
    requires forall m :: i <= m < k ==> IsWordChar(s[m])
    requires k < |s| ==> !IsWordChar(s[k])
    ensures WordRunEnd(s, i) == k
    decreases k - i
  {
    if i < k {
      WordRunEndAt(s, i + 1, k);
    }
  }

  /**
   * The lists the provider hands over, in order, for the line prefix `line`
   * (`None` when reading the document failed): the callbacks and then the
   * modules after `love.`, one module's list after `love.<word>.`, and
   * nothing otherwise.
   */
  function Completions(registry: LookupMap, line: Option<string>): seq<seq<Element>> {
    match line
    case None => []
    case Some(text) =>
      match MatchLoveLine(Trim(text))
      case None => []
      case Some(m) =>
        if m.word == "" then [Lookup(registry, CALLBACKS_KEY), Lookup(registry, MODULES_KEY)]
        else if m.trailingDot then [Lookup(registry, m.word)]
        else []
  }

  /** At most two batches, and each is the registry's answer for some key: nothing is invented. */
  lemma CompletionsFromRegistry(registry: LookupMap, line: Option<string>)
    ensures |Completions(registry, line)| <= 2
    ensures forall b :: b in Completions(registry, line) ==> exists k :: b == Lookup(registry, k)
  {
  }

  /** Characters at or below U+0020 (space and the C0 controls) around the prefix never change the outcome. */
  lemma CompletionsIgnorePadding(registry: LookupMap, pre: string, text: string, post: string)
    requires AllTrimmable(pre) && AllTrimmable(post)
    ensures Completions(registry, Some(pre + text + post)) == Completions(registry, Some(text))
  {
    TrimIgnoresPadding(pre, text, post);
  }

  /** A line of the pattern's shape, padded with anything `trim` removes, gets the three-way answer. */
  lemma CompletionsOnLoveLine(registry: LookupMap, pre: string, word: string, trailingDot: bool, post: string)
    requires AllTrimmable(pre) && AllTrimmable(post) && AllWordChars(word)
    ensures Completions(registry, Some(pre + LoveLine("", word, trailingDot) + post)) ==
      if word == "" then [Lookup(registry, CALLBACKS_KEY), Lookup(registry, MODULES_KEY)]
      else if trailingDot then [Lookup(registry, word)]
      else []
  {
    var core := LoveLine("", word, trailingDot);
    TrimIgnoresPadding(pre, core, post);
    LoveLineTrimmed(word, trailingDot);
    MatchComplete("", word, trailingDot);
  }

  /** An unindented line of the pattern is left alone by `trim`. */
  lemma LoveLineTrimmed(word: string, trailingDot: bool)
    requires AllWordChars(word)
    ensures Trim(LoveLine("", word, trailingDot)) == LoveLine("", word, trailingDot)
  {
    var s := LoveLine("", word, trailingDot);
    assert s[0] == 'l';
    assert IsTrimmed(s);
    assert s[..0] == [] && s[0 + |s|..] == [] && s[0..|s|] == s;
    TrimUnique(s, 0, s);
  }

  /** Something is offered only when the trimmed prefix is `love.` followed by a word and perhaps a dot. */
  lemma CompletionsOnlyOnLoveLines(registry: LookupMap, text: string)
    requires Completions(registry, Some(text)) != []
    ensures exists word, trailingDot :: AllWordChars(word) && Trim(text) == LoveLine("", word, trailingDot)
  {
    var t := Trim(text);
    MatchSound(t);
    var m := MatchLoveLine(t).value;
    var indent :| AllRegexSpace(indent) && t == LoveLine(indent, m.word, m.trailingDot);
    assert t == LoveLine("", m.word, m.trailingDot);
  }

  /** With a non-empty word, the code's `endsWith(".")` test is the pattern's optional final dot. */
  lemma EndsWithDotIsTrailingDot(s: string)
    requires MatchLoveLine(s).Some? && MatchLoveLine(s).value.word != ""
    ensures EndsWith(s, ".") <==> MatchLoveLine(s).value.trailingDot
  {
    MatchSound(s);
    var m := MatchLoveLine(s).value;
    var indent :| AllRegexSpace(indent) && s == LoveLine(indent, m.word, m.trailingDot);
    if !m.trailingDot {
      assert s[|s| - 1] == m.word[|m.word| - 1];
      assert IsWordChar(s[|s| - 1]);
      assert s[|s| - 1..] != ".";
    } else {
      assert s[|s| - 1..] == ".";
    }
  }

  /** `test.` does not start with `love.`, so nothing is offered. */
  lemma NoCompletionForOtherLines(registry: LookupMap)
    ensures Completions(registry, Some("test.")) == []
  {
    TrimUnique("test.", 0, "test.");
    assert SpaceRunEnd("test.", 0) == 0;
  }

  /**
   * `trim` removes only characters at or below U+0020: a no-break space before
   * the prefix or a DEL after it stays, and the pattern then rejects the line.
   */
  lemma NoCompletionAcrossWiderPadding(registry: LookupMap)
    ensures Completions(registry, Some("\U{00A0}love.")) == []
    ensures Completions(registry, Some("love.\U{007F}")) == []
  {
    TrimUnique("\U{00A0}love.", 0, "\U{00A0}love.");
    assert SpaceRunEnd("\U{00A0}love.", 0) == 0;
    TrimUnique("love.\U{007F}", 0, "love.\U{007F}");
    assert SpaceRunEnd("love.\U{007F}", 0) == 0;
    assert WordRunEnd("love.\U{007F}", 5) == 5;
  }

  /** An empty prefix offers nothing. */
  lemma NoCompletionForEmptyLine(registry: LookupMap)
    ensures Completions(registry, Some("")) == []
  {
    TrimUnique("", 0, "");
  }

  /** `love` without its dot offers nothing. */
  lemma NoCompletionWithoutFirstDot(registry: LookupMap)
    ensures Completions(registry, Some("love")) == []
  {
    TrimUnique("love", 0, "love");
  }

  /** A third name segment such as `love.audio.pl` is outside the pattern. */
  lemma NoCompletionForDeeperLines(registry: LookupMap)
    ensures Completions(registry, Some("love.audio.pl")) == []
  {
    var s := "love.audio.pl";
    TrimUnique(s, 0, s);
    SpaceRunEndAt(s, 0, 0);
    WordRunEndAt(s, 5, 10);
  }

  /** A module name still being typed, without its dot, offers nothing. */
  lemma NoCompletionWithoutDot(registry: LookupMap)
    ensures Completions(registry, Some("love.audio")) == []
  {
    OnLoveLine(registry, "audio", false);
    assert LoveLine("", "audio", false) == "love.audio";
  }

  /** `love.` offers the callbacks and then the modules. */
  lemma TopLevelCompletions(registry: LookupMap)
    ensures Completions(registry, Some("love.")) ==
      [Lookup(registry, CALLBACKS_KEY), Lookup(registry, MODULES_KEY)]
  {
    OnLoveLine(registry, "", false);
    assert LoveLine("", "", false) == "love.";
  }

  /** `love..` is read as an empty word with the optional dot, so it offers the same. */
  lemma DoubleDotCompletions(registry: LookupMap)
    ensures Completions(registry, Some("love..")) ==
      [Lookup(registry, CALLBACKS_KEY), Lookup(registry, MODULES_KEY)]
  {
    OnLoveLine(registry, "", true);
    assert LoveLine("", "", true) == "love..";
  }

  /** `love.audio.` offers the list registered under `audio`. */
  lemma ModuleCompletions(registry: LookupMap)
    ensures Completions(registry, Some("love.audio.")) == [Lookup(registry, AUDIO_KEY)]
  {
    OnLoveLine(registry, "audio", true);
    assert LoveLine("", "audio", true) == "love.audio.";
  }

  /** Tabs and newlines around `love.window.` change nothing. */
  lemma PaddedModuleCompletions(registry: LookupMap)
    ensures Completions(registry, Some("\t" + "love.window." + "\n")) == [Lookup(registry, WINDOW_KEY)]
  {
    CompletionsIgnorePadding(registry, "\t", "love.window.", "\n");
    assert Completions(registry, Some("\t" + "love.window." + "\n")) == Completions(registry, Some("love.window."));
    WindowCompletions(registry);
  }

  /** `love.window.` offers the `window` list. */
  lemma WindowCompletions(registry: LookupMap)
    ensures Completions(registry, Some("love.window.")) == [Lookup(registry, WINDOW_KEY)]
  {
    OnLoveLine(registry, "window", true);
    assert LoveLine("", "window", true) == "love.window.";
  }

  /** `love.foo.` asks the registry for `foo`, whatever it holds. */
  lemma AnyModuleCompletions(registry: LookupMap)
    ensures Completions(registry, Some("love.foo.")) == [Lookup(registry, "foo")]
  {
    OnLoveLine(registry, "foo", true);
    assert LoveLine("", "foo", true) == "love.foo.";
  }

  lemma OnLoveLine(registry: LookupMap, word: string, trailingDot: bool)
    requires AllWordChars(word)
    ensures Completions(registry, Some(LoveLine("", word, trailingDot))) ==
      if word == "" then [Lookup(registry, CALLBACKS_KEY), Lookup(registry, MODULES_KEY)]
      else if trailingDot then [Lookup(registry, word)]
      else []
  {
    CompletionsOnLoveLine(registry, "", word, trailingDot, "");
    assert "" + LoveLine("", word, trailingDot) + "" == LoveLine("", word, trailingDot);
  }

  /** The result set: the batches handed to `addAllElements`, in order. */
  class CompletionResultSet {
    var batches: seq<seq<Element>>

    constructor()
      ensures batches == []
    {
      batches := [];
    }

    method AddAllElements(elements: seq<Element>)
      modifies this
      ensures batches == old(batches) + [elements]
    {
      batches := batches + [elements];
    }
  }

  /**
   * `addCompletions`: `line` is the text from the start of the line to the
   * cursor, or `None` when reading it threw, in which case the exception is
   * swallowed and nothing is added.
   */
  method AddCompletions(line: Option<string>, result: CompletionResultSet)
    modifies result
    ensures result.batches == old(result.batches) + Completions(FrameworkElements.LOVE_LOOKUP_MAP, line)
  {
    if line.None? {
      return;
    }
    var lineText := Trim(line.value);
    var matcher := MatchLoveLine(lineText);
    if matcher.Some? {
      var moduleOrEmpty := matcher.value.word;
      if moduleOrEmpty == "" {
        result.AddAllElements(FrameworkElements.GetElementsFor(CALLBACKS_KEY));
        result.AddAllElements(FrameworkElements.GetElementsFor(MODULES_KEY));
      } else if EndsWith(lineText, ".") {
        EndsWithDotIsTrailingDot(lineText);
        result.AddAllElements(FrameworkElements.GetElementsFor(moduleOrEmpty));
      } else {
        EndsWithDotIsTrailingDot(lineText);
      }
    }
  }

  /** Against the real registry: an unknown module such as `love.foo.` gets one empty batch. */
  lemma UnknownModuleExample()
    ensures Completions(FrameworkElements.LOVE_LOOKUP_MAP, Some("love.foo.")) == [[]]
  {
    AnyModuleCompletions(FrameworkElements.LOVE_LOOKUP_MAP);
    FrameworkElements.LookupMapKeys();
    FooIsNoKey();
  }

  lemma FooIsNoKey()
    ensures "foo" !in {CALLBACKS_KEY, MODULES_KEY} + set k | k in MODULE_KEYS
  {
  }

  /** Against the real registry: `love.` offers the three callbacks and then the nineteen modules. */
  lemma TopLevelExample()
    ensures Completions(FrameworkElements.LOVE_LOOKUP_MAP, Some("love.")) ==
      [FrameworkElements.LOVE_CALLBACKS, FrameworkElements.LOVE_MODULES]
  {
    TopLevelCompletions(FrameworkElements.LOVE_LOOKUP_MAP);
    FrameworkElements.LookupCallbacks();
    FrameworkElements.LookupModules();
  }
}
