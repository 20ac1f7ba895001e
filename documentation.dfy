/**
 * The documentation provider of the `loveframeworksupport` package. Each of its
 * three answers depends only on the text of the element under the cursor; an
 * answer the host would receive as `null` is `None` here.
 */
module Documentation {
  import opened Wrappers
  import opened JavaStrings

  /** The case-sensitive prefix every answered text starts with. */
  const LOVE_PREFIX: string := "love"

  const WIKI_BASE: string := "https://love2d.org/wiki/"
  const NAVIGATE_LABEL: string := "LOVE Framework Module: "
  const DOC_LABEL: string := "<b>LOVE Framework:</b> "
  const LINK_OPEN: string := "<br>Online documentation: <a href='"
  const LINK_MIDDLE: string := "'>"
  const LINK_CLOSE: string := "</a>"

  /** The guard shared by the three answers. */
  predicate Answers(text: string) {
    StartsWith(text, LOVE_PREFIX)
  }

  /** The wiki page of `text`. */
  function WikiUrl(text: string): (url: string)
    ensures StartsWith(url, WIKI_BASE) && url[|WIKI_BASE|..] == text
  {
    WIKI_BASE + text
  }

  /** `s` holds `sub` at position `i`. */
  predicate OccursAt(s: string, sub: string, i: nat) {
    i + |sub| <= |s| && s[i..i + |sub|] == sub
  }

  /** `getQuickNavigateInfo`: a one-line label naming the text. */
  function GetQuickNavigateInfo(text: string): (r: Option<string>)
    ensures r.Some? <==> Answers(text)
    ensures r.Some? ==> StartsWith(r.value, NAVIGATE_LABEL) && r.value[|NAVIGATE_LABEL|..] == text
  {
    if Answers(text) then Some(NAVIGATE_LABEL + text) else None
  }

  /** `getUrlFor`: the single wiki page of the text. */
  function GetUrlFor(text: string): (r: Option<seq<string>>)
    ensures r.Some? <==> Answers(text)
    ensures r.Some? ==> |r.value| == 1 && StartsWith(r.value[0], WIKI_BASE) && r.value[0][|WIKI_BASE|..] == text
  {
    if Answers(text) then Some([WikiUrl(text)]) else None
  }

  /**
   * `generateDoc`: a bold label with the escaped text, then a link to the wiki
   * page whose target and label are both the unescaped URL. `escape` stands
   * for the host's XML-entity escaping, which is not part of this model.
   */
  function GenerateDoc(text: string, escape: string -> string): (r: Option<string>)
    ensures r.Some? <==> Answers(text)
    ensures r.Some? ==> StartsWith(r.value, DOC_LABEL + escape(text)) && EndsWith(r.value, LINK_CLOSE)
  {
    if Answers(text) then
      Some(DOC_LABEL + escape(text) + LINK_OPEN + WikiUrl(text) + LINK_MIDDLE + WikiUrl(text) + LINK_CLOSE)
    else None
  }

  /** The three answers are all present or all absent, and present exactly when the text starts with `love`. */
  lemma AnswersTogether(text: string, escape: string -> string)
    ensures GetQuickNavigateInfo(text).Some? <==> GetUrlFor(text).Some?
    ensures GetUrlFor(text).Some? <==> GenerateDoc(text, escape).Some?
    ensures GetQuickNavigateInfo(text).Some? <==> |text| >= 4 && text[..4] == "love"
  {
  }

  /** The label and the URL list each determine the text they were made from. */
  lemma AnswersDetermineText(a: string, b: string)
    requires Answers(a)
    ensures GetQuickNavigateInfo(a) == GetQuickNavigateInfo(b) ==> a == b
    ensures GetUrlFor(a) == GetUrlFor(b) ==> a == b
  {
    if GetQuickNavigateInfo(a) == GetQuickNavigateInfo(b) {
      assert GetQuickNavigateInfo(a).value[|NAVIGATE_LABEL|..] == a;
    }
    if GetUrlFor(a) == GetUrlFor(b) {
      assert GetUrlFor(a).value[0][|WIKI_BASE|..] == a;
    }
  }

  /**
   * The generated page holds the wiki URL twice, unescaped: once quoted as the
   * link target right after `href='`, and once as the link label right before `</a>`.
   */
  lemma GenerateDocLinksTwice(text: string, escape: string -> string)
    requires Answers(text)
    ensures var doc := GenerateDoc(text, escape).value;
            var url := WikiUrl(text);
            var target := |DOC_LABEL| + |escape(text)| + |LINK_OPEN|;
            var linkText := target + |url| + |LINK_MIDDLE|;
            OccursAt(doc, LINK_OPEN, target - |LINK_OPEN|) &&
            OccursAt(doc, url, target) &&
            OccursAt(doc, LINK_MIDDLE, target + |url|) &&
            OccursAt(doc, url, linkText) &&
            linkText + |url| + |LINK_CLOSE| == |doc|
  {
    var doc := GenerateDoc(text, escape).value;
    var url := WikiUrl(text);
    var e := escape(text);
    var target := |DOC_LABEL| + |e| + |LINK_OPEN|;
    var linkText := target + |url| + |LINK_MIDDLE|;
    assert doc == DOC_LABEL + e + LINK_OPEN + url + LINK_MIDDLE + url + LINK_CLOSE;
    assert doc[target - |LINK_OPEN|..target] == LINK_OPEN;
    assert doc[target..target + |url|] == url;
    assert doc[target + |url|..linkText] == LINK_MIDDLE;
    assert doc[linkText..linkText + |url|] == url;
  }

  /** Whatever follows `love` qualifies: `lovely` gets every answer. */
  lemma LongerTextAnswered(escape: string -> string)
    ensures GetQuickNavigateInfo("lovely") == Some("LOVE Framework Module: lovely")
    ensures GetUrlFor("lovely") == Some(["https://love2d.org/wiki/lovely"])
    ensures GenerateDoc("lovely", escape).Some?
  {
    assert Answers("lovely") by {
      assert "lovely"[..4] == "love";
    }
    assert NAVIGATE_LABEL + "lovely" == "LOVE Framework Module: lovely";
    assert WIKI_BASE + "lovely" == "https://love2d.org/wiki/lovely";
  }

  /** The guard is case-sensitive and needs all four letters: `Love` and `lov` get nothing. */
  lemma OtherTextUnanswered(escape: string -> string)
    ensures GetQuickNavigateInfo("Love").None? && GetUrlFor("Love").None? && GenerateDoc("Love", escape).None?
    ensures GetQuickNavigateInfo("lov").None? && GetUrlFor("lov").None? && GenerateDoc("lov", escape).None?
  {
    assert "Love"[0] != "love"[0];
    assert !Answers("Love") by {
      assert "Love"[..4][0] == 'L';
    }
  }
}
