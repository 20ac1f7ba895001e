/**
 * The keyword annotator of the `loveframeworksupport` package: an element whose
 * whole text is one of two fixed module names gets one silent annotation that
 * colours it as a keyword.
 */
module Highlighter {

  /** The severities of the host's annotation API; the annotator uses only `Information`. */
  datatype Severity = Information | WeakWarning | Warning | Error

  /** The external name of the text-attributes key the annotation applies. */
  const LOVE_KEYWORD: string := "LOVE_KEYWORD"

  /** The texts that are highlighted, in the order the annotator tries them. */
  const CUSTOM_KEYWORDS: seq<string> := ["love.graphics", "love.audio"]

  /** One silent annotation: its severity and the attributes key it applies. */
  datatype Annotation = Annotation(severity: Severity, attributesKey: string)

  /** The annotation a keyword receives. */
  const KEYWORD_ANNOTATION: Annotation := Annotation(Information, LOVE_KEYWORD)

  /** The annotations created for one element so far, in order. */
  class AnnotationHolder {
    var annotations: seq<Annotation>

    constructor()
      ensures annotations == []
    {
      annotations := [];
    }

    /** `newSilentAnnotation(severity).textAttributes(key).create()`. */
    method CreateSilentAnnotation(severity: Severity, attributesKey: string)
      modifies this
      ensures annotations == old(annotations) + [Annotation(severity, attributesKey)]
    {
      annotations := annotations + [Annotation(severity, attributesKey)];
    }
  }

  /** The annotations `annotate` creates for an element with text `text`. */
  function AnnotationsFor(text: string): seq<Annotation> {
    if text in CUSTOM_KEYWORDS then [KEYWORD_ANNOTATION] else []
  }

  /**
   * `annotate`: tries the keywords in order and, at the first that equals the
   * text, creates the keyword annotation and stops.
   */
  method Annotate(text: string, holder: AnnotationHolder)
    modifies holder
    ensures holder.annotations == old(holder.annotations) + AnnotationsFor(text)
  {
    var customKeywords := CUSTOM_KEYWORDS;
    var i := 0;
    while i < |customKeywords|
      invariant 0 <= i <= |customKeywords|
      invariant holder.annotations == old(holder.annotations)
      invariant forall j :: 0 <= j < i ==> customKeywords[j] != text
    {
      if text == customKeywords[i] {
        holder.CreateSilentAnnotation(Information, LOVE_KEYWORD);
        break;
      }
      i := i + 1;
    }
  }

  /** One annotation exactly for the two keyword texts, none for any other text. */
  lemma AnnotatedExactlyKeywords(text: string)
    ensures |AnnotationsFor(text)| <= 1
    ensures |AnnotationsFor(text)| == 1 <==> text == "love.graphics" || text == "love.audio"
  {
  }

  /** Whatever is created has `Information` severity and the `LOVE_KEYWORD` attributes. */
  lemma OnlyKeywordAnnotations(text: string)
    ensures forall a :: a in AnnotationsFor(text) ==> a.severity == Information && a.attributesKey == LOVE_KEYWORD
  {
  }

  /** The match is exact: a longer text, a shorter one, or another case is not a keyword. */
  lemma NearMissesUnannotated()
    ensures AnnotationsFor("love.graphics.draw") == []
    ensures AnnotationsFor("love") == []
    ensures AnnotationsFor("love.Audio") == []
    ensures AnnotationsFor(" love.audio") == []
  {
  }
}
