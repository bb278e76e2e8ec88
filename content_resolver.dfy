/** The pure part of ActivityPub::ProcessStatusService: which incoming objects
    are edited, the key of the lock an edit takes, and how the status text,
    spoiler text and language are read from an object that may carry both
    plain and natural-language-map forms of its `content` and `summary`. */
module ContentResolver {
  import opened RubyValues

  /** The fields of the incoming object that an edit reads. A key absent from
      the JSON reads as `Nil`. The `id` is kept as the string it interpolates
      to in the lock key ("" when absent, as `nil.to_s`). */
  datatype Document = Document(
    objectType: Value,
    id: string,
    content: Value,
    contentMap: Value,
    summary: Value,
    summaryMap: Value,
    sensitive: Value,
    updated: Value)

  /** `content_language_map?` and `summary_language_map?`: the value is a
      hash with at least one entry. For a hash this is exactly `present?`;
      no other kind of value qualifies. */
  function IsLanguageMap(v: Value): (r: bool)
    ensures v.Hash? ==> (r <==> Present(v))
    ensures !v.Hash? ==> !r
  {
    v.Hash? && v.entries != []
  }

  /** The shared rule of `text_from_content` and `text_from_summary`: the
      plain field when it is present, else the value of the map's first entry,
      else nil. */
  function TextFrom(plain: Value, languageMap: Value): (r: Value)
    ensures Present(plain) ==> r == plain
    ensures !Present(plain) && IsLanguageMap(languageMap) ==> r == languageMap.entries[0].1
    ensures !Present(plain) && !IsLanguageMap(languageMap) ==> r == Nil
    ensures r == plain || r == Nil || (languageMap.Hash? && exists e :: e in languageMap.entries && e.1 == r)
  {
    if Present(plain) then plain
    else if IsLanguageMap(languageMap) then languageMap.entries[0].1
    else Nil
  }

  /** `text_from_content`: the status body. */
  function TextFromContent(doc: Document): (r: Value)
    ensures Present(doc.content) ==> r == doc.content
    ensures !Present(doc.content) && IsLanguageMap(doc.contentMap) ==> r == doc.contentMap.entries[0].1
    ensures !Present(doc.content) && !IsLanguageMap(doc.contentMap) ==> r == Nil
  {
    TextFrom(doc.content, doc.contentMap)
  }

  /** `text_from_summary`: the spoiler text. */
  function TextFromSummary(doc: Document): (r: Value)
    ensures Present(doc.summary) ==> r == doc.summary
    ensures !Present(doc.summary) && IsLanguageMap(doc.summaryMap) ==> r == doc.summaryMap.entries[0].1
    ensures !Present(doc.summary) && !IsLanguageMap(doc.summaryMap) ==> r == Nil
  {
    TextFrom(doc.summary, doc.summaryMap)
  }

  /** `language_from_content`: the first key of a non-empty `contentMap`,
      else the first key of a non-empty `summaryMap`, else "und". The plain
      `content` and `summary` fields play no part. */
  function LanguageFromContent(doc: Document): (r: string)
    ensures IsLanguageMap(doc.contentMap) ==> r == doc.contentMap.entries[0].0
    ensures !IsLanguageMap(doc.contentMap) && IsLanguageMap(doc.summaryMap) ==> r == doc.summaryMap.entries[0].0
    ensures !IsLanguageMap(doc.contentMap) && !IsLanguageMap(doc.summaryMap) ==> r == "und"
  {
    if IsLanguageMap(doc.contentMap) then doc.contentMap.entries[0].0
    else if IsLanguageMap(doc.summaryMap) then doc.summaryMap.entries[0].0
    else "und"
  }

  /** The language does not depend on the plain `content` and `summary`. */
  lemma LanguageIgnoresPlainFields(doc: Document, content: Value, summary: Value)
    ensures LanguageFromContent(doc.(content := content, summary := summary)) == LanguageFromContent(doc)
  {
  }

  /** A present plain `content` wins for the text whatever the map holds,
      while the language still comes from the map: text "A" with language
      "fr" for content "A" and contentMap {"fr" => "B"}. */
  lemma PlainContentKeepsMapLanguage(doc: Document)
    requires Present(doc.content) && IsLanguageMap(doc.contentMap)
    ensures TextFromContent(doc) == doc.content
    ensures LanguageFromContent(doc) == doc.contentMap.entries[0].0
    ensures forall m :: TextFromContent(doc.(contentMap := m)) == doc.content
  {
  }

  /** When the text comes from `contentMap`, text and language are the two
      halves of one and the same entry, the map's first. */
  lemma MapTextAndLanguageAgree(doc: Document)
    requires !Present(doc.content) && IsLanguageMap(doc.contentMap)
    ensures (LanguageFromContent(doc), TextFromContent(doc)) == doc.contentMap.entries[0]
  {
  }

  /** A whitespace-only `content` is not present, so the map supplies the text. */
  lemma BlankContentFallsBackToMap(doc: Document)
    requires doc.content == Str(" \n\t")
    requires doc.contentMap == Hash([("en", Str("hello")), ("fr", Str("bonjour"))])
    ensures TextFromContent(doc) == Str("hello")
    ensures LanguageFromContent(doc) == "en"
  {
  }

  /** `equals_or_includes?`: membership for an array, equality otherwise. */
  predicate EqualsOrIncludes(haystack: Value, needle: Value) {
    if haystack.List? then needle in haystack.items else haystack == needle
  }

  /** `equals_or_includes_any?`: `equals_or_includes?` holds for some needle. */
  predicate EqualsOrIncludesAny(haystack: Value, needles: seq<Value>) {
    exists needle :: needle in needles && EqualsOrIncludes(haystack, needle)
  }

  /** `expected_type?`: the object's type is "Note" or "Question", or an
      array naming one of them. */
  function ExpectedType(objectType: Value): (r: bool)
    ensures r <==> || objectType == Str("Note")
                   || objectType == Str("Question")
                   || (objectType.List? && (Str("Note") in objectType.items || Str("Question") in objectType.items))
  {
    var needles := [Str("Note"), Str("Question")];
    assert needles[0] in needles && needles[1] in needles;
    EqualsOrIncludesAny(objectType, needles)
  }

  const LockPrefix: string := "create:"

  /** The key of `lock_options`: "create:" followed by the object's id. */
  function LockKey(id: string): (k: string)
    ensures |k| == |LockPrefix| + |id|
    ensures k[..|LockPrefix|] == LockPrefix
    ensures k[|LockPrefix|..] == id
  {
    LockPrefix + id
  }

  /** Two edits contend for the same lock exactly when their objects have the
      same id. */
  lemma LockKeyInjective(a: string, b: string)
    ensures LockKey(a) == LockKey(b) <==> a == b
  {
  }
}
