/**
  Post types offered by the text editor (`getPostTypeStruct`): a lookup of the
  requested post type in one of two constant tables, chosen by the kind of
  document being commented on.
 */
module PostTypes {
  import opened Common

  // The POST_TYPES enum: its members are the strings below.
  const Discussion: string := "DISCUSSION"
  const Summary: string := "SUMMARY"
  const Review: string := "REVIEW"
  const Answer: string := "ANSWER"

  /** One table row (`label` is `displayLabel` here); icons are rendering and left out. */
  datatype PostTypeEntry = PostTypeEntry(
    displayLabel: string,
    value: string,
    isDefault: bool,
    group: Option<string>,
    placeholder: string)

  /** The table used on papers and posts. */
  const MainPostTypes: seq<PostTypeEntry> := [
    PostTypeEntry("Discuss", Discussion, true, Some("contribute"), "What are your thoughts about this paper?"),
    PostTypeEntry("Peer review", Review, false, Some("contribute"), "What are your overall impressions of this paper?"),
    PostTypeEntry("Summary", Summary, false, Some("contribute"), "Share a summary of this paper with the community")
  ]

  /** The table used on questions and bounties. */
  const QuestionPostTypes: seq<PostTypeEntry> := [
    PostTypeEntry("Answer", Answer, true, None, "Submit your answer to this question."),
    PostTypeEntry("Discuss", Discussion, false, None,
      "Use discussion to ask for clarification or suggest improvement to the question.")
  ]

  /** The condition that selects the question table. */
  predicate UsesQuestionTable(postType: string, documentType: string) {
    documentType == "question" || postType == Answer || documentType == "bounty"
  }

  /** The table `getPostTypeStruct` searches: the question table for questions, bounties and answers. */
  function TableFor(postType: string, documentType: string): (r: seq<PostTypeEntry>)
    ensures r == QuestionPostTypes <==> documentType == "question" || postType == Answer || documentType == "bounty"
    ensures r != QuestionPostTypes ==> r == MainPostTypes
  {
    if UsesQuestionTable(postType, documentType) then QuestionPostTypes else MainPostTypes
  }

  /**
    `getPostTypeStruct({postType, documentType})`: the first entry of the chosen
    table whose value is `postType`, or `undefined`.
   */
  function GetPostTypeStruct(postType: string, documentType: string): (r: Option<PostTypeEntry>)
    ensures r.Some? ==> r.value.value == postType && r.value in TableFor(postType, documentType)
    ensures r.None? <==> forall e :: e in TableFor(postType, documentType) ==> e.value != postType
  {
    FindFirst(TableFor(postType, documentType), (e: PostTypeEntry) => e.value == postType)
  }

  /** An answer always resolves to the "Answer" entry, whatever the document. */
  lemma AnswerResolvesToAnswer(documentType: string)
    ensures GetPostTypeStruct(Answer, documentType) == Some(QuestionPostTypes[0])
  {
    FindFirstAt(QuestionPostTypes, (e: PostTypeEntry) => e.value == Answer, 0);
  }

  /** On questions and bounties, summaries and reviews do not exist and discussion is the question variant. */
  lemma QuestionDocumentLookups(documentType: string)
    requires documentType == "question" || documentType == "bounty"
    ensures GetPostTypeStruct(Summary, documentType).None?
    ensures GetPostTypeStruct(Review, documentType).None?
    ensures GetPostTypeStruct(Discussion, documentType) == Some(QuestionPostTypes[1])
  {
    FindFirstAt(QuestionPostTypes, (e: PostTypeEntry) => e.value == Discussion, 1);
  }

  /** Elsewhere, each of the three main post types resolves to its own main entry. */
  lemma MainDocumentLookups(documentType: string, k: nat)
    requires documentType != "question" && documentType != "bounty"
    requires k < |MainPostTypes|
    ensures GetPostTypeStruct(MainPostTypes[k].value, documentType) == Some(MainPostTypes[k])
  {
    var v := MainPostTypes[k].value;
    FindFirstAt(MainPostTypes, (e: PostTypeEntry) => e.value == v, k);
  }

  /** A table whose values are distinct and which has exactly one default entry. */
  predicate WellFormedTable(t: seq<PostTypeEntry>) {
    && (forall i, j :: 0 <= i < j < |t| ==> t[i].value != t[j].value)
    && (exists i :: 0 <= i < |t| && t[i].isDefault)
    && (forall i, j :: 0 <= i < j < |t| ==> !(t[i].isDefault && t[j].isDefault))
  }

  lemma TablesWellFormed()
    ensures WellFormedTable(MainPostTypes) && MainPostTypes[0].isDefault
    ensures WellFormedTable(QuestionPostTypes) && QuestionPostTypes[0].isDefault
  {
    assert MainPostTypes[0].isDefault;
    assert QuestionPostTypes[0].isDefault;
  }
}
