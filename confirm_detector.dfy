/**
 * The yes/no classifier for a spoken reply to "shall I go ahead?": the reply is
 * trimmed and lower-cased, then negative keywords are searched before positive
 * ones, so a reply holding both reads as "no".
 */
module ConfirmDetector {
  import opened Text

  /** `ConfirmResult` */
  datatype Confirm = Yes | No | Unknown

  /** `POSITIVE_KEYWORDS`, in order. */
  const PositiveKeywords: seq<string> := [
    "네", "예", "응", "어", "해주세요", "해줘", "좋아", "좋아요", "진행", "부탁", "부탁해", "부탁드려요",
    "그래", "그래요", "신청", "변경", "개통", "정지", "맞아", "맞아요", "알겠어", "동의", "할게요",
    "할래요", "해볼게요", "그렇게", "오케이", "ㅇㅇ", "ㅇㅋ", "네네", "넵", "당연"
  ]

  /** `NEGATIVE_KEYWORDS`, in order. */
  const NegativeKeywords: seq<string> := [
    "아니", "아니요", "아뇨", "안 해", "안해", "됐어", "됐습니다", "취소", "괜찮아", "괜찮습니다",
    "싫어", "싫어요", "말아", "하지 마", "하지마", "안 할", "안할", "필요 없", "필요없", "다음에",
    "나중에", "생각해", "고민", "ㄴㄴ", "노노"
  ]

  /** `text.trim().toLowerCase()` */
  function Normalize(text: string): string {
    Lower(Trim(text))
  }

  /**
   * The decision of `detectConfirm` on an already normalized reply, for any pair
   * of keyword lists: "no" exactly when a non-empty reply contains a negative
   * keyword, "yes" exactly when it contains no negative but some positive one,
   * "unknown" otherwise (in particular for the empty reply).
   */
  function Classify(normalized: string, negatives: seq<string>, positives: seq<string>): (r: Confirm)
    ensures normalized == [] ==> r == Unknown
    ensures r == No <==>
      normalized != [] && exists i :: 0 <= i < |negatives| && Contains(normalized, negatives[i])
    ensures r == Yes <==>
      normalized != [] &&
      (forall i :: 0 <= i < |negatives| ==> !Contains(normalized, negatives[i])) &&
      exists i :: 0 <= i < |positives| && Contains(normalized, positives[i])
  {
    if normalized == [] then Unknown
    else if AnyContained(normalized, negatives) then No
    else if AnyContained(normalized, positives) then Yes
    else Unknown
  }

  /**
   * `detectConfirm`: the decision on `text.trim().toLowerCase()`, negatives first.
   * "no" exactly when the reply is not blank and holds a negative keyword; when
   * "yes" and "unknown" are returned is the contract of `Classify`.
   */
  function DetectConfirm(text: string): (r: Confirm)
    ensures r == No <==>
      Normalize(text) != [] &&
      exists i :: 0 <= i < |NegativeKeywords| && Contains(Normalize(text), NegativeKeywords[i])
  {
    Classify(Normalize(text), NegativeKeywords, PositiveKeywords)
  }

  /** Normalizing is idempotent, so the verdict depends only on the normalized reply. */
  lemma NormalizeIdempotent(text: string)
    ensures Normalize(Normalize(text)) == Normalize(text)
  {
    TrimLowerCommute(Trim(text));
    TrimIdempotent(text);
    LowerIdempotent(Trim(text));
  }

  lemma OnlyNormalizedTextMatters(text: string)
    ensures DetectConfirm(Normalize(text)) == DetectConfirm(text)
  {
    NormalizeIdempotent(text);
  }

  /** An empty or white-space-only reply is "unknown". */
  lemma BlankIsUnknown(text: string)
    requires AllSpace(text)
    ensures DetectConfirm(text) == Unknown
  {
    TrimEmptyIffAllSpace(text);
  }

  /** A reply without upper-case letters and without white space at its ends is its own normal form. */
  lemma PlainIsNormal(text: string)
    requires NoUpper(text) && text != [] && !IsSpace(text[0]) && !IsSpace(text[|text| - 1])
    ensures Normalize(text) == text
  {
    NoUpperLowerId(text);
  }

  /** A non-blank reply with no negative keyword but the k-th positive one is "yes". */
  lemma YesBy(text: string, k: nat)
    requires Normalize(text) != []
    requires forall i :: 0 <= i < |NegativeKeywords| ==> !Contains(Normalize(text), NegativeKeywords[i])
    requires k < |PositiveKeywords| && Contains(Normalize(text), PositiveKeywords[k])
    ensures DetectConfirm(text) == Yes
  {
  }

  /** A reply with no keyword of either list is "unknown". */
  lemma UnknownBy(text: string)
    requires forall i :: 0 <= i < |NegativeKeywords| ==> !Contains(Normalize(text), NegativeKeywords[i])
    requires forall i :: 0 <= i < |PositiveKeywords| ==> !Contains(Normalize(text), PositiveKeywords[i])
    ensures DetectConfirm(text) == Unknown
  {
  }

  /** A non-blank reply holding the k-th negative keyword is "no". */
  lemma NoBy(text: string, k: nat)
    requires Normalize(text) != []
    requires k < |NegativeKeywords| && Contains(Normalize(text), NegativeKeywords[k])
    ensures DetectConfirm(text) == No
  {
  }

  lemma PleaseDoItHasNoNegative()
    ensures forall i :: 0 <= i < |NegativeKeywords| ==> !Contains("네 해주세요", NegativeKeywords[i])
  {
    NoneContained("네 해주세요", NegativeKeywords);
  }

  lemma YesWhenNormalizedTo(text: string)
    requires Normalize(text) == "네 해주세요"
    ensures DetectConfirm(text) == Yes
  {
    PleaseDoItHasNoNegative();
    PleaseDoItHasYes();
    YesBy(text, 0);
  }

  lemma PleaseDoItHasYes()
    ensures Contains("네 해주세요", PositiveKeywords[0])
  {
    ContainsMiddle("", "네", " 해주세요");
  }

  /** A plain yes. */
  lemma PleaseDoItIsYes()
    ensures DetectConfirm("네 해주세요") == Yes
  {
    PlainIsNormal("네 해주세요");
    YesWhenNormalizedTo("네 해주세요");
  }

  lemma NoWhenNormalizedTo(text: string)
    requires Normalize(text) == "아니요 괜찮아요"
    ensures DetectConfirm(text) == No
  {
    NoThanksHasNo();
    NoBy(text, 0);
  }

  lemma NoThanksHasNo()
    ensures Contains("아니요 괜찮아요", NegativeKeywords[0])
  {
    ContainsMiddle("", "아니", "요 괜찮아요");
  }

  /** A negative keyword settles the reply, whatever follows it. */
  lemma NoThanksIsNo()
    ensures DetectConfirm("아니요 괜찮아요") == No
  {
    PlainIsNormal("아니요 괜찮아요");
    NoWhenNormalizedTo("아니요 괜찮아요");
  }

  lemma BothWhenNormalizedTo(text: string)
    requires Normalize(text) == "네 아니에요"
    ensures DetectConfirm(text) == No
  {
    BothHasNo();
    NoBy(text, 0);
  }

  lemma BothHasNo()
    ensures Contains("네 아니에요", NegativeKeywords[0])
  {
    ContainsMiddle("네 ", "아니", "에요");
  }

  lemma BothHasYes()
    ensures Contains("네 아니에요", PositiveKeywords[0])
  {
    ContainsMiddle("", "네", " 아니에요");
  }

  /** Negative keywords are searched first: "네" is present, yet the reply is "no". */
  lemma NegativeBeforePositive()
    ensures DetectConfirm("네 아니에요") == No
    ensures Contains("네 아니에요", PositiveKeywords[0])
  {
    PlainIsNormal("네 아니에요");
    BothWhenNormalizedTo("네 아니에요");
    BothHasYes();
  }

  lemma HesitationHasNoNegative()
    ensures forall i :: 0 <= i < |NegativeKeywords| ==> !Contains("음... 글쎄요", NegativeKeywords[i])
  {
    NoneContained("음... 글쎄요", NegativeKeywords);
  }

  lemma HesitationHasNoPositive()
    ensures forall i :: 0 <= i < |PositiveKeywords| ==> !Contains("음... 글쎄요", PositiveKeywords[i])
  {
    NoneContained("음... 글쎄요", PositiveKeywords);
  }

  lemma UnknownWhenNormalizedTo(text: string)
    requires Normalize(text) == "음... 글쎄요"
    ensures DetectConfirm(text) == Unknown
  {
    HesitationHasNoNegative();
    HesitationHasNoPositive();
    UnknownBy(text);
  }

  /** A hesitant reply holds no keyword at all. */
  lemma HesitationIsUnknown()
    ensures DetectConfirm("음... 글쎄요") == Unknown
  {
    PlainIsNormal("음... 글쎄요");
    UnknownWhenNormalizedTo("음... 글쎄요");
  }

  lemma OkayHasNoNegative()
    ensures forall i :: 0 <= i < |NegativeKeywords| ==> !Contains("오케이", NegativeKeywords[i])
  {
    NoneContained("오케이", NegativeKeywords);
  }

  lemma OkayWhenNormalizedTo(text: string)
    requires Normalize(text) == "오케이"
    ensures DetectConfirm(text) == Yes
  {
    OkayHasNoNegative();
    OkayHasYes();
    YesBy(text, 26);
  }

  lemma OkayHasYes()
    ensures Contains("오케이", PositiveKeywords[26])
  {
    ContainsMiddle("", "오케이", "");
  }

  lemma PaddedOkayTrimmed()
    ensures Trim("  오케이  ") == "오케이"
  {
    assert "  " + "오케이" + "  " == "  오케이  ";
    TrimAround("  ", "오케이", "  ");
  }

  lemma PaddedOkayNormalForm()
    ensures Normalize("  오케이  ") == "오케이"
  {
    PaddedOkayTrimmed();
    OkayHasNoUpper();
    TrimmedNormalForm("  오케이  ", "오케이");
  }

  lemma OkayHasNoUpper()
    ensures NoUpper("오케이")
  {
  }

  /** A reply whose trimmed form has no upper-case letter normalizes to that trimmed form. */
  lemma TrimmedNormalForm(text: string, trimmed: string)
    requires Trim(text) == trimmed && NoUpper(trimmed)
    ensures Normalize(text) == trimmed
  {
    NoUpperLowerId(trimmed);
  }

  /** White space around the reply is ignored. */
  lemma PaddedOkayIsYes()
    ensures DetectConfirm("  오케이  ") == Yes
  {
    PaddedOkayNormalForm();
    OkayWhenNormalizedTo("  오케이  ");
  }
}
