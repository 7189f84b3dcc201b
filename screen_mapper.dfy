/**
 * The screen resolver: search keywords pick one of the six CRM screens by an
 * ordered first-match table over the lower-cased keywords, with data-addon as
 * the fallback.
 */
module ScreenMapper {
  import opened Text
  import opened Rules
  import opened CrmTypes

  /** `SCREEN_RULES`, in order: rule order decides overlaps. */
  const ScreenRules: seq<Rule<Screen>> := [
    Rule(Roaming, ["로밍", "해외", "국제", "유럽", "여행", "일본", "미국", "중국", "태국", "베트남", "호주",
                   "동남아", "대양주", "캐나다", "하와이", "괌", "사이판", "필리핀", "싱가포르"]),
    Rule(LostStolen, ["분실", "도난", "정지", "잠금", "보험"]),
    Rule(Cancellation, ["해지", "위약금", "해약", "탈퇴"]),
    Rule(DeviceChange, ["기기변경", "개통", "단말", "번호이동", "MNP", "전입", "신규가입"]),
    Rule(PlanChange, ["요금제", "요금", "청구", "과금", "납부", "약정", "할부", "이의", "업그레이드", "다운그레이드", "플랜"]),
    Rule(DataAddon, ["데이터", "부가서비스", "리필", "소진", "쿠폰", "속도", "네트워크", "멤버십"])
  ]

  /**
   * `determineCrmScreen`: the screen of the first rule, in table order, one of
   * whose tokens a lower-cased keyword contains; data-addon when no rule matches.
   */
  function DetermineCrmScreen(keywords: seq<string>): (r: Screen)
    ensures IsFirstMatch(ScreenRules, Always(), LowerAll(keywords), DataAddon, r)
  {
    ResolveIsFirstMatch(ScreenRules, Always(), LowerAll(keywords), DataAddon);
    Resolve(ScreenRules, Always(), LowerAll(keywords), DataAddon)
  }

  /** No keywords at all: the fallback. */
  lemma EmptyIsDataAddon()
    ensures DetermineCrmScreen([]) == DataAddon
  {
    forall n | 0 <= n < |ScreenRules| ensures !Matches(ScreenRules[n], []) {
    }
  }

  /**
   * The upper-case token "MNP" never matches, since every keyword is
   * lower-cased before the search.
   */
  lemma MnpNeverMatches(keywords: seq<string>)
    ensures forall j :: 0 <= j < |keywords| ==> !Contains(LowerAll(keywords)[j], "MNP")
  {
    forall j | 0 <= j < |keywords| ensures !Contains(LowerAll(keywords)[j], "MNP") {
      LowerHasNoUpper(keywords[j], 'M');
      NotContainsFirstChar(LowerAll(keywords)[j], "MNP");
    }
  }

  /** Lower-casing the keywords first does not change the screen. */
  lemma LowerCaseInvariant(keywords: seq<string>)
    ensures DetermineCrmScreen(LowerAll(keywords)) == DetermineCrmScreen(keywords)
  {
    LowerAllIdempotent(keywords);
  }

  /** Rule order decides overlaps: 해외 (roaming) wins over 요금 (plan change). */
  lemma OverseasChargeIsRoaming()
    ensures DetermineCrmScreen(["해외", "요금"]) == Roaming
  {
    var lowered := ["해외", "요금"];
    AllNoUpperLowerAllId(lowered);
    assert Contains(lowered[0], "해외");
    assert Hit(ScreenRules[0].tokens, lowered);
    ResolveAt(ScreenRules, lowered, DataAddon, 0);
  }

  lemma RoamingEuropeIsRoaming()
    ensures DetermineCrmScreen(["로밍", "유럽"]) == Roaming
  {
    var lowered := ["로밍", "유럽"];
    AllNoUpperLowerAllId(lowered);
    assert Contains(lowered[0], "로밍");
    assert Hit(ScreenRules[0].tokens, lowered);
    ResolveAt(ScreenRules, lowered, DataAddon, 0);
  }

  lemma CancellationKeyword()
    ensures DetermineCrmScreen(["해지"]) == Cancellation
  {
    var lowered := ["해지"];
    AllNoUpperLowerAllId(lowered);
    assert Contains(lowered[0], "해지");
    assert Hit(ScreenRules[2].tokens, lowered);
    ResolveAt(ScreenRules, lowered, DataAddon, 2);
  }

  /** A single keyword, already lower-case, that excludes every token falls back to data-addon. */
  lemma NoTokenFallsBack(keyword: string)
    requires NoUpper(keyword)
    requires forall n, i :: 0 <= n < |ScreenRules| && 0 <= i < |ScreenRules[n].tokens| ==>
      Excluded(keyword, ScreenRules[n].tokens[i])
    ensures DetermineCrmScreen([keyword]) == DataAddon
  {
    LowerAllSingle(keyword);
    ResolveSingleNone(ScreenRules, keyword, DataAddon);
  }

  lemma WeatherExcludesEveryToken()
    ensures forall n, i :: 0 <= n < |ScreenRules| && 0 <= i < |ScreenRules[n].tokens| ==>
      Excluded("날씨", ScreenRules[n].tokens[i])
  {
  }

  lemma WeatherHasNoUpper()
    ensures NoUpper("날씨")
  {
  }

  /** A keyword with no rule hit falls back to data-addon. */
  lemma UnrelatedIsDataAddon()
    ensures DetermineCrmScreen(["날씨"]) == DataAddon
  {
    WeatherExcludesEveryToken();
    WeatherHasNoUpper();
    NoTokenFallsBack("날씨");
  }

  lemma ShortTokenExcludesEveryToken()
    ensures forall n, i :: 0 <= n < |ScreenRules| && 0 <= i < |ScreenRules[n].tokens| ==>
      Excluded("로", ScreenRules[n].tokens[i])
  {
  }

  lemma ShortTokenHasNoUpper()
    ensures NoUpper("로")
  {
  }

  /** Matching is one-directional: "로" is part of "로밍" but does not contain it. */
  lemma PrefixOfTokenDoesNotMatch()
    ensures DetermineCrmScreen(["로"]) == DataAddon
  {
    ShortTokenExcludesEveryToken();
    ShortTokenHasNoUpper();
    NoTokenFallsBack("로");
  }

  /** `SCREEN_LABELS`: every screen has a label, and no two screens share one. */
  function ScreenLabel(s: Screen): (text: string)
    ensures |text| > 0
  {
    match s
    case Roaming => "로밍 설정"
    case LostStolen => "분실/도난 신고"
    case Cancellation => "해지 처리"
    case DeviceChange => "기기변경/개통"
    case PlanChange => "요금제 변경"
    case DataAddon => "데이터/부가서비스"
  }

  lemma ScreenLabelsDistinct(a: Screen, b: Screen)
    ensures ScreenLabel(a) == ScreenLabel(b) ==> a == b
  {
  }
}
