/** The fixed reference data the action planner and the CRM document start from. */
module CrmData {

  datatype RoamingProduct = RoamingProduct(name: string, region: string, price: string, data: string)

  datatype Plan = Plan(name: string, data: string, call: string, message: string, price: string, diff: string)

  datatype Device = Device(name: string, price: string, subsidy: string, installment: string)

  datatype LostOption = LostOption(caption: string, desc: string, color: string)  // caption is `label`

  datatype Addon = Addon(name: string, price: string, active: bool)

  // ROAMING_DATA
  const RoamingStatus: string := "미신청"

  const RoamingProducts: seq<RoamingProduct> := [
    RoamingProduct("baro 로밍 데이터", "유럽/미주", "11,000원/일", "무제한(1GB후 속도제한)"),
    RoamingProduct("baro 로밍 데이터 미니", "유럽/미주", "7,700원/일", "500MB"),
    RoamingProduct("baro 로밍 OnePass", "전세계", "33,000원/5일", "5GB"),
    RoamingProduct("T로밍 데이터 무제한", "아시아", "9,900원/일", "무제한")
  ]

  const RoamingRegions: seq<string> := ["유럽", "미주", "아시아", "일본", "중국", "동남아", "대양주"]

  // PLAN_DATA
  /** `PLAN_DATA.current` (name and price; the planner reads only the price) */
  const CurrentPlanName: string := "T플랜 에센셜"
  const CurrentPlanPrice: string := "69,000원"

  const AvailablePlans: seq<Plan> := [
    Plan("T플랜 스페셜", "150GB", "무제한", "무제한", "79,000원", "+10,000원"),
    Plan("T플랜 프리미엄", "무제한", "무제한", "무제한", "99,000원", "+30,000원"),
    Plan("T플랜 라이트", "50GB", "무제한", "무제한", "55,000원", "-14,000원"),
    Plan("0 청년 요금제", "60GB", "무제한", "무제한", "55,000원", "-14,000원")
  ]

  // DEVICE_DATA
  const AvailableDevices: seq<Device> := [
    Device("Galaxy S25 Ultra", "1,698,400원", "264,000원", "월 59,800원"),
    Device("iPhone 16 Pro Max", "1,900,000원", "198,000원", "월 70,900원"),
    Device("Galaxy Z Fold6", "2,098,700원", "330,000원", "월 73,700원")
  ]

  const DeviceOptions: seq<string> := ["공시지원금", "선택약정(25%할인)"]

  // LOST_STOLEN_DATA
  const LostDeviceStatus: string := "정상"

  const LostOptions: seq<LostOption> := [
    LostOption("분실 정지", "일시정지 후 복구 가능", "yellow"),
    LostOption("도난 정지", "긴급 정지 + 경찰 신고 접수", "red")
  ]

  // CANCELLATION_DATA
  const CancellationReasons: seq<string> := ["타사 이동", "요금 불만", "서비스 불만", "해외 이주", "기타"]

  // DATA_ADDON_DATA
  const Addons: seq<Addon> := [
    Addon("T 데이터 리필 쿠폰 1GB", "3,300원", false),
    Addon("T 데이터 리필 쿠폰 2GB", "5,500원", false),
    Addon("통화 매니아", "2,200원/월", true),
    Addon("T멤버십 VIP", "무료", true),
    Addon("스팸 차단 서비스", "무료", true),
    Addon("T가드(안심보험)", "9,900원/월", true)
  ]

  /** The reference data the action planner reads, gathered in one value. */
  datatype ReferenceData = ReferenceData(
    products: seq<RoamingProduct>,
    plans: seq<Plan>,
    currentPrice: string,
    devices: seq<Device>,
    deviceOptions: seq<string>,
    lostOptions: seq<LostOption>,
    reasons: seq<string>,
    addons: seq<Addon>)

  /** What the planner relies on: every list it indexes is long enough and the fallback reason is listed. */
  predicate Usable(d: ReferenceData) {
    && |d.products| > 0 && |d.plans| > 0 && |d.devices| > 0 && |d.addons| > 0
    && |d.deviceOptions| >= 2 && |d.lostOptions| >= 2
    && "기타" in d.reasons
  }

  const Demo: ReferenceData := ReferenceData(
    RoamingProducts, AvailablePlans, CurrentPlanPrice, AvailableDevices,
    DeviceOptions, LostOptions, CancellationReasons, Addons)

  lemma DemoUsable()
    ensures Usable(Demo)
  {
    assert CancellationReasons[4] == "기타";
  }
}
