// The reference data of constants.ts: the seeded estimates, the priced
// catalog and the three templates. The currency formatter is not modelled.

module Constants {
  import opened Types

  /** MOCK_ESTIMATES: the list a fresh storage is seeded with. */
  const MockEstimates: seq<Estimate> := [
    Estimate("1", "서울 아파트 타일 공사", "김민수", 4500000.0, Completed, Tile, "https://picsum.photos/200/200?random=1", "2023-10-25", None, None, None, None),
    Estimate("2", "강남 사무실 목공 공사", "이정호", 8200000.0, Sent, Carpentry, "https://picsum.photos/200/200?random=2", "2023-10-26", None, None, None, None),
    Estimate("3", "한남 빌라 바닥 공사", "박서준", 2100000.0, Draft, Tile, "https://picsum.photos/200/200?random=3", "2023-10-27", None, None, None, None),
    Estimate("4", "이태원 카페 카운터 시공", "최지원", 3850000.0, Sent, Carpentry, "https://picsum.photos/200/200?random=4", "2023-10-28", None, None, None, None)
  ]

  /** MOCK_LIBRARY: eighty catalog entries, twenty per category. */
  const MockLibrary: seq<LibraryItem> := [
    LibraryItem("w1", "목공", "석고보드 가벽 설치", 55000, "m²", "일반 석고보드 2P, 목재 스터드 포함", Some(true)),
    LibraryItem("w2", "목공", "천장 평탄화 작업", 28000, "m²", "기존 천장 철거 후 수평 보강", Some(true)),
    LibraryItem("w3", "목공", "걸레받이 시공 (MDF)", 8500, "m", "백색 필름 마감, 실리콘 마감 포함", Some(true)),
    LibraryItem("w4", "목공", "천장 몰딩 시공 (평몰딩)", 7500, "m", "백색 60mm 평몰딩 기준", Some(false)),
    LibraryItem("w5", "목공", "문틀/문짝 목공 마감", 120000, "set", "문틀 보강 및 수평 작업", Some(false)),
    LibraryItem("w6", "목공", "싱크대 하부장 골조", 350000, "m", "주방 가구 목재 프레임 작업", Some(false)),
    LibraryItem("w7", "목공", "붙박이장 골조 작업", 280000, "m", "안방 수납장 목공 기본 틀", Some(false)),
    LibraryItem("w8", "목공", "아트월 목공 시공", 450000, "식", "거실 TV 벽면 포인트 목공", Some(true)),
    LibraryItem("w9", "목공", "간접 등박스 조성", 45000, "m", "T5 조명용 매립 박스", Some(false)),
    LibraryItem("w10", "목공", "커튼박스 보강 시공", 15000, "m", "창가 합판 보강 작업", Some(false)),
    LibraryItem("w11", "목공", "아치형 문틀 제작", 250000, "ea", "곡선 라운드 목공 작업", Some(true)),
    LibraryItem("w12", "목공", "무지주 선반 제작", 85000, "ea", "벽체 매립형 목재 선반", Some(false)),
    LibraryItem("w13", "목공", "계단 목공 보수", 650000, "식", "실내 계단 디딤판 보강", Some(false)),
    LibraryItem("w14", "목공", "데크 시공 (방부목)", 180000, "m²", "외부 테라스 방부목 데크", Some(false)),
    LibraryItem("w15", "목공", "벽면 루바 시공", 55000, "m²", "수평/수직 우드 루바 시공", Some(false)),
    LibraryItem("w16", "목공", "단열재 충전 및 마감", 35000, "m²", "이보드 또는 단열재 50T", Some(false)),
    LibraryItem("w17", "목공", "흡음판 타공 시공", 95000, "m²", "음악실용 목재 타공판", Some(false)),
    LibraryItem("w18", "목공", "유리틀 파티션 제작", 380000, "m", "목재 프레임 및 유리 고정틀", Some(false)),
    LibraryItem("w19", "목공", "슬라이딩 레일 매립", 150000, "set", "포켓 도어용 상부 레일 목공", Some(false)),
    LibraryItem("w20", "목공", "목재 창호 보수", 80000, "ea", "기존 목재 창호 밸런스 조정", Some(false)),
    LibraryItem("t1", "타일", "600각 포세린 타일 시공", 75000, "m²", "거실/주방 바닥, 졸리컷 마감 별도", Some(true)),
    LibraryItem("t2", "타일", "욕실 벽 타일 (300*600)", 45000, "m²", "국산 도기질 타일 기준", Some(true)),
    LibraryItem("t3", "타일", "욕실 바닥 타일 (300각)", 42000, "m²", "미끄럼 방지 자기질 타일", Some(false)),
    LibraryItem("t4", "타일", "주방 서브웨이 타일", 55000, "m²", "100*300각 포인트 시공", Some(false)),
    LibraryItem("t5", "타일", "현관 헥사곤 타일", 65000, "m²", "벌집 모양 포인트 타일", Some(true)),
    LibraryItem("t6", "타일", "발코니 우드 타일 시공", 38000, "m²", "나무 질감의 쪽마루 타일", Some(false)),
    LibraryItem("t7", "타일", "모자이크 타일 시공", 85000, "m²", "그물망 타일, 포인트 벽면용", Some(false)),
    LibraryItem("t8", "타일", "박판 타일 (1200*2400)", 250000, "m²", "대형 세라믹 박판 타일", Some(false)),
    LibraryItem("t9", "타일", "졸리컷 마감 처리", 35000, "m", "타일 모서리 45도 가공 마감", Some(true)),
    LibraryItem("t10", "타일", "에폭시 줄눈 (메지) 작업", 120000, "식", "오염 방지용 반짝이 줄눈 등", Some(false)),
    LibraryItem("t11", "타일", "테라조 타일 시공", 65000, "m²", "인조석 질감 테라조 패턴", Some(false)),
    LibraryItem("t12", "타일", "빈티지 노출 타일", 58000, "m²", "콘크리트 질감 빈티지 타일", Some(false)),
    LibraryItem("t13", "타일", "욕조 측면 타일 마감", 150000, "ea", "에이프런 타일 마감 시공", Some(false)),
    LibraryItem("t14", "타일", "젠다이 타일 졸리컷", 180000, "식", "욕실 선반 타일 일체형 시공", Some(false)),
    LibraryItem("t15", "타일", "포인트 벽 타일 (패턴)", 75000, "m²", "특수 패턴 포인트 타일", Some(false)),
    LibraryItem("t16", "타일", "실외 계단 타일 시공", 95000, "m²", "외부용 논슬립 고강도 타일", Some(false)),
    LibraryItem("t17", "타일", "수영장 타일 (20각)", 150000, "m²", "담수용 수영장 미니 타일", Some(false)),
    LibraryItem("t18", "타일", "타일 철거 후 면정리", 25000, "m²", "기존 타일 제거 및 바닥 정리", Some(false)),
    LibraryItem("t19", "타일", "폴리싱 타일 (800각)", 85000, "m²", "고광택 폴리싱 타일 시공", Some(false)),
    LibraryItem("t20", "타일", "파벽돌 인테리어 시공", 55000, "m²", "카페형 파벽돌 부착 및 줄눈", Some(false)),
    LibraryItem("m1", "자재", "편백나무 루바 (bundle)", 42000, "bundle", "무절, 2400mm x 100mm", Some(false)),
    LibraryItem("m2", "자재", "영림 도어 (ABS)", 245000, "set", "문틀, 문짝 세트 제품", Some(true)),
    LibraryItem("m3", "자재", "세라픽스 7000 (20kg)", 28000, "ea", "벽타일 접착 본드", Some(false)),
    LibraryItem("m4", "자재", "압착 시멘트 (25kg)", 9500, "bag", "바닥 타일용 시멘트", Some(false)),
    LibraryItem("m5", "자재", "아덱스 FG4 탄성줄눈", 18000, "bg", "고급 탄성 줄눈제 2kg", Some(true)),
    LibraryItem("m6", "자재", "백색 실리콘 (박스)", 85000, "box", "수성/유성 실리콘 20개", Some(false)),
    LibraryItem("m7", "자재", "우레탄 폼 (건용)", 6500, "ea", "창호/문틀 충전용 폼", Some(false)),
    LibraryItem("m8", "자재", "목공 본드 205 (10kg)", 22000, "ea", "오공본드 정품", Some(false)),
    LibraryItem("m9", "자재", "LG 인테리어 필름", 25000, "m", "방염 필름, 기본 단색", Some(true)),
    LibraryItem("m10", "자재", "도배용 친환경 풀", 12000, "ea", "밀가루 기반 친환경 도배풀", Some(false)),
    LibraryItem("m11", "자재", "수성 페인트 (18L)", 55000, "can", "실내 벽체용 화이트 수성", Some(false)),
    LibraryItem("m12", "자재", "락카 스프레이", 3500, "ea", "부분 마감용 스프레이", Some(false)),
    LibraryItem("m13", "자재", "전선 VAF 2.5sq", 120000, "roll", "접지 포함 3선 100m", Some(false)),
    LibraryItem("m14", "자재", "LED 3인치 매입등", 4500, "ea", "다운라이트 집중형/확산형", Some(true)),
    LibraryItem("m15", "자재", "스위치/콘센트 세트", 8500, "set", "르그랑/나노 기본형", Some(false)),
    LibraryItem("m16", "자재", "실크 벽지 (1롤)", 38000, "roll", "5평 기준 1롤 자재", Some(false)),
    LibraryItem("m17", "자재", "강마루 자재 (1박스)", 65000, "box", "0.5평 시공 가능 수량", Some(false)),
    LibraryItem("m18", "자재", "수평 몰탈 (25kg)", 14000, "bag", "자동수평 몰탈 자재", Some(false)),
    LibraryItem("m19", "자재", "방수액 완결 (20L)", 15000, "ea", "시멘트 혼입용 방수액", Some(false)),
    LibraryItem("m20", "자재", "작업용 A자 사다리", 120000, "ea", "5단 알루미늄 사다리", Some(false)),
    LibraryItem("o1", "기타", "폐기물 처리비 (1톤)", 400000, "truck", "상차비 및 폐기장 이용료", Some(true)),
    LibraryItem("o2", "기타", "욕실 철거 및 방수", 850000, "set", "철거, 액방, 도막방수 포함", Some(true)),
    LibraryItem("o3", "기타", "입주/준공 청소 (평)", 15000, "py", "공사 후 분진 제거 청소", Some(false)),
    LibraryItem("o4", "기타", "승강기 보양 작업", 150000, "set", "플라베베 활용 전면 보양", Some(true)),
    LibraryItem("o5", "기타", "에어컨 배관 매립", 250000, "식", "벽체 타공 및 배관 숨김", Some(false)),
    LibraryItem("o6", "기타", "욕실 기구 세팅비", 250000, "set", "양변기, 세면기 설치 공임", Some(false)),
    LibraryItem("o7", "기타", "조명 교체 인건비", 15000, "ea", "기존 등 탈거 및 신규 설치", Some(false)),
    LibraryItem("o8", "기타", "도장 뿜칠 인건비", 45000, "m²", "기계 분사 도장 전문 작업", Some(false)),
    LibraryItem("o9", "기타", "철거 인건비 (철거공)", 250000, "person", "전문 철거 인력 1인 하루", Some(false)),
    LibraryItem("o10", "기타", "현장 관리비 (경비)", 300000, "식", "식대, 유류비, 소모품비", Some(false)),
    LibraryItem("o11", "기타", "유료 주차 지원비", 50000, "day", "현장 주변 주차장 이용료", Some(false)),
    LibraryItem("o12", "기타", "도배 시공 인건비", 35000, "py", "숙련공 기준 도배 공임", Some(false)),
    LibraryItem("o13", "기타", "전기 증설/이설비", 150000, "식", "차단기 용량 증설 및 위치 이동", Some(false)),
    LibraryItem("o14", "기타", "가구 실측 및 설계비", 100000, "식", "맞춤 가구 도면 작성비", Some(false)),
    LibraryItem("o15", "기타", "필름 시공 인건비", 220000, "person", "인테리어 필름 시공 전문가", Some(false)),
    LibraryItem("o16", "기타", "실리콘 마감 처리비", 50000, "식", "공사 전체 구간 코킹 마감", Some(false)),
    LibraryItem("o17", "기타", "도시가스 배관 수정", 280000, "식", "가스공사 대행 업체 비용", Some(false)),
    LibraryItem("o18", "기타", "소방 감지기 증설", 35000, "ea", "화재 감지기 라인 추가", Some(false)),
    LibraryItem("o19", "기타", "금속 프레임 제작비", 450000, "식", "철제 구조물 현장 용접/제작", Some(false)),
    LibraryItem("o20", "기타", "현장 잡자재비", 100000, "식", "장갑, 테이프, 비닐 등", Some(false))
  ]

  /** ESTIMATE_TEMPLATES: three reusable item bundles. */
  const EstimateTemplates: seq<Template> := [
    Template("t1", "30평형 아파트 전체 도배", "광폭 합지, 천장 포함 기본 시공", "주거공간", [
        TemplateItem("기존 벽지 제거", "식", 1.0, 0, 250000, None, Some("기존 실크벽지 전체 제거")),
        TemplateItem("30평형 전체 도배 (광폭합지)", "py", 30.0, 15000, 25000, None, Some("신한 벽지 광폭 합지 기준")),
        TemplateItem("부자재 및 풀", "식", 1.0, 150000, 0, None, Some("친환경 풀 및 초배지")),
        TemplateItem("폐기물 처리", "식", 1.0, 50000, 0, None, Some("도배지 폐기물 수거"))]),
    Template("t2", "욕실 리모델링 (덧방 시공)", "기본형 욕실, 도기 세팅 포함", "주거공간", [
        TemplateItem("기본 철거 (도기/천장)", "식", 1.0, 0, 350000, None, Some("타일 제외 도기 및 천장재 철거")),
        TemplateItem("벽 타일 시공 (덧방)", "m²", 22.0, 35000, 40000, None, Some("300*600각 도기질")),
        TemplateItem("바닥 타일 시공 (덧방)", "m²", 5.0, 35000, 40000, None, Some("300각 논슬립")),
        TemplateItem("평돔 천장 시공", "식", 1.0, 250000, 150000, None, Some("LED 매입등 2구 포함")),
        TemplateItem("위생 도기 세팅", "식", 1.0, 450000, 150000, None, Some("양변기, 세면기, 수전 세트"))]),
    Template("t3", "상가 가벽 및 파티션 공사", "10m 기준 석고 2P 가벽", "상업공간", [
        TemplateItem("목재 스터드 골조", "m", 10.0, 15000, 25000, None, Some("투바이 구조목 @450 간격")),
        TemplateItem("석고보드 취부 (2P)", "m²", 25.0, 8000, 15000, None, Some("9.5T 일반 석고보드 양면")),
        TemplateItem("걸레받이 시공", "m", 20.0, 5000, 5000, None, Some("MDF 80mm 백색"))])
  ]
}
