// The property record of the iOS app (AuctionProperty.swift): the property
// kinds with their Korean raw values and the keyword classifier used for API
// answers, the auction states, the courts and their grouping by region.

module PropertyModel {
  import opened Wrappers
  import opened Text

  datatype PropertyType = Apartment | Officetel | Villa | House | Shop | Office | Land | Other

  /** The raw value each kind is stored and shown as. */
  function RawValue(t: PropertyType): string
  {
    match t
    case Apartment => "아파트"
    case Officetel => "오피스텔"
    case Villa => "빌라"
    case House => "단독주택"
    case Shop => "상가"
    case Office => "사무실"
    case Land => "토지"
    case Other => "기타"
  }

  /** The kinds in the order the classifier tests them. */
  const ClassifierOrder: seq<PropertyType> := [Apartment, Officetel, Villa, House, Shop, Office, Land]

  /** The English keyword that also selects a kind. */
  function EnglishKeyword(t: PropertyType): string
  {
    match t
    case Apartment => "apartment"
    case Officetel => "officetel"
    case Villa => "villa"
    case House => "house"
    case Shop => "shop"
    case Office => "office"
    case Land => "land"
    case Other => ""
  }

  /** The lower-cased text names kind `t` by its Korean or its English keyword. */
  predicate Names(lowered: string, t: PropertyType)
  {
    Contains(lowered, RawValue(t)) || Contains(lowered, EnglishKeyword(t))
  }

  /** The position of a kind in the order the classifier tests them. */
  function Position(t: PropertyType): (i: nat)
    requires t != Other
    ensures i < |ClassifierOrder| && ClassifierOrder[i] == t
  {
    match t
    case Apartment => 0 case Officetel => 1 case Villa => 2 case House => 3
    case Shop => 4 case Office => 5 case Land => 6
  }

  /** No kind is named by the text. */
  predicate NoKeyword(lowered: string)
  {
    !Names(lowered, Apartment) && !Names(lowered, Officetel) && !Names(lowered, Villa) && !Names(lowered, House)
    && !Names(lowered, Shop) && !Names(lowered, Office) && !Names(lowered, Land)
  }

  /** PropertyType.from(string:): the first kind, in the fixed order, whose keyword occurs. */
  function From(s: string): (t: PropertyType)
    ensures t == Other <==> NoKeyword(Lower(s))
    ensures t != Other ==> Names(Lower(s), t)
                           && forall k :: 0 <= k < Position(t) ==> !Names(Lower(s), ClassifierOrder[k])
  {
    var lowered := Lower(s);
    assert ClassifierOrder == [Apartment, Officetel, Villa, House, Shop, Office, Land];
    if Names(lowered, Apartment) then Apartment
    else if Names(lowered, Officetel) then Officetel
    else if Names(lowered, Villa) then Villa
    else if Names(lowered, House) then House
    else if Names(lowered, Shop) then Shop
    else if Names(lowered, Office) then Office
    else if Names(lowered, Land) then Land
    else Other
  }

  /** A text without any character of `t` does not contain `t`. */
  lemma Lacks(s: string, t: string, k: nat)
    requires k < |t| && t[k] !in s
    ensures !Contains(s, t)
  {
    if Contains(s, t) {
      ContainsHasChar(s, t, k);
    }
  }

  /** A Hangul text is its own lower-case form and names no kind by its English keyword. */
  lemma HangulText(s: string)
    requires forall i :: 0 <= i < |s| ==> s[i] >= '가'
    ensures Lower(s) == s
    ensures forall t: PropertyType :: t != Other ==> !Contains(s, EnglishKeyword(t))
  {
    LowerNoop(s);
    forall t: PropertyType | t != Other
      ensures !Contains(s, EnglishKeyword(t))
    {
      Lacks(s, EnglishKeyword(t), 0);
    }
  }

  /** A Hangul text is classified as the first kind whose Korean name it contains. */
  lemma FromHangul(s: string, t: PropertyType)
    requires forall i :: 0 <= i < |s| ==> s[i] >= '가'
    requires t != Other && Contains(s, RawValue(t))
    requires forall k :: 0 <= k < Position(t) ==> !Contains(s, RawValue(ClassifierOrder[k]))
    ensures From(s) == t
  {
    HangulText(s);
    assert ClassifierOrder == [Apartment, Officetel, Villa, House, Shop, Office, Land];
    match t
    case Apartment =>
    case Officetel =>
      assert !Contains(s, RawValue(ClassifierOrder[0])) && !Contains(s, EnglishKeyword(Apartment));
    case Villa =>
      assert !Contains(s, RawValue(ClassifierOrder[0])) && !Contains(s, EnglishKeyword(Apartment));
      assert !Contains(s, RawValue(ClassifierOrder[1])) && !Contains(s, EnglishKeyword(Officetel));
    case House =>
      assert !Contains(s, RawValue(ClassifierOrder[0])) && !Contains(s, EnglishKeyword(Apartment));
      assert !Contains(s, RawValue(ClassifierOrder[1])) && !Contains(s, EnglishKeyword(Officetel));
      assert !Contains(s, RawValue(ClassifierOrder[2])) && !Contains(s, EnglishKeyword(Villa));
    case Shop =>
      assert !Contains(s, RawValue(ClassifierOrder[0])) && !Contains(s, EnglishKeyword(Apartment));
      assert !Contains(s, RawValue(ClassifierOrder[1])) && !Contains(s, EnglishKeyword(Officetel));
      assert !Contains(s, RawValue(ClassifierOrder[2])) && !Contains(s, EnglishKeyword(Villa));
      assert !Contains(s, RawValue(ClassifierOrder[3])) && !Contains(s, EnglishKeyword(House));
    case Office =>
      assert !Contains(s, RawValue(ClassifierOrder[0])) && !Contains(s, EnglishKeyword(Apartment));
      assert !Contains(s, RawValue(ClassifierOrder[1])) && !Contains(s, EnglishKeyword(Officetel));
      assert !Contains(s, RawValue(ClassifierOrder[2])) && !Contains(s, EnglishKeyword(Villa));
      assert !Contains(s, RawValue(ClassifierOrder[3])) && !Contains(s, EnglishKeyword(House));
      assert !Contains(s, RawValue(ClassifierOrder[4])) && !Contains(s, EnglishKeyword(Shop));
    case Land =>
      assert !Contains(s, RawValue(ClassifierOrder[0])) && !Contains(s, EnglishKeyword(Apartment));
      assert !Contains(s, RawValue(ClassifierOrder[1])) && !Contains(s, EnglishKeyword(Officetel));
      assert !Contains(s, RawValue(ClassifierOrder[2])) && !Contains(s, EnglishKeyword(Villa));
      assert !Contains(s, RawValue(ClassifierOrder[3])) && !Contains(s, EnglishKeyword(House));
      assert !Contains(s, RawValue(ClassifierOrder[4])) && !Contains(s, EnglishKeyword(Shop));
      assert !Contains(s, RawValue(ClassifierOrder[5])) && !Contains(s, EnglishKeyword(Office));
  }

  /** No raw value contains the first letter of another kind's raw value. */
  lemma RawValueFirstLetter(t: PropertyType, k: PropertyType)
    requires t != k
    ensures !Contains(RawValue(t), RawValue(k))
  {
    Lacks(RawValue(t), RawValue(k), 0);
  }

  /** Classifying a kind's own raw value gives that kind back. */
  lemma FromRawValue(t: PropertyType)
    ensures From(RawValue(t)) == t
  {
    var s := RawValue(t);
    ContainsSelf(s);
    forall k: PropertyType | k != t
      ensures !Contains(s, RawValue(k))
    {
      RawValueFirstLetter(t, k);
    }
    if t == Other {
      HangulText(s);
    } else {
      FromHangul(s, t);
    }
  }

  /** "officetel" contains "office" but is an officetel, because that kind is tested first. */
  lemma OfficetelBeforeOffice(s: string)
    requires s == "Officetel"
    ensures Contains(Lower(s), "office")
    ensures From(s) == Officetel
  {
    var lowered := Lower(s);
    assert lowered == "officetel";
    assert OccursAt(lowered, "office", 0);
    assert OccursAt(lowered, "officetel", 0);
    Lacks(lowered, "아파트", 0);
    Lacks(lowered, "apartment", 1);
  }

  datatype AuctionStatus = InProgress | Scheduled | Completed | Failed

  function StatusRawValue(s: AuctionStatus): string
  {
    match s
    case InProgress => "진행중"
    case Scheduled => "예정"
    case Completed => "종료"
    case Failed => "유찰"
  }

  datatype Court =
    | SeoulCentral | SeoulSouth | SeoulNorth | SeoulEast | SeoulWest
    | Incheon
    | Suwon | Uijeongbu
    | Chuncheon | Wonju
    | Cheongju
    | Daejeon | Seosan
    | Jeonju
    | Gwangju | Mokpo
    | Daegu | Andong | Pohang
    | Busan | Changwon | Jinju
    | BusanEast | BusanWest | BusanNorth
    | Ulsan
    | Jeju
    | OtherCourt

  function CourtRawValue(c: Court): string
  {
    match c
    case SeoulCentral => "서울중앙지방법원"
    case SeoulSouth => "서울남부지방법원"
    case SeoulNorth => "서울북부지방법원"
    case SeoulEast => "서울동부지방법원"
    case SeoulWest => "서울서부지방법원"
    case Incheon => "인천지방법원"
    case Suwon => "수원지방법원"
    case Uijeongbu => "의정부지방법원"
    case Chuncheon => "춘천지방법원"
    case Wonju => "원주지방법원"
    case Cheongju => "청주지방법원"
    case Daejeon => "대전지방법원"
    case Seosan => "서산지방법원"
    case Jeonju => "전주지방법원"
    case Gwangju => "광주지방법원"
    case Mokpo => "목포지방법원"
    case Daegu => "대구지방법원"
    case Andong => "안동지방법원"
    case Pohang => "포항지방법원"
    case Busan => "부산지방법원"
    case Changwon => "창원지방법원"
    case Jinju => "진주지방법원"
    case BusanEast => "부산지방법원 동부지원"
    case BusanWest => "부산지방법원 서부지원"
    case BusanNorth => "부산지방법원 북부지원"
    case Ulsan => "울산지방법원"
    case Jeju => "제주지방법원"
    case OtherCourt => "기타"
  }

  /** Every court in declaration order. */
  const AllCourts: seq<Court> := [
    SeoulCentral, SeoulSouth, SeoulNorth, SeoulEast, SeoulWest, Incheon, Suwon, Uijeongbu,
    Chuncheon, Wonju, Cheongju, Daejeon, Seosan, Jeonju, Gwangju, Mokpo, Daegu, Andong, Pohang,
    Busan, Changwon, Jinju, BusanEast, BusanWest, BusanNorth, Ulsan, Jeju, OtherCourt]

  /** groupedCourts: the courts listed under their region. */
  const GroupedCourts: seq<(string, seq<Court>)> := [
    ("서울", [SeoulCentral, SeoulSouth, SeoulNorth, SeoulEast, SeoulWest]),
    ("인천", [Incheon]),
    ("경기", [Suwon, Uijeongbu]),
    ("강원", [Chuncheon, Wonju]),
    ("충북", [Cheongju]),
    ("충남", [Daejeon, Seosan]),
    ("전북", [Jeonju]),
    ("전남", [Gwangju, Mokpo]),
    ("경북", [Daegu, Andong, Pohang]),
    ("경남", [Busan, Changwon, Jinju]),
    ("부산", [BusanEast, BusanWest, BusanNorth]),
    ("울산", [Ulsan]),
    ("제주", [Jeju]),
    ("기타", [OtherCourt])]

  /** The courts of the groups, one group after the other. */
  function Flatten(groups: seq<(string, seq<Court>)>): seq<Court>
  {
    if |groups| == 0 then [] else groups[0].1 + Flatten(groups[1..])
  }

  predicate Distinct(courts: seq<Court>)
  {
    forall i, j :: 0 <= i < j < |courts| ==> courts[i] != courts[j]
  }

  /** Every court is in the declaration-order list ... */
  lemma AllCourtsListed()
    ensures forall c: Court :: c in AllCourts
  {
    forall c: Court
      ensures c in AllCourts
    {
      CourtIndexInverse(c);
    }
  }

  /** ... exactly once: 28 courts in all. */
  lemma AllCourtsDistinct()
    ensures |AllCourts| == 28 && Distinct(AllCourts)
  {
    forall i, j | 0 <= i < j < |AllCourts|
      ensures AllCourts[i] != AllCourts[j]
    {
      CourtIndexAt(i);
      CourtIndexAt(j);
    }
  }

  /** The court at position i of the list has index i ... */
  lemma CourtIndexAt(i: nat)
    requires i < |AllCourts|
    ensures CourtIndex(AllCourts[i]) == i
  {
  }

  /** ... and the index of a court is where the list holds it. */
  lemma CourtIndexInverse(c: Court)
    ensures CourtIndex(c) < |AllCourts| && AllCourts[CourtIndex(c)] == c
  {
  }

  lemma FlattenStep(g: seq<(string, seq<Court>)>, k: nat)
    requires k < |g|
    ensures Flatten(g[k..]) == g[k].1 + Flatten(g[k + 1..])
  {
    assert g[k..][1..] == g[k + 1..];
  }

  /** If group k is the slice a[lo..hi] and the later groups flatten to a[hi..],
      the groups from k on flatten to a[lo..]. */
  lemma FlattenGroup(g: seq<(string, seq<Court>)>, k: nat, a: seq<Court>, lo: nat, hi: nat)
    requires k < |g| && lo <= hi <= |a|
    requires g[k].1 == a[lo..hi] && Flatten(g[k + 1..]) == a[hi..]
    ensures Flatten(g[k..]) == a[lo..]
  {
    FlattenStep(g, k);
    assert a[lo..] == a[lo..hi] + a[hi..];
  }

  /** The grouping by region lists the courts in declaration order, hence each exactly once. */
  lemma FlattenGrouped(g: seq<(string, seq<Court>)>, a: seq<Court>)
    requires g == GroupedCourts && a == AllCourts
    ensures Flatten(g) == a
  {
    FlattenCapitalGroups(g, a);
    assert a[5..6] == [a[5]];
    FlattenGroup(g, 1, a, 5, 6);
    assert a[0..5] == [a[0], a[1], a[2], a[3], a[4]];
    FlattenGroup(g, 0, a, 0, 5);
    assert g[0..] == g && a[0..] == a;
  }

  /** The groups from 경기 on hold the courts from the seventh on. */
  lemma FlattenCapitalGroups(g: seq<(string, seq<Court>)>, a: seq<Court>)
    requires g == GroupedCourts && a == AllCourts
    ensures Flatten(g[2..]) == a[6..]
  {
    FlattenInlandGroups(g, a);
    assert a[8..10] == [a[8], a[9]];
    FlattenGroup(g, 3, a, 8, 10);
    assert a[6..8] == [a[6], a[7]];
    FlattenGroup(g, 2, a, 6, 8);
  }

  /** The groups from 충북 on hold the courts from the eleventh on. */
  lemma FlattenInlandGroups(g: seq<(string, seq<Court>)>, a: seq<Court>)
    requires g == GroupedCourts && a == AllCourts
    ensures Flatten(g[4..]) == a[10..]
  {
    FlattenMiddleGroups(g, a);
    assert a[10..11] == [a[10]];
    FlattenGroup(g, 4, a, 10, 11);
  }

  /** The groups from 충남 on hold the courts from the twelfth on. */
  lemma FlattenMiddleGroups(g: seq<(string, seq<Court>)>, a: seq<Court>)
    requires g == GroupedCourts && a == AllCourts
    ensures Flatten(g[5..]) == a[11..]
  {
    FlattenSouthernGroups(g, a);
    assert a[14..16] == [a[14], a[15]];
    FlattenGroup(g, 7, a, 14, 16);
    assert a[13..14] == [a[13]];
    FlattenGroup(g, 6, a, 13, 14);
    assert a[11..13] == [a[11], a[12]];
    FlattenGroup(g, 5, a, 11, 13);
  }

  /** The groups from 경북 on hold the courts from the seventeenth on. */
  lemma FlattenSouthernGroups(g: seq<(string, seq<Court>)>, a: seq<Court>)
    requires g == GroupedCourts && a == AllCourts
    ensures Flatten(g[8..]) == a[16..]
  {
    FlattenLaterGroups(g, a);
    assert a[19..22] == [a[19], a[20], a[21]];
    FlattenGroup(g, 9, a, 19, 22);
    assert a[16..19] == [a[16], a[17], a[18]];
    FlattenGroup(g, 8, a, 16, 19);
  }

  /** The groups from 경남 on hold the courts from the twentieth on. */
  lemma FlattenLaterGroups(g: seq<(string, seq<Court>)>, a: seq<Court>)
    requires g == GroupedCourts && a == AllCourts
    ensures Flatten(g[10..]) == a[22..]
  {
    assert |g| == 14 && |a| == 28;
    assert Flatten(g[14..]) == [];
    assert a[27..28] == [a[27]];
    FlattenGroup(g, 13, a, 27, 28);
    assert a[26..27] == [a[26]];
    FlattenGroup(g, 12, a, 26, 27);
    assert a[25..26] == [a[25]];
    FlattenGroup(g, 11, a, 25, 26);
    assert a[22..25] == [a[22], a[23], a[24]];
    FlattenGroup(g, 10, a, 22, 25);
  }

  /** The position of a court in declaration order. */
  function CourtIndex(c: Court): nat
  {
    match c
    case SeoulCentral => 0 case SeoulSouth => 1 case SeoulNorth => 2 case SeoulEast => 3
    case SeoulWest => 4 case Incheon => 5 case Suwon => 6 case Uijeongbu => 7 case Chuncheon => 8
    case Wonju => 9 case Cheongju => 10 case Daejeon => 11 case Seosan => 12 case Jeonju => 13
    case Gwangju => 14 case Mokpo => 15 case Daegu => 16 case Andong => 17 case Pohang => 18
    case Busan => 19 case Changwon => 20 case Jinju => 21 case BusanEast => 22 case BusanWest => 23
    case BusanNorth => 24 case Ulsan => 25 case Jeju => 26 case OtherCourt => 27
  }

  /** A stored property. The identifier and the two dates are numbers here; the inspection and
      simulation results the record may carry are not part of this model. */
  datatype AuctionProperty = AuctionProperty(
    id: nat,
    caseNumber: string,
    propertyLocation: string,
    propertyType: PropertyType,
    court: string,
    auctionDate: int,
    auctionStatus: AuctionStatus,
    bidPrice: real,
    marketPrice: real,
    appraisalPrice: real,
    minimumBid: real,
    renovationCost: real,
    region: Option<string>,
    district: Option<string>,
    competitorCount: int,
    marketCondition: string,
    urgency: string,
    auctionType: string,
    failedCount: int,
    targetProfitRate: real,
    createdDate: int,
    lastModifiedDate: int)
}
