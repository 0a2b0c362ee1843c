/**
  The constant tables of `src/utils/constants.ts` that the modelled logic reads:
  the prefecture and month selects, the map-search regions with their cities, the
  region/prefecture search selects, the filter groups and the job-status labels.
  The long tables are written as consecutive blocks of twelve entries; the value
  is the same flat list as in the source.
*/
module Constants {
  import opened Text
  import opened Js
  import opened Types

  // ------------------------------------------------------------- prefectures

  /** The prefecture select: a placeholder with value "" followed by the 47 prefectures. */
  const PrefectureOptions: seq<PickOption> :=
    [ PickOption("", "選択してください"),
      PickOption("1", "北海道"),
      PickOption("2", "青森県"),
      PickOption("3", "岩手県"),
      PickOption("4", "宮城県"),
      PickOption("5", "秋田県"),
      PickOption("6", "山形県"),
      PickOption("7", "福島県"),
      PickOption("8", "茨城県"),
      PickOption("9", "栃木県"),
      PickOption("10", "群馬県"),
      PickOption("11", "埼玉県") ] +
    [ PickOption("12", "千葉県"),
      PickOption("13", "東京都"),
      PickOption("14", "神奈川県"),
      PickOption("15", "新潟県"),
      PickOption("16", "富山県"),
      PickOption("17", "石川県"),
      PickOption("18", "福井県"),
      PickOption("19", "山梨県"),
      PickOption("20", "長野県"),
      PickOption("21", "岐阜県"),
      PickOption("22", "静岡県"),
      PickOption("23", "愛知県") ] +
    [ PickOption("24", "三重県"),
      PickOption("25", "滋賀県"),
      PickOption("26", "京都府"),
      PickOption("27", "大阪府"),
      PickOption("28", "兵庫県"),
      PickOption("29", "奈良県"),
      PickOption("30", "和歌山県"),
      PickOption("31", "鳥取県"),
      PickOption("32", "島根県"),
      PickOption("33", "岡山県"),
      PickOption("34", "広島県"),
      PickOption("35", "山口県") ] +
    [ PickOption("36", "徳島県"),
      PickOption("37", "香川県"),
      PickOption("38", "愛媛県"),
      PickOption("39", "高知県"),
      PickOption("40", "福岡県"),
      PickOption("41", "佐賀県"),
      PickOption("42", "長崎県"),
      PickOption("43", "熊本県"),
      PickOption("44", "大分県"),
      PickOption("45", "宮崎県"),
      PickOption("46", "鹿児島県"),
      PickOption("47", "沖縄県") ]

  lemma PrefectureOptionsBlock0()
    ensures |PrefectureOptions| == 48
    ensures forall i | 1 <= i < 12 :: PrefectureOptions[i].value == NatToString(i)
  {
    assert PrefectureOptions[1].value == NatToString(1);
    assert PrefectureOptions[2].value == NatToString(2);
    assert PrefectureOptions[3].value == NatToString(3);
    assert PrefectureOptions[4].value == NatToString(4);
    assert PrefectureOptions[5].value == NatToString(5);
    assert PrefectureOptions[6].value == NatToString(6);
    assert PrefectureOptions[7].value == NatToString(7);
    assert PrefectureOptions[8].value == NatToString(8);
    assert PrefectureOptions[9].value == NatToString(9);
    assert PrefectureOptions[10].value == NatToString(10);
    assert PrefectureOptions[11].value == NatToString(11);
  }

  lemma PrefectureOptionsBlock1()
    ensures |PrefectureOptions| == 48
    ensures forall i | 12 <= i < 24 :: PrefectureOptions[i].value == NatToString(i)
  {
    assert PrefectureOptions[12].value == NatToString(12);
    assert PrefectureOptions[13].value == NatToString(13);
    assert PrefectureOptions[14].value == NatToString(14);
    assert PrefectureOptions[15].value == NatToString(15);
    assert PrefectureOptions[16].value == NatToString(16);
    assert PrefectureOptions[17].value == NatToString(17);
    assert PrefectureOptions[18].value == NatToString(18);
    assert PrefectureOptions[19].value == NatToString(19);
    assert PrefectureOptions[20].value == NatToString(20);
    assert PrefectureOptions[21].value == NatToString(21);
    assert PrefectureOptions[22].value == NatToString(22);
    assert PrefectureOptions[23].value == NatToString(23);
  }

  lemma PrefectureOptionsBlock2()
    ensures |PrefectureOptions| == 48
    ensures forall i | 24 <= i < 36 :: PrefectureOptions[i].value == NatToString(i)
  {
    assert PrefectureOptions[24].value == NatToString(24);
    assert PrefectureOptions[25].value == NatToString(25);
    assert PrefectureOptions[26].value == NatToString(26);
    assert PrefectureOptions[27].value == NatToString(27);
    assert PrefectureOptions[28].value == NatToString(28);
    assert PrefectureOptions[29].value == NatToString(29);
    assert PrefectureOptions[30].value == NatToString(30);
    assert PrefectureOptions[31].value == NatToString(31);
    assert PrefectureOptions[32].value == NatToString(32);
    assert PrefectureOptions[33].value == NatToString(33);
    assert PrefectureOptions[34].value == NatToString(34);
    assert PrefectureOptions[35].value == NatToString(35);
  }

  lemma PrefectureOptionsBlock3()
    ensures |PrefectureOptions| == 48
    ensures forall i | 36 <= i < 48 :: PrefectureOptions[i].value == NatToString(i)
  {
    assert PrefectureOptions[36].value == NatToString(36);
    assert PrefectureOptions[37].value == NatToString(37);
    assert PrefectureOptions[38].value == NatToString(38);
    assert PrefectureOptions[39].value == NatToString(39);
    assert PrefectureOptions[40].value == NatToString(40);
    assert PrefectureOptions[41].value == NatToString(41);
    assert PrefectureOptions[42].value == NatToString(42);
    assert PrefectureOptions[43].value == NatToString(43);
    assert PrefectureOptions[44].value == NatToString(44);
    assert PrefectureOptions[45].value == NatToString(45);
    assert PrefectureOptions[46].value == NatToString(46);
    assert PrefectureOptions[47].value == NatToString(47);
  }

  /** The placeholder comes first and the prefectures carry the values "1" to "47" in order. */
  lemma PrefectureOptionsValues()
    ensures |PrefectureOptions| == 48
    ensures PrefectureOptions[0] == PickOption("", "選択してください")
    ensures forall i | 1 <= i < 48 :: PrefectureOptions[i].value == NatToString(i)
  {
    PrefectureOptionsBlock0();
    PrefectureOptionsBlock1();
    PrefectureOptionsBlock2();
    PrefectureOptionsBlock3();
  }

  /** Every entry has a non-empty label. */
  lemma PrefectureOptionsLabels()
    ensures forall i | 0 <= i < |PrefectureOptions| :: PrefectureOptions[i].option != ""
  {
    var b0 := PrefectureOptions[..12];
    var b1 := PrefectureOptions[12..24];
    var b2 := PrefectureOptions[24..36];
    var b3 := PrefectureOptions[36..];
    assert forall i | 0 <= i < 12 :: b0[i].option != "";
    assert forall i | 0 <= i < 12 :: b1[i].option != "";
    assert forall i | 0 <= i < 12 :: b2[i].option != "";
    assert forall i | 0 <= i < 12 :: b3[i].option != "";
    forall i | 0 <= i < |PrefectureOptions|
      ensures PrefectureOptions[i].option != ""
    {
      if i < 12 { assert PrefectureOptions[i] == b0[i]; }
      else if i < 24 { assert PrefectureOptions[i] == b1[i - 12]; }
      else if i < 36 { assert PrefectureOptions[i] == b2[i - 24]; }
      else { assert PrefectureOptions[i] == b3[i - 36]; }
    }
  }

  // ------------------------------------------------------------------ months

  /** The month select: `Array.from({ length: 13 }, ...)` with a placeholder at index 0. */
  const MonthOptions: seq<PickOption> :=
    seq(13, i requires 0 <= i < 13 =>
      if i != 0 then PickOption(NatToString(i), NatToString(i)) else PickOption("0", "月"))

  /** Every month entry's value reads back as its own index; only the placeholder has a different label. */
  lemma MonthOptionsValues()
    ensures |MonthOptions| == 13
    ensures MonthOptions[0].option == "月"
    ensures forall i | 0 <= i < 13 :: ToNumber(MonthOptions[i].value) == Int(i)
    ensures forall i | 1 <= i < 13 :: MonthOptions[i].option == MonthOptions[i].value
  {
    forall i | 0 <= i < 13
      ensures ToNumber(MonthOptions[i].value) == Int(i)
    {
      ToNumberOfIntToString(i);
    }
  }

  // ---------------------------------------------------------- search selects

  /** The region select of the job search. */
  const RegionSearchOptions: seq<PickOption> :=
    [ PickOption("35", "北海道"),
      PickOption("36", "東北"),
      PickOption("37", "関東"),
      PickOption("38", "中部"),
      PickOption("39", "近畿"),
      PickOption("40", "中国"),
      PickOption("41", "四国"),
      PickOption("42", "九州・沖縄") ]

  predicate IsRegionValue(v: string)
  {
    exists j | 0 <= j < |RegionSearchOptions| :: RegionSearchOptions[j].value == v
  }

  /** A prefecture of the job search, tagged with the value of its region. */
  datatype PrefectureSearchOption = PrefectureSearchOption(value: string, option: string, region: string)

  const PrefectureSearchOptions: seq<PrefectureSearchOption> :=
    [ PrefectureSearchOption("43", "北海道", "35"),
      PrefectureSearchOption("44", "青森県", "36"),
      PrefectureSearchOption("45", "岩手県", "36"),
      PrefectureSearchOption("46", "宮城県", "36"),
      PrefectureSearchOption("47", "秋田県", "36"),
      PrefectureSearchOption("48", "山形県", "36"),
      PrefectureSearchOption("49", "福島県", "36"),
      PrefectureSearchOption("50", "茨城県", "37"),
      PrefectureSearchOption("51", "栃木県", "37"),
      PrefectureSearchOption("52", "群馬県", "37"),
      PrefectureSearchOption("53", "埼玉県", "37"),
      PrefectureSearchOption("54", "千葉県", "37") ] +
    [ PrefectureSearchOption("55", "東京都", "37"),
      PrefectureSearchOption("56", "神奈川県", "37"),
      PrefectureSearchOption("57", "新潟県", "38"),
      PrefectureSearchOption("58", "富山県", "38"),
      PrefectureSearchOption("59", "石川県", "38"),
      PrefectureSearchOption("60", "福井県", "38"),
      PrefectureSearchOption("61", "山梨県", "38"),
      PrefectureSearchOption("62", "長野県", "38"),
      PrefectureSearchOption("63", "岐阜県", "38"),
      PrefectureSearchOption("64", "静岡県", "38"),
      PrefectureSearchOption("65", "愛知県", "38"),
      PrefectureSearchOption("66", "三重県", "38") ] +
    [ PrefectureSearchOption("67", "滋賀県", "39"),
      PrefectureSearchOption("68", "京都府", "39"),
      PrefectureSearchOption("69", "大阪府", "39"),
      PrefectureSearchOption("70", "兵庫県", "39"),
      PrefectureSearchOption("71", "奈良県", "39"),
      PrefectureSearchOption("72", "和歌山県", "39"),
      PrefectureSearchOption("73", "鳥取県", "40"),
      PrefectureSearchOption("74", "島根県", "40"),
      PrefectureSearchOption("75", "岡山県", "40"),
      PrefectureSearchOption("76", "広島県", "40"),
      PrefectureSearchOption("77", "山口県", "40"),
      PrefectureSearchOption("78", "徳島県", "41") ] +
    [ PrefectureSearchOption("79", "香川県", "41"),
      PrefectureSearchOption("80", "愛媛県", "41"),
      PrefectureSearchOption("81", "高知県", "41"),
      PrefectureSearchOption("82", "福岡県", "42"),
      PrefectureSearchOption("83", "佐賀県", "42"),
      PrefectureSearchOption("84", "長崎県", "42"),
      PrefectureSearchOption("85", "熊本県", "42"),
      PrefectureSearchOption("86", "大分県", "42"),
      PrefectureSearchOption("87", "宮崎県", "42"),
      PrefectureSearchOption("88", "鹿児島県", "42"),
      PrefectureSearchOption("89", "沖縄県", "42") ]

  /** The regions carry the values "35" to "42" in order. */
  lemma RegionSearchOptionsValues()
    ensures |RegionSearchOptions| == 8
    ensures forall j | 0 <= j < 8 :: RegionSearchOptions[j].value == NatToString(35 + j)
  {
    assert RegionSearchOptions[0].value == NatToString(35);
    assert RegionSearchOptions[1].value == NatToString(36);
    assert RegionSearchOptions[2].value == NatToString(37);
    assert RegionSearchOptions[3].value == NatToString(38);
    assert RegionSearchOptions[4].value == NatToString(39);
    assert RegionSearchOptions[5].value == NatToString(40);
    assert RegionSearchOptions[6].value == NatToString(41);
    assert RegionSearchOptions[7].value == NatToString(42);
  }

  lemma PrefectureSearchOptionsBlock0()
    ensures |PrefectureSearchOptions| == 47
    ensures forall i | 0 <= i < 12 :: PrefectureSearchOptions[i].value == NatToString(43 + i)
    ensures forall i | 0 <= i < 12 :: IsRegionValue(PrefectureSearchOptions[i].region)
  {
    assert PrefectureSearchOptions[0].value == NatToString(43);
    assert PrefectureSearchOptions[0].region == RegionSearchOptions[0].value;
    assert PrefectureSearchOptions[1].value == NatToString(44);
    assert PrefectureSearchOptions[1].region == RegionSearchOptions[1].value;
    assert PrefectureSearchOptions[2].value == NatToString(45);
    assert PrefectureSearchOptions[2].region == RegionSearchOptions[1].value;
    assert PrefectureSearchOptions[3].value == NatToString(46);
    assert PrefectureSearchOptions[3].region == RegionSearchOptions[1].value;
    assert PrefectureSearchOptions[4].value == NatToString(47);
    assert PrefectureSearchOptions[4].region == RegionSearchOptions[1].value;
    assert PrefectureSearchOptions[5].value == NatToString(48);
    assert PrefectureSearchOptions[5].region == RegionSearchOptions[1].value;
    assert PrefectureSearchOptions[6].value == NatToString(49);
    assert PrefectureSearchOptions[6].region == RegionSearchOptions[1].value;
    assert PrefectureSearchOptions[7].value == NatToString(50);
    assert PrefectureSearchOptions[7].region == RegionSearchOptions[2].value;
    assert PrefectureSearchOptions[8].value == NatToString(51);
    assert PrefectureSearchOptions[8].region == RegionSearchOptions[2].value;
    assert PrefectureSearchOptions[9].value == NatToString(52);
    assert PrefectureSearchOptions[9].region == RegionSearchOptions[2].value;
    assert PrefectureSearchOptions[10].value == NatToString(53);
    assert PrefectureSearchOptions[10].region == RegionSearchOptions[2].value;
    assert PrefectureSearchOptions[11].value == NatToString(54);
    assert PrefectureSearchOptions[11].region == RegionSearchOptions[2].value;
  }

  lemma PrefectureSearchOptionsBlock1()
    ensures |PrefectureSearchOptions| == 47
    ensures forall i | 12 <= i < 24 :: PrefectureSearchOptions[i].value == NatToString(43 + i)
    ensures forall i | 12 <= i < 24 :: IsRegionValue(PrefectureSearchOptions[i].region)
  {
    assert PrefectureSearchOptions[12].value == NatToString(55);
    assert PrefectureSearchOptions[12].region == RegionSearchOptions[2].value;
    assert PrefectureSearchOptions[13].value == NatToString(56);
    assert PrefectureSearchOptions[13].region == RegionSearchOptions[2].value;
    assert PrefectureSearchOptions[14].value == NatToString(57);
    assert PrefectureSearchOptions[14].region == RegionSearchOptions[3].value;
    assert PrefectureSearchOptions[15].value == NatToString(58);
    assert PrefectureSearchOptions[15].region == RegionSearchOptions[3].value;
    assert PrefectureSearchOptions[16].value == NatToString(59);
    assert PrefectureSearchOptions[16].region == RegionSearchOptions[3].value;
    assert PrefectureSearchOptions[17].value == NatToString(60);
    assert PrefectureSearchOptions[17].region == RegionSearchOptions[3].value;
    assert PrefectureSearchOptions[18].value == NatToString(61);
    assert PrefectureSearchOptions[18].region == RegionSearchOptions[3].value;
    assert PrefectureSearchOptions[19].value == NatToString(62);
    assert PrefectureSearchOptions[19].region == RegionSearchOptions[3].value;
    assert PrefectureSearchOptions[20].value == NatToString(63);
    assert PrefectureSearchOptions[20].region == RegionSearchOptions[3].value;
    assert PrefectureSearchOptions[21].value == NatToString(64);
    assert PrefectureSearchOptions[21].region == RegionSearchOptions[3].value;
    assert PrefectureSearchOptions[22].value == NatToString(65);
    assert PrefectureSearchOptions[22].region == RegionSearchOptions[3].value;
    assert PrefectureSearchOptions[23].value == NatToString(66);
    assert PrefectureSearchOptions[23].region == RegionSearchOptions[3].value;
  }

  lemma PrefectureSearchOptionsBlock2()
    ensures |PrefectureSearchOptions| == 47
    ensures forall i | 24 <= i < 36 :: PrefectureSearchOptions[i].value == NatToString(43 + i)
    ensures forall i | 24 <= i < 36 :: IsRegionValue(PrefectureSearchOptions[i].region)
  {
    assert PrefectureSearchOptions[24].value == NatToString(67);
    assert PrefectureSearchOptions[24].region == RegionSearchOptions[4].value;
    assert PrefectureSearchOptions[25].value == NatToString(68);
    assert PrefectureSearchOptions[25].region == RegionSearchOptions[4].value;
    assert PrefectureSearchOptions[26].value == NatToString(69);
    assert PrefectureSearchOptions[26].region == RegionSearchOptions[4].value;
    assert PrefectureSearchOptions[27].value == NatToString(70);
    assert PrefectureSearchOptions[27].region == RegionSearchOptions[4].value;
    assert PrefectureSearchOptions[28].value == NatToString(71);
    assert PrefectureSearchOptions[28].region == RegionSearchOptions[4].value;
    assert PrefectureSearchOptions[29].value == NatToString(72);
    assert PrefectureSearchOptions[29].region == RegionSearchOptions[4].value;
    assert PrefectureSearchOptions[30].value == NatToString(73);
    assert PrefectureSearchOptions[30].region == RegionSearchOptions[5].value;
    assert PrefectureSearchOptions[31].value == NatToString(74);
    assert PrefectureSearchOptions[31].region == RegionSearchOptions[5].value;
    assert PrefectureSearchOptions[32].value == NatToString(75);
    assert PrefectureSearchOptions[32].region == RegionSearchOptions[5].value;
    assert PrefectureSearchOptions[33].value == NatToString(76);
    assert PrefectureSearchOptions[33].region == RegionSearchOptions[5].value;
    assert PrefectureSearchOptions[34].value == NatToString(77);
    assert PrefectureSearchOptions[34].region == RegionSearchOptions[5].value;
    assert PrefectureSearchOptions[35].value == NatToString(78);
    assert PrefectureSearchOptions[35].region == RegionSearchOptions[6].value;
  }

  lemma PrefectureSearchOptionsBlock3()
    ensures |PrefectureSearchOptions| == 47
    ensures forall i | 36 <= i < 47 :: PrefectureSearchOptions[i].value == NatToString(43 + i)
    ensures forall i | 36 <= i < 47 :: IsRegionValue(PrefectureSearchOptions[i].region)
  {
    assert PrefectureSearchOptions[36].value == NatToString(79);
    assert PrefectureSearchOptions[36].region == RegionSearchOptions[6].value;
    assert PrefectureSearchOptions[37].value == NatToString(80);
    assert PrefectureSearchOptions[37].region == RegionSearchOptions[6].value;
    assert PrefectureSearchOptions[38].value == NatToString(81);
    assert PrefectureSearchOptions[38].region == RegionSearchOptions[6].value;
    assert PrefectureSearchOptions[39].value == NatToString(82);
    assert PrefectureSearchOptions[39].region == RegionSearchOptions[7].value;
    assert PrefectureSearchOptions[40].value == NatToString(83);
    assert PrefectureSearchOptions[40].region == RegionSearchOptions[7].value;
    assert PrefectureSearchOptions[41].value == NatToString(84);
    assert PrefectureSearchOptions[41].region == RegionSearchOptions[7].value;
    assert PrefectureSearchOptions[42].value == NatToString(85);
    assert PrefectureSearchOptions[42].region == RegionSearchOptions[7].value;
    assert PrefectureSearchOptions[43].value == NatToString(86);
    assert PrefectureSearchOptions[43].region == RegionSearchOptions[7].value;
    assert PrefectureSearchOptions[44].value == NatToString(87);
    assert PrefectureSearchOptions[44].region == RegionSearchOptions[7].value;
    assert PrefectureSearchOptions[45].value == NatToString(88);
    assert PrefectureSearchOptions[45].region == RegionSearchOptions[7].value;
    assert PrefectureSearchOptions[46].value == NatToString(89);
    assert PrefectureSearchOptions[46].region == RegionSearchOptions[7].value;
  }

  /** The prefectures carry the values "43" to "89" in order, and each names one of the regions. */
  lemma PrefectureSearchOptionsValues()
    ensures |PrefectureSearchOptions| == 47
    ensures forall i | 0 <= i < 47 :: PrefectureSearchOptions[i].value == NatToString(43 + i)
    ensures forall i | 0 <= i < 47 :: IsRegionValue(PrefectureSearchOptions[i].region)
  {
    PrefectureSearchOptionsBlock0();
    PrefectureSearchOptionsBlock1();
    PrefectureSearchOptionsBlock2();
    PrefectureSearchOptionsBlock3();
  }

  // ----------------------------------------------------------------- map data

  const ChubuCities: seq<City> :=
    [ City(57, "新潟"),
      City(58, "富山"),
      City(59, "石川"),
      City(60, "福井"),
      City(61, "山梨"),
      City(62, "長野"),
      City(63, "岐阜"),
      City(64, "静岡"),
      City(65, "愛知"),
      City(66, "三重") ]

  const ChugokuCities: seq<City> :=
    [ City(73, "鳥取"),
      City(74, "島根"),
      City(75, "岡山"),
      City(76, "広島"),
      City(77, "山口") ]

  const HokkaidouCities: seq<City> :=
    [ City(43, "北海道") ]

  const KantouCities: seq<City> :=
    [ City(50, "茨城"),
      City(51, "栃木"),
      City(52, "群馬"),
      City(53, "埼玉"),
      City(54, "千葉"),
      City(55, "東京"),
      City(56, "神奈川") ]

  const KinkiCities: seq<City> :=
    [ City(67, "滋賀"),
      City(68, "京都"),
      City(69, "大阪"),
      City(70, "兵庫"),
      City(71, "奈良"),
      City(72, "和歌山") ]

  const KyushuCities: seq<City> :=
    [ City(82, "福岡"),
      City(83, "佐賀"),
      City(84, "長崎"),
      City(85, "熊本"),
      City(86, "大分"),
      City(87, "宮崎"),
      City(88, "鹿児島"),
      City(89, "沖縄") ]

  const ShikokuCities: seq<City> :=
    [ City(78, "徳島"),
      City(79, "香川"),
      City(80, "愛媛"),
      City(81, "高知") ]

  const TouhokuCities: seq<City> :=
    [ City(44, "青森"),
      City(45, "岩手"),
      City(46, "宮城"),
      City(47, "秋田"),
      City(48, "山形"),
      City(49, "福島") ]

  /** The regions of the map search, in the order the filter form scans them. */
  const MapData: seq<MapInfo> :=
    [ MapInfo("chubu", "中部", ChubuCities),
      MapInfo("chugoku", "中国", ChugokuCities),
      MapInfo("hokkaidou", "北海道", HokkaidouCities),
      MapInfo("kantou", "関東", KantouCities),
      MapInfo("kinki", "近畿", KinkiCities),
      MapInfo("kyushu", "九州・沖縄", KyushuCities),
      MapInfo("shikoku", "四国", ShikokuCities),
      MapInfo("touhoku", "東北", TouhokuCities) ]

  /** The cities of all regions, region after region. */
  function AllCities(areas: seq<MapInfo>): (r: seq<City>)
    ensures |areas| == 0 ==> r == []
    decreases |areas|
  {
    if areas == [] then [] else areas[0].cities + AllCities(areas[1..])
  }

  /** Two characters are enough to tell the map-search city names apart. */
  function NameKey(name: string): int
  {
    if |name| < 2 then -1 else name[0] as int * 0x11_0000 + name[1] as int
  }

  /** The id of the map-search city with this name, found through its first two characters. */
  function CityIdOfName(name: string): int
  {
    var k := NameKey(name);
    if k < 0 then 0
    else if k == NameKey("新潟") then 57
    else if k == NameKey("富山") then 58
    else if k == NameKey("石川") then 59
    else if k == NameKey("福井") then 60
    else if k == NameKey("山梨") then 61
    else if k == NameKey("長野") then 62
    else if k == NameKey("岐阜") then 63
    else if k == NameKey("静岡") then 64
    else if k == NameKey("愛知") then 65
    else if k == NameKey("三重") then 66
    else if k == NameKey("鳥取") then 73
    else if k == NameKey("島根") then 74
    else if k == NameKey("岡山") then 75
    else if k == NameKey("広島") then 76
    else if k == NameKey("山口") then 77
    else if k == NameKey("北海道") then 43
    else if k == NameKey("茨城") then 50
    else if k == NameKey("栃木") then 51
    else if k == NameKey("群馬") then 52
    else if k == NameKey("埼玉") then 53
    else if k == NameKey("千葉") then 54
    else if k == NameKey("東京") then 55
    else if k == NameKey("神奈川") then 56
    else if k == NameKey("滋賀") then 67
    else if k == NameKey("京都") then 68
    else if k == NameKey("大阪") then 69
    else if k == NameKey("兵庫") then 70
    else if k == NameKey("奈良") then 71
    else if k == NameKey("和歌山") then 72
    else if k == NameKey("福岡") then 82
    else if k == NameKey("佐賀") then 83
    else if k == NameKey("長崎") then 84
    else if k == NameKey("熊本") then 85
    else if k == NameKey("大分") then 86
    else if k == NameKey("宮崎") then 87
    else if k == NameKey("鹿児島") then 88
    else if k == NameKey("沖縄") then 89
    else if k == NameKey("徳島") then 78
    else if k == NameKey("香川") then 79
    else if k == NameKey("愛媛") then 80
    else if k == NameKey("高知") then 81
    else if k == NameKey("青森") then 44
    else if k == NameKey("岩手") then 45
    else if k == NameKey("宮城") then 46
    else if k == NameKey("秋田") then 47
    else if k == NameKey("山形") then 48
    else if k == NameKey("福島") then 49
    else 0
  }

  lemma MapDataCities()
    ensures AllCities(MapData) ==
      ChubuCities + ChugokuCities + HokkaidouCities + KantouCities + KinkiCities + KyushuCities + ShikokuCities + TouhokuCities
  {
    assert AllCities(MapData[8..]) == [];
    assert AllCities(MapData[7..]) == MapData[7].cities + AllCities(MapData[8..]);
    assert AllCities(MapData[6..]) == MapData[6].cities + AllCities(MapData[7..]);
    assert AllCities(MapData[5..]) == MapData[5].cities + AllCities(MapData[6..]);
    assert AllCities(MapData[4..]) == MapData[4].cities + AllCities(MapData[5..]);
    assert AllCities(MapData[3..]) == MapData[3].cities + AllCities(MapData[4..]);
    assert AllCities(MapData[2..]) == MapData[2].cities + AllCities(MapData[3..]);
    assert AllCities(MapData[1..]) == MapData[1].cities + AllCities(MapData[2..]);
    assert AllCities(MapData[0..]) == MapData[0].cities + AllCities(MapData[1..]);
  }

  lemma ChubuCitiesIds()
    ensures forall k | 0 <= k < |ChubuCities| :: ChubuCities[k].id == 57 + k && CityIdOfName(ChubuCities[k].text) == ChubuCities[k].id
  {
  }

  lemma ChugokuCitiesIds()
    ensures forall k | 0 <= k < |ChugokuCities| :: ChugokuCities[k].id == 73 + k && CityIdOfName(ChugokuCities[k].text) == ChugokuCities[k].id
  {
  }

  lemma HokkaidouCitiesIds()
    ensures forall k | 0 <= k < |HokkaidouCities| :: HokkaidouCities[k].id == 43 + k && CityIdOfName(HokkaidouCities[k].text) == HokkaidouCities[k].id
  {
  }

  lemma KantouCitiesIds()
    ensures forall k | 0 <= k < |KantouCities| :: KantouCities[k].id == 50 + k && CityIdOfName(KantouCities[k].text) == KantouCities[k].id
  {
  }

  lemma KinkiCitiesIds()
    ensures forall k | 0 <= k < |KinkiCities| :: KinkiCities[k].id == 67 + k && CityIdOfName(KinkiCities[k].text) == KinkiCities[k].id
  {
  }

  lemma KyushuCitiesIds()
    ensures forall k | 0 <= k < |KyushuCities| :: KyushuCities[k].id == 82 + k && CityIdOfName(KyushuCities[k].text) == KyushuCities[k].id
  {
  }

  lemma ShikokuCitiesIds()
    ensures forall k | 0 <= k < |ShikokuCities| :: ShikokuCities[k].id == 78 + k && CityIdOfName(ShikokuCities[k].text) == ShikokuCities[k].id
  {
  }

  lemma TouhokuCitiesIds()
    ensures forall k | 0 <= k < |TouhokuCities| :: TouhokuCities[k].id == 44 + k && CityIdOfName(TouhokuCities[k].text) == TouhokuCities[k].id
  {
  }

  /** Each region's cities carry consecutive ids. */
  lemma MapDataIdsConsecutive()
    ensures forall a, k | a in MapData && 0 <= k < |a.cities| :: a.cities[k].id == a.cities[0].id + k
  {
    ChubuCitiesIds();
    ChugokuCitiesIds();
    HokkaidouCitiesIds();
    KantouCitiesIds();
    KinkiCitiesIds();
    KyushuCitiesIds();
    ShikokuCitiesIds();
    TouhokuCitiesIds();
  }

  /** Where the city with a given id sits in `AllCities(MapData)`: the regions cover disjoint id ranges. */
  function CityPosition(id: int): int
  {
    if 57 <= id <= 66 then id - 57 + 0
    else if 73 <= id <= 77 then id - 73 + 10
    else if 43 <= id <= 43 then id - 43 + 15
    else if 50 <= id <= 56 then id - 50 + 16
    else if 67 <= id <= 72 then id - 67 + 23
    else if 82 <= id <= 89 then id - 82 + 29
    else if 78 <= id <= 81 then id - 78 + 37
    else if 44 <= id <= 49 then id - 44 + 41
    else -1
  }

  /** The map-search city ids are pairwise distinct and are exactly 43 to 89. */
  lemma MapDataCityIds()
    ensures |AllCities(MapData)| == 47
    ensures forall i | 0 <= i < 47 :: 43 <= AllCities(MapData)[i].id <= 89
    ensures forall i | 0 <= i < 47 :: CityPosition(AllCities(MapData)[i].id) == i
    ensures forall id | 43 <= id <= 89 ::
      0 <= CityPosition(id) < 47 && AllCities(MapData)[CityPosition(id)].id == id
  {
    MapDataCities();
    ChubuCitiesIds();
    ChugokuCitiesIds();
    HokkaidouCitiesIds();
    KantouCitiesIds();
    KinkiCitiesIds();
    KyushuCitiesIds();
    ShikokuCitiesIds();
    TouhokuCitiesIds();
    var all := AllCities(MapData);
    forall i | 0 <= i < 47
      ensures 43 <= all[i].id <= 89 && CityPosition(all[i].id) == i
    {
      if i < 10 {
        assert all[i] == ChubuCities[i - 0];
      }
      else if i < 15 {
        assert all[i] == ChugokuCities[i - 10];
      }
      else if i < 16 {
        assert all[i] == HokkaidouCities[i - 15];
      }
      else if i < 23 {
        assert all[i] == KantouCities[i - 16];
      }
      else if i < 29 {
        assert all[i] == KinkiCities[i - 23];
      }
      else if i < 37 {
        assert all[i] == KyushuCities[i - 29];
      }
      else if i < 41 {
        assert all[i] == ShikokuCities[i - 37];
      }
      else if i < 47 {
        assert all[i] == TouhokuCities[i - 41];
      }
    }
  }

  /** Distinct positions in the city list carry distinct ids. */
  lemma MapDataCityIdsDistinct()
    ensures forall i, j | 0 <= i < |AllCities(MapData)| && 0 <= j < |AllCities(MapData)|
      && AllCities(MapData)[i].id == AllCities(MapData)[j].id :: i == j
  {
    MapDataCityIds();
  }

  /** No two map-search cities share a name, so looking a city up by name is unambiguous. */
  lemma MapDataCityNamesDistinct()
    ensures forall i, j | 0 <= i < |AllCities(MapData)| && 0 <= j < |AllCities(MapData)|
      && AllCities(MapData)[i].text == AllCities(MapData)[j].text :: i == j
  {
    MapDataCityIds();
    MapDataCities();
    var all := AllCities(MapData);
    forall i | 0 <= i < 47
      ensures CityIdOfName(all[i].text) == all[i].id
    {
      if i < 10 {
        ChubuCitiesIds();
        assert all[i] == ChubuCities[i - 0];
      }
      else if i < 15 {
        ChugokuCitiesIds();
        assert all[i] == ChugokuCities[i - 10];
      }
      else if i < 16 {
        HokkaidouCitiesIds();
        assert all[i] == HokkaidouCities[i - 15];
      }
      else if i < 23 {
        KantouCitiesIds();
        assert all[i] == KantouCities[i - 16];
      }
      else if i < 29 {
        KinkiCitiesIds();
        assert all[i] == KinkiCities[i - 23];
      }
      else if i < 37 {
        KyushuCitiesIds();
        assert all[i] == KyushuCities[i - 29];
      }
      else if i < 41 {
        ShikokuCitiesIds();
        assert all[i] == ShikokuCities[i - 37];
      }
      else if i < 47 {
        TouhokuCitiesIds();
        assert all[i] == TouhokuCities[i - 41];
      }
    }
  }

  /** A name that can travel in a comma-joined URL parameter: non-empty and free of commas. */
  predicate PlainName(name: string)
  {
    name != "" && ',' !in name
  }

  lemma ChubuCitiesPlain()
    ensures forall k | 0 <= k < |ChubuCities| :: PlainName(ChubuCities[k].text)
  {
    assert PlainName(ChubuCities[0].text);
    assert PlainName(ChubuCities[1].text);
    assert PlainName(ChubuCities[2].text);
    assert PlainName(ChubuCities[3].text);
    assert PlainName(ChubuCities[4].text);
    assert PlainName(ChubuCities[5].text);
    assert PlainName(ChubuCities[6].text);
    assert PlainName(ChubuCities[7].text);
    assert PlainName(ChubuCities[8].text);
    assert PlainName(ChubuCities[9].text);
  }

  lemma ChugokuCitiesPlain()
    ensures forall k | 0 <= k < |ChugokuCities| :: PlainName(ChugokuCities[k].text)
  {
    assert PlainName(ChugokuCities[0].text);
    assert PlainName(ChugokuCities[1].text);
    assert PlainName(ChugokuCities[2].text);
    assert PlainName(ChugokuCities[3].text);
    assert PlainName(ChugokuCities[4].text);
  }

  lemma HokkaidouCitiesPlain()
    ensures forall k | 0 <= k < |HokkaidouCities| :: PlainName(HokkaidouCities[k].text)
  {
    assert PlainName(HokkaidouCities[0].text);
  }

  lemma KantouCitiesPlain()
    ensures forall k | 0 <= k < |KantouCities| :: PlainName(KantouCities[k].text)
  {
    assert PlainName(KantouCities[0].text);
    assert PlainName(KantouCities[1].text);
    assert PlainName(KantouCities[2].text);
    assert PlainName(KantouCities[3].text);
    assert PlainName(KantouCities[4].text);
    assert PlainName(KantouCities[5].text);
    assert PlainName(KantouCities[6].text);
  }

  lemma KinkiCitiesPlain()
    ensures forall k | 0 <= k < |KinkiCities| :: PlainName(KinkiCities[k].text)
  {
    assert PlainName(KinkiCities[0].text);
    assert PlainName(KinkiCities[1].text);
    assert PlainName(KinkiCities[2].text);
    assert PlainName(KinkiCities[3].text);
    assert PlainName(KinkiCities[4].text);
    assert PlainName(KinkiCities[5].text);
  }

  lemma KyushuCitiesPlain()
    ensures forall k | 0 <= k < |KyushuCities| :: PlainName(KyushuCities[k].text)
  {
    assert PlainName(KyushuCities[0].text);
    assert PlainName(KyushuCities[1].text);
    assert PlainName(KyushuCities[2].text);
    assert PlainName(KyushuCities[3].text);
    assert PlainName(KyushuCities[4].text);
    assert PlainName(KyushuCities[5].text);
    assert PlainName(KyushuCities[6].text);
    assert PlainName(KyushuCities[7].text);
  }

  lemma ShikokuCitiesPlain()
    ensures forall k | 0 <= k < |ShikokuCities| :: PlainName(ShikokuCities[k].text)
  {
    assert PlainName(ShikokuCities[0].text);
    assert PlainName(ShikokuCities[1].text);
    assert PlainName(ShikokuCities[2].text);
    assert PlainName(ShikokuCities[3].text);
  }

  lemma TouhokuCitiesPlain()
    ensures forall k | 0 <= k < |TouhokuCities| :: PlainName(TouhokuCities[k].text)
  {
    assert PlainName(TouhokuCities[0].text);
    assert PlainName(TouhokuCities[1].text);
    assert PlainName(TouhokuCities[2].text);
    assert PlainName(TouhokuCities[3].text);
    assert PlainName(TouhokuCities[4].text);
    assert PlainName(TouhokuCities[5].text);
  }

  /** Every map-search city name is non-empty and has no comma. */
  lemma MapDataCityNamesPlain()
    ensures forall i | 0 <= i < |AllCities(MapData)| :: PlainName(AllCities(MapData)[i].text)
  {
    MapDataCities();
    var all := AllCities(MapData);
    ChubuCitiesPlain();
    ChugokuCitiesPlain();
    HokkaidouCitiesPlain();
    KantouCitiesPlain();
    KinkiCitiesPlain();
    KyushuCitiesPlain();
    ShikokuCitiesPlain();
    TouhokuCitiesPlain();
    forall i | 0 <= i < |all|
      ensures PlainName(all[i].text)
    {
      if i < 10 {
        assert all[i] == ChubuCities[i - 0];
      }
      else if i < 15 {
        assert all[i] == ChugokuCities[i - 10];
      }
      else if i < 16 {
        assert all[i] == HokkaidouCities[i - 15];
      }
      else if i < 23 {
        assert all[i] == KantouCities[i - 16];
      }
      else if i < 29 {
        assert all[i] == KinkiCities[i - 23];
      }
      else if i < 37 {
        assert all[i] == KyushuCities[i - 29];
      }
      else if i < 41 {
        assert all[i] == ShikokuCities[i - 37];
      }
      else if i < 47 {
        assert all[i] == TouhokuCities[i - 41];
      }
    }
  }

  // ------------------------------------------------------ filters and status

  /** A category of the job filter: its form key, icon and heading; the static item lists are not modelled. */
  datatype FilterGroup = FilterGroup(key: string, icon: string, title: string)

  const JobFilterOptions: seq<FilterGroup> :=
    [ FilterGroup("jobTypes", "/svgs/person.svg", "職種から探す"),
      FilterGroup("items", "/svgs/shopping.svg", "アイテム"),
      FilterGroup("conditions", "/svgs/bag.svg", "勤務条件"),
      FilterGroup("employmentTypes", "/svgs/user-pin.svg", "雇用形態") ]

  /** The job publication states, indexed by `public_status - 1`. */
  const JobStatusOptions: seq<PickOption> :=
    [ PickOption("1", "公開"),
      PickOption("2", "非公開（下書き）") ]
}
