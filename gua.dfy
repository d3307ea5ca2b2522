/** The name table of src/lib.rs (`get_gua_name`): 6-bit figure codes to the
    64 hexagram names, and what the names say about the figure they belong to.
    Each name is built from the images of its two trigrams (three-line halves):
    "X为Y" for a doubled trigram, otherwise the upper image, then the lower
    image, then the title. */
module Gua {
  import opened Bits

  /** The fallback name for a code outside the table. */
  const Unknown: string := "未知"

  /** `get_gua_name`, arm for arm in the order of the source. */
  function GuaName(binary: u8): string
  {
    match binary
    case 63 => "乾为天"
    case 0 => "坤为地"
    case 34 => "水雷屯"
    case 17 => "山水蒙"
    case 58 => "水天需"
    case 23 => "天水讼"
    case 16 => "地水师"
    case 2 => "水地比"
    case 59 => "风天小畜"
    case 55 => "天泽履"
    case 56 => "地天泰"
    case 7 => "天地否"
    case 47 => "天火同人"
    case 61 => "火天大有"
    case 8 => "地山谦"
    case 4 => "雷地豫"
    case 38 => "泽雷随"
    case 25 => "山风蛊"
    case 48 => "地泽临"
    case 3 => "风地观"
    case 37 => "火雷噬嗑"
    case 41 => "山火贲"
    case 1 => "山地剥"
    case 32 => "地雷复"
    case 39 => "天雷无妄"
    case 57 => "山天大畜"
    case 33 => "山雷颐"
    case 30 => "泽风大过"
    case 18 => "坎为水"
    case 45 => "离为火"
    case 14 => "泽山咸"
    case 28 => "雷风恒"
    case 15 => "天山遁"
    case 60 => "雷天大壮"
    case 5 => "火地晋"
    case 40 => "地火明夷"
    case 43 => "风火家人"
    case 53 => "火泽睽"
    case 10 => "水山蹇"
    case 20 => "雷水解"
    case 49 => "山泽损"
    case 35 => "风雷益"
    case 62 => "泽天夬"
    case 31 => "天风姤"
    case 6 => "泽地萃"
    case 24 => "地风升"
    case 22 => "泽水困"
    case 26 => "水风井"
    case 29 => "泽火革"
    case 46 => "火风鼎"
    case 36 => "震为雷"
    case 9 => "艮为山"
    case 11 => "风山渐"
    case 52 => "雷泽归妹"
    case 44 => "雷火丰"
    case 13 => "火山旅"
    case 27 => "巽为风"
    case 54 => "兑为泽"
    case 19 => "风水涣"
    case 50 => "水泽节"
    case 51 => "风泽中孚"
    case 12 => "雷山小过"
    case 42 => "水火既济"
    case 21 => "火水未济"
    case _ => Unknown
  }

  /** The image of a trigram, from the yang-ness (1) of its lines, bottom first:
      three yang lines are heaven and three yin lines earth; thunder, water and
      mountain have their one yang line at the bottom, middle and top; wind,
      fire and lake have their one yin line there. */
  function TrigramImage(bottom: Bit, middle: Bit, top: Bit): char
  {
    var yang := bottom + middle + top;
    if yang == 3 then '天'
    else if yang == 0 then '地'
    else if yang == 1 then (if bottom == 1 then '雷' else if middle == 1 then '水' else '山')
    else (if bottom == 0 then '风' else if middle == 0 then '火' else '泽')
  }

  /** Eight line patterns, eight images: the image names the trigram. */
  lemma TrigramImageInjective(b: Bit, m: Bit, t: Bit, b': Bit, m': Bit, t': Bit)
    requires TrigramImage(b, m, t) == TrigramImage(b', m', t')
    ensures b == b' && m == m' && t == t'
  {
  }

  /** The image of the upper trigram that a name announces. */
  function UpperImage(name: string): char
    requires |name| >= 3
  {
    if name[1] == '为' then name[2] else name[0]
  }

  /** The image of the lower trigram that a name announces. */
  function LowerImage(name: string): char
    requires |name| >= 3
  {
    if name[1] == '为' then name[2] else name[1]
  }

  /** The table's convention: bits 5, 4, 3 of a code are the lower trigram's
      lines and bits 2, 1, 0 the upper trigram's, the bottom line of the
      figure being bit 5. */
  predicate NamesFigure(code: u8, name: string)
  {
    |name| >= 3 &&
    LowerImage(name) == TrigramImage(code / 32 % 2, code / 16 % 2, code / 8 % 2) &&
    UpperImage(name) == TrigramImage(code / 4 % 2, code / 2 % 2, code % 2)
  }

  /** Only codes of six bits have a name; every one of them has one. */
  lemma GuaNameKnown(binary: u8)
    ensures GuaName(binary) != Unknown <==> binary < 64
  {
  }

  /** All entries but two follow the bottom-line-at-bit-5 convention. */
  lemma TableFollowsTrigrams(binary: u8)
    requires binary < 64 && binary != 29 && binary != 46
    ensures NamesFigure(binary, GuaName(binary))
  {
  }

  /** The two exceptions: 泽火革 and 火风鼎 stand at each other's code, so the
      lines of either figure are given the other's name. */
  lemma SwappedEntries()
    ensures !NamesFigure(29, GuaName(29)) && !NamesFigure(46, GuaName(46))
    ensures NamesFigure(29, GuaName(46)) && NamesFigure(46, GuaName(29))
  {
    assert GuaName(29) == "泽火革" && GuaName(46) == "火风鼎";
  }

  /** The table with 泽火革 at 46 and 火风鼎 at 29, as its other 62 entries place them. */
  function IntendedGuaName(binary: u8): string
  {
    if binary == 29 then GuaName(46)
    else if binary == 46 then GuaName(29)
    else GuaName(binary)
  }

  /** Every 6-bit code is named after its own two trigrams, and only those codes are named. */
  lemma IntendedTableFollowsTrigrams(binary: u8)
    ensures binary < 64 ==> NamesFigure(binary, IntendedGuaName(binary))
    ensures IntendedGuaName(binary) != Unknown <==> binary < 64
  {
    GuaNameKnown(binary);
    if binary == 29 || binary == 46 {
      SwappedEntries();
    } else if binary < 64 {
      TableFollowsTrigrams(binary);
    }
  }

  /** Distinct figures get distinct names in the intended table. */
  lemma IntendedNamesDistinct(a: u8, b: u8)
    requires a < 64 && b < 64 && a != b
    ensures IntendedGuaName(a) != IntendedGuaName(b)
  {
    IntendedTableFollowsTrigrams(a);
    IntendedTableFollowsTrigrams(b);
    if IntendedGuaName(a) == IntendedGuaName(b) {
      var name := IntendedGuaName(a);
      TrigramImageInjective(a / 32 % 2, a / 16 % 2, a / 8 % 2, b / 32 % 2, b / 16 % 2, b / 8 % 2);
      TrigramImageInjective(a / 4 % 2, a / 2 % 2, a % 2, b / 4 % 2, b / 2 % 2, b % 2);
      SixBits(a);
      SixBits(b);
      assert false;
    }
  }

  /** The 64 names of the table, as written, are pairwise distinct. */
  lemma GuaNamesDistinct(a: u8, b: u8)
    requires a < 64 && b < 64 && a != b
    ensures GuaName(a) != GuaName(b)
  {
    var a' := if a == 29 then 46 else if a == 46 then 29 else a;
    var b' := if b == 29 then 46 else if b == 46 then 29 else b;
    assert GuaName(a) == IntendedGuaName(a') && GuaName(b) == IntendedGuaName(b');
    IntendedNamesDistinct(a', b');
  }
}
