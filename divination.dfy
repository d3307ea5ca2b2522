/** The divination body of src/lib.rs
    (`Java_com_example_rustiching_MainActivity_getDivination`) after the seed
    is known: six lines are cast from the random stream, rendered top line
    first under a seed header, packed into the original (本卦) and changed
    (变卦) 6-bit figures, and the two figures are named from the table.
    The seed is an input (its hashing is not modelled) and the random stream
    is the sequence of 0/1 values that `gen_range(0..=1)` returns. */
module Divination {
  import opened Bits
  import opened Yao
  import opened Text
  import opened Gua

  /** Rust's `u64`, the type of the seed. */
  type u64 = x: int | 0 <= x < 0x1_0000_0000_0000_0000

  // ---------------------------------------------------------------------------
  // Casting the lines

  /** Line i is generated from draws 3i, 3i + 1 and 3i + 2; line 0 (初) comes first. */
  function CastLines(draws: seq<Bit>): (lines: seq<YaoType>)
    requires |draws| >= 18
    ensures |lines| == 6
    ensures forall i :: 0 <= i < 6 ==>
      Value(lines[i]) == 6 + draws[3 * i] as int + draws[3 * i + 1] as int + draws[3 * i + 2] as int
  {
    seq(6, i requires 0 <= i < 6 => Generate(draws[3 * i], draws[3 * i + 1], draws[3 * i + 2]))
  }

  /** The loop of lib.rs:78-81. The random generator is the stream `draws`;
      `rest` is what is left of it afterwards. */
  method DrawLines(draws: seq<Bit>) returns (lines: seq<YaoType>, rest: seq<Bit>)
    requires |draws| >= 18
    ensures lines == CastLines(draws)
    ensures rest == draws[18..]
  {
    lines := [];
    rest := draws;
    for n := 0 to 6
      invariant |lines| == n && rest == draws[3 * n..]
      invariant forall i :: 0 <= i < n ==> lines[i] == CastLines(draws)[i]
    {
      var yao := Generate(rest[0], rest[1], rest[2]);
      lines := lines + [yao];
      rest := rest[3..];
    }
  }

  // ---------------------------------------------------------------------------
  // The two figures

  /** The original bit of every line, bottom line first. */
  function OriginalBits(lines: seq<YaoType>): (bits: seq<Bit>)
  {
    seq(|lines|, i requires 0 <= i < |lines| => OriginalBit(lines[i]))
  }

  /** The changed bit of every line, bottom line first. */
  function ChangedBits(lines: seq<YaoType>): (bits: seq<Bit>)
  {
    seq(|lines|, i requires 0 <= i < |lines| => ChangedBit(lines[i]))
  }

  /** `orig_bits`: line i at bit i. */
  function OrigBits(lines: seq<YaoType>): nat
  {
    Pack(OriginalBits(lines))
  }

  /** `chg_bits`: line i at bit i. */
  function ChgBits(lines: seq<YaoType>): nat
  {
    Pack(ChangedBits(lines))
  }

  /** The loop of lib.rs:102-107: `orig_bits |= 1 << i` for a line whose
      original bit is 1, and likewise for `chg_bits`. `1 << i` on a `u8` is
      defined for i < 8. */
  method PackFigures(lines: seq<YaoType>) returns (origBits: bv8, chgBits: bv8)
    requires |lines| <= 8
    ensures origBits as int == OrigBits(lines)
    ensures chgBits as int == ChgBits(lines)
  {
    ghost var obits, cbits := OriginalBits(lines), ChangedBits(lines);
    assert |obits| == |cbits| == |lines|;
    origBits, chgBits := 0, 0;
    for i := 0 to |lines|
      invariant origBits as int == Pack(obits[..i])
      invariant chgBits as int == Pack(cbits[..i])
    {
      var yao := lines[i];
      SetBitStep(origBits, obits, i);
      SetBitStep(chgBits, cbits, i);
      if OriginalBit(yao) == 1 {
        origBits := origBits | (1 << i);
      }
      if ChangedBit(yao) == 1 {
        chgBits := chgBits | (1 << i);
      }
    }
    assert obits[..|lines|] == obits && cbits[..|lines|] == cbits;
  }

  /** One more bit of the prefix adds bit i at weight 2^i, above the prefix's value. */
  lemma PackStep(bits: seq<Bit>, i: nat)
    requires i < |bits|
    ensures Pack(bits[..i + 1]) == Pack(bits[..i]) + if bits[i] == 1 then Pow2(i) else 0
    ensures Pack(bits[..i]) < Pow2(i)
  {
    assert bits[..i + 1] == bits[..i] + [bits[i]];
    PackSnoc(bits[..i], bits[i]);
  }

  /** One round of the loop: a `u8` holding the first i bits, with bit i set
      when it is 1, holds the first i + 1 bits. */
  lemma SetBitStep(x: bv8, bits: seq<Bit>, i: nat)
    requires i < |bits| <= 8 && x as int == Pack(bits[..i])
    ensures (if bits[i] == 1 then x | (1 << i) else x) as int == Pack(bits[..i + 1])
  {
    PackStep(bits, i);
    if bits[i] == 1 {
      SetBitAdds(x, i);
    }
  }

  /** Bit i of each figure is the corresponding bit of line i. */
  lemma FigureBits(lines: seq<YaoType>, i: nat)
    requires i < |lines|
    ensures BitAt(OrigBits(lines), i) == OriginalBit(lines[i])
    ensures BitAt(ChgBits(lines), i) == ChangedBit(lines[i])
  {
    PackBitAt(OriginalBits(lines), i);
    PackBitAt(ChangedBits(lines), i);
  }

  /** Six lines give two 6-bit figures, so both are keys of the name table. */
  lemma FiguresAreSixBit(lines: seq<YaoType>)
    requires |lines| == 6
    ensures OrigBits(lines) < 64 && ChgBits(lines) < 64
  {
    assert Pow2(6) == 64;
  }

  /** The figures differ at bit i (their XOR has bit i set) exactly when line i is a changing line. */
  lemma ChangingLinesDiffer(lines: seq<YaoType>, i: nat)
    requires i < |lines|
    ensures BitAt(OrigBits(lines), i) != BitAt(ChgBits(lines), i) <==> IsChanging(lines[i])
  {
    FigureBits(lines, i);
  }

  /** 本卦 and 变卦 are the same figure exactly when no line is changing. */
  lemma SameFigureIffNoChangingLine(lines: seq<YaoType>)
    ensures OrigBits(lines) == ChgBits(lines) <==>
      forall i :: 0 <= i < |lines| ==> !IsChanging(lines[i])
  {
    if OrigBits(lines) == ChgBits(lines) {
      PackInjective(OriginalBits(lines), ChangedBits(lines));
      forall i | 0 <= i < |lines|
        ensures !IsChanging(lines[i])
      {
        assert OriginalBits(lines)[i] == ChangedBits(lines)[i];
      }
    }
    if forall i :: 0 <= i < |lines| ==> !IsChanging(lines[i]) {
      assert OriginalBits(lines) == ChangedBits(lines);
    }
  }

  /** Six old yang lines: 乾为天 changing into 坤为地. */
  lemma AllOldYang(lines: seq<YaoType>)
    requires |lines| == 6 && forall i :: 0 <= i < 6 ==> lines[i] == OldYang
    ensures OrigBits(lines) == 63 && ChgBits(lines) == 0
    ensures GuaName(OrigBits(lines)) == "乾为天" && GuaName(ChgBits(lines)) == "坤为地"
  {
    PackConstant(OriginalBits(lines), 1);
    PackConstant(ChangedBits(lines), 0);
    assert Pow2(6) == 64;
  }

  /** Six old yin lines: 坤为地 changing into 乾为天. */
  lemma AllOldYin(lines: seq<YaoType>)
    requires |lines| == 6 && forall i :: 0 <= i < 6 ==> lines[i] == OldYin
    ensures OrigBits(lines) == 0 && ChgBits(lines) == 63
    ensures GuaName(OrigBits(lines)) == "坤为地" && GuaName(ChgBits(lines)) == "乾为天"
  {
    PackConstant(OriginalBits(lines), 0);
    PackConstant(ChangedBits(lines), 1);
    assert Pow2(6) == 64;
  }

  // ---------------------------------------------------------------------------
  // Rendering

  /** The row label: 上 for line 5, 初 for line 0, two spaces in between. */
  function Label(i: int): string
  {
    if i == 5 then "上" else if i == 0 then "初" else "  "
  }

  /** The drawing of a line: a solid stroke for yang, a broken one for yin,
      then a space and the change marker (X for 6, O for 9, blank otherwise). */
  function Glyph(y: YaoType): (g: string)
    ensures |g| == 8 && g[6] == ' '
    ensures g[..6] == if IsYang(y) then "——————" else "——  ——"
    ensures IsChanging(y) <==> g[7] != ' '
    ensures y == OldYin ==> g[7] == 'X'
    ensures y == OldYang ==> g[7] == 'O'
  {
    match y
    case OldYin => "——  —— X"
    case YoungYang => "——————  "
    case YoungYin => "——  ——  "
    case OldYang => "—————— O"
  }

  /** `"{}爻({}): {}\n"` for line i. */
  function Row(i: int, y: YaoType): string
  {
    Label(i) + "爻(" + Decimal(Value(y)) + "): " + Glyph(y) + "\n"
  }

  /** A row is one line of text: it ends in its only line break. */
  lemma RowIsOneLine(i: int, y: YaoType)
    ensures Row(i, y)[|Row(i, y)| - 1] == '\n'
    ensures Newlines(Row(i, y)) == 1
  {
    var head := Label(i) + "爻(" + Decimal(Value(y)) + "): " + Glyph(y);
    assert Row(i, y) == head + "\n";
    NoNewlines(Label(i));
    NoNewlines("爻(");
    NoNewlines(Decimal(Value(y)));
    NoNewlines("): ");
    NoNewlines(Glyph(y));
    NewlinesAppend(Label(i), "爻(");
    NewlinesAppend(Label(i) + "爻(", Decimal(Value(y)));
    NewlinesAppend(Label(i) + "爻(" + Decimal(Value(y)), "): ");
    NewlinesAppend(Label(i) + "爻(" + Decimal(Value(y)) + "): ", Glyph(y));
    NewlinesAppend(head, "\n");
  }

  /** The rows of lines |lines| - 1 down to i, the top line first. */
  function RowsFrom(lines: seq<YaoType>, i: nat): string
    requires i <= |lines|
    decreases |lines| - i
  {
    if i == |lines| then "" else RowsFrom(lines, i + 1) + Row(i, lines[i])
  }

  /** The rows of lines i.. are |lines| - i lines of text. */
  lemma {:induction false} RowsAreLines(lines: seq<YaoType>, i: nat)
    requires i <= |lines|
    ensures Newlines(RowsFrom(lines, i)) == |lines| - i
    decreases |lines| - i
  {
    if i < |lines| {
      RowsAreLines(lines, i + 1);
      RowIsOneLine(i, lines[i]);
      NewlinesAppend(RowsFrom(lines, i + 1), Row(i, lines[i]));
    }
  }

  /** Six rows, from line 5 (上) down to line 0 (初). */
  lemma RowsTopDown(lines: seq<YaoType>)
    requires |lines| == 6
    ensures RowsFrom(lines, 0) ==
      Row(5, lines[5]) + Row(4, lines[4]) + Row(3, lines[3]) +
      Row(2, lines[2]) + Row(1, lines[1]) + Row(0, lines[0])
  {
    assert RowsFrom(lines, 6) == "";
    assert RowsFrom(lines, 5) == Row(5, lines[5]);
    assert RowsFrom(lines, 4) == Row(5, lines[5]) + Row(4, lines[4]);
    assert RowsFrom(lines, 3) == Row(5, lines[5]) + Row(4, lines[4]) + Row(3, lines[3]);
    assert RowsFrom(lines, 2) == RowsFrom(lines, 3) + Row(2, lines[2]);
    assert RowsFrom(lines, 1) == RowsFrom(lines, 2) + Row(1, lines[1]);
    assert RowsFrom(lines, 0) == RowsFrom(lines, 1) + Row(0, lines[0]);
  }

  /** `format!("种子: {}\n\n", seed)`. */
  function Header(seed: u64): string
  {
    "种子: " + Decimal(seed) + "\n\n"
  }

  /** `hex_nums`: the line values, top line first. */
  function HexNums(lines: seq<YaoType>): seq<nat>
  {
    seq(|lines|, k requires 0 <= k < |lines| => Value(lines[|lines| - 1 - k]))
  }

  /** The loop of lib.rs:84-99: the header, then one row per line from the
      top line down, collecting `hex_nums` on the way. */
  method RenderRows(seed: u64, lines: seq<YaoType>) returns (result: string, hexNums: seq<nat>)
    ensures result == Header(seed) + RowsFrom(lines, 0)
    ensures |hexNums| == |lines|
    ensures forall k :: 0 <= k < |lines| ==> hexNums[k] == Value(lines[|lines| - 1 - k])
  {
    result := Header(seed);
    hexNums := [];
    var i := |lines|;
    while i > 0
      invariant 0 <= i <= |lines|
      invariant result == Header(seed) + RowsFrom(lines, i)
      invariant |hexNums| == |lines| - i
      invariant forall k :: 0 <= k < |hexNums| ==> hexNums[k] == Value(lines[|lines| - 1 - k])
    {
      i := i - 1;
      AppendRow(Header(seed), lines, i);
      result := result + Row(i, lines[i]);
      hexNums := hexNums + [Value(lines[i])];
    }
  }

  /** Appending the row of line i to the rows above it gives the rows from i. */
  lemma AppendRow(prefix: string, lines: seq<YaoType>, i: nat)
    requires i < |lines|
    ensures prefix + RowsFrom(lines, i + 1) + Row(i, lines[i]) == prefix + RowsFrom(lines, i)
  {
  }

  /** Lines 109-111: the value sequence, then the names of the original and
      the changed figure. */
  function Trailer(list: string, original: string, changed: string): string
  {
    "\n序列: " + list + "\n" + "本卦: " + original + "\n" + "变卦: " + changed
  }

  /** The text the divination returns for a seed and a random stream. */
  function DivinationText(seed: u64, draws: seq<Bit>): string
    requires |draws| >= 18
  {
    var lines := CastLines(draws);
    FiguresAreSixBit(lines);
    Header(seed) + RowsFrom(lines, 0)
    + Trailer(DebugList(HexNums(lines)), GuaName(OrigBits(lines)), GuaName(ChgBits(lines)))
  }

  /** `Java_com_example_rustiching_MainActivity_getDivination` from the seed on. */
  method Divine(seed: u64, draws: seq<Bit>) returns (result: string)
    requires |draws| >= 18
    ensures result == DivinationText(seed, draws)
  {
    var lines, _ := DrawLines(draws);
    var hexNums;
    result, hexNums := RenderRows(seed, lines);
    var origBits, chgBits := PackFigures(lines);
    FiguresAreSixBit(lines);
    assert hexNums == HexNums(lines);
    ghost var rendered := result;
    result := result + "\n序列: " + DebugList(hexNums) + "\n";
    result := result + "本卦: " + GuaName(origBits as int) + "\n";
    result := result + "变卦: " + GuaName(chgBits as int);
    AppendTrailer(rendered, DebugList(hexNums), GuaName(origBits as int), GuaName(chgBits as int));
  }

  /** The three pushes of lines 109-111 append the trailer. */
  lemma AppendTrailer(prefix: string, list: string, original: string, changed: string)
    ensures prefix + "\n序列: " + list + "\n" + "本卦: " + original + "\n" + "变卦: " + changed
         == prefix + Trailer(list, original, changed)
  {
  }

  /** The 序列 line lists the line values top line first: in `[..]`, the
      value of line 5 - k is the digit at position 3k + 1. */
  lemma SequenceLineValues(lines: seq<YaoType>)
    requires |lines| == 6
    ensures var list := DebugList(HexNums(lines));
      |list| == 18 && list[0] == '[' && list[17] == ']' &&
      forall k :: 0 <= k < 6 ==> list[3 * k + 1] == DigitChar(Value(lines[5 - k]))
  {
    var nums := HexNums(lines);
    assert |nums| == 6;
    forall k | 0 <= k < 6
      ensures nums[k] == Value(lines[5 - k]) < 10
    {
      assert |lines| - 1 - k == 5 - k;
    }
    DebugListDigits(nums);
    forall k | 0 <= k < 6
      ensures DebugList(nums)[3 * k + 1] == DigitChar(Value(lines[5 - k]))
    {
      assert DebugList(nums)[3 * k + 1] == DigitChar(nums[k]);
    }
  }

  /** Text followed by the trailer ends with the 序列, 本卦 and 变卦 lines. */
  lemma EndsWithTrailer(prefix: string, list: string, original: string, changed: string)
    ensures var ending := "\n序列: " + list + "\n本卦: " + original + "\n变卦: " + changed;
      var text := prefix + Trailer(list, original, changed);
      |text| >= |ending| && text[|text| - |ending|..] == ending
  {
    var ending := "\n序列: " + list + "\n本卦: " + original + "\n变卦: " + changed;
    assert Trailer(list, original, changed) == ending;
    assert (prefix + ending)[|prefix|..] == ending;
  }

  /** The text ends with the 序列 line of the line values, then the 本卦 and
      变卦 lines naming the two packed figures. */
  lemma TextEndsWithFigures(seed: u64, draws: seq<Bit>)
    requires |draws| >= 18
    ensures var lines := CastLines(draws);
      OrigBits(lines) < 64 && ChgBits(lines) < 64 &&
      var ending := "\n序列: " + DebugList(HexNums(lines)) + "\n本卦: " + GuaName(OrigBits(lines))
                    + "\n变卦: " + GuaName(ChgBits(lines));
      var text := DivinationText(seed, draws);
      |text| >= |ending| && text[|text| - |ending|..] == ending
  {
    var lines := CastLines(draws);
    FiguresAreSixBit(lines);
    EndsWithTrailer(Header(seed) + RowsFrom(lines, 0), DebugList(HexNums(lines)),
                    GuaName(OrigBits(lines)), GuaName(ChgBits(lines)));
  }

  /** The header is two lines: the seed, then a blank line. */
  lemma HeaderLines(seed: u64)
    ensures Newlines(Header(seed)) == 2
  {
    NoNewlines(Decimal(seed));
    NoNewlines("种子: ");
    NewlinesAppend("种子: ", Decimal(seed));
    NewlinesAppend("种子: " + Decimal(seed), "\n\n");
  }

  /** With one-line pieces, the trailer is a blank line and the 序列, 本卦 and
      变卦 lines, the last one with no line break after it. */
  lemma TrailerLines(list: string, original: string, changed: string)
    requires Newlines(list) == 0 && Newlines(original) == 0 && Newlines(changed) == 0
    ensures Newlines(Trailer(list, original, changed)) == 3
    ensures var text := Trailer(list, original, changed);
      var last := "变卦: " + changed;
      |text| >= |last| && text[|text| - |last|..] == last
  {
    var sequence := "\n序列: " + list + "\n";
    NewlinesAppend("\n序列: ", list);
    NewlinesAppend("\n序列: " + list, "\n");
    var originalLine := "本卦: " + original + "\n";
    NewlinesAppend("本卦: ", original);
    NewlinesAppend("本卦: " + original, "\n");
    var changedLine := "变卦: " + changed;
    NewlinesAppend("变卦: ", changed);
    assert Trailer(list, original, changed) == (sequence + originalLine) + changedLine;
    NewlinesAppend(sequence, originalLine);
    NewlinesAppend(sequence + originalLine, changedLine);
  }

  /** The whole text: the two header lines, the six rows, then the trailer;
      eleven line breaks in all. */
  lemma DivinationLayout(seed: u64, draws: seq<Bit>)
    requires |draws| >= 18
    ensures var text := DivinationText(seed, draws);
      Newlines(text) == 11 &&
      |text| >= |Header(seed)| && text[..|Header(seed)|] == Header(seed) &&
      text[|Header(seed)|..|Header(seed)| + |RowsFrom(CastLines(draws), 0)|] == RowsFrom(CastLines(draws), 0)
  {
    var lines := CastLines(draws);
    FiguresAreSixBit(lines);
    var list, original, changed := DebugList(HexNums(lines)), GuaName(OrigBits(lines)), GuaName(ChgBits(lines));
    DebugListOneLine(HexNums(lines));
    NameOneLine(OrigBits(lines));
    NameOneLine(ChgBits(lines));
    TrailerLines(list, original, changed);
    HeaderLines(seed);
    RowsAreLines(lines, 0);
    NewlinesAppend(Header(seed), RowsFrom(lines, 0));
    NewlinesAppend(Header(seed) + RowsFrom(lines, 0), Trailer(list, original, changed));
  }

  /** The rendered sequence of line values is a single line of text. */
  lemma DebugListOneLine(nums: seq<nat>)
    ensures Newlines(DebugList(nums)) == 0
  {
    JoinedOneLine(nums);
    NoNewlines("[");
    NoNewlines("]");
    NewlinesAppend("[", Joined(nums));
    NewlinesAppend("[" + Joined(nums), "]");
  }

  lemma {:induction false} JoinedOneLine(nums: seq<nat>)
    ensures Newlines(Joined(nums)) == 0
  {
    if nums != [] {
      NoNewlines(Decimal(nums[0]));
      if |nums| > 1 {
        JoinedOneLine(nums[1..]);
        NoNewlines(", ");
        NewlinesAppend(Decimal(nums[0]), ", ");
        NewlinesAppend(Decimal(nums[0]) + ", ", Joined(nums[1..]));
      }
    }
  }

  /** No name in the table, nor the fallback, breaks the line. */
  lemma NameOneLine(binary: u8)
    ensures Newlines(GuaName(binary)) == 0
  {
    assert '\n' !in GuaName(binary);
    NoNewlines(GuaName(binary));
  }

  // ---------------------------------------------------------------------------
  // The packing order against the table's convention

  /** The code the name table is keyed by: the bottom line at bit 5 and the
      top line at bit 0. */
  function FigureCode(bits: seq<Bit>): (code: u8)
    requires |bits| == 6
    ensures code < 64
    ensures code / 32 % 2 == bits[0] && code / 16 % 2 == bits[1] && code / 8 % 2 == bits[2]
    ensures code / 4 % 2 == bits[3] && code / 2 % 2 == bits[4] && code % 2 == bits[5]
  {
    32 * bits[0] as int + 16 * bits[1] as int + 8 * bits[2] as int
    + 4 * bits[3] as int + 2 * bits[4] as int + bits[5] as int
  }

  /** Looked up by that code in the table with 革 and 鼎 in place, a figure's
      name announces its own lower trigram (lines 0 to 2) and upper trigram
      (lines 3 to 5). */
  lemma FigureNameDescribesLines(bits: seq<Bit>)
    requires |bits| == 6
    ensures var name := IntendedGuaName(FigureCode(bits));
      |name| >= 3 &&
      LowerImage(name) == TrigramImage(bits[0], bits[1], bits[2]) &&
      UpperImage(name) == TrigramImage(bits[3], bits[4], bits[5])
  {
    IntendedTableFollowsTrigrams(FigureCode(bits));
  }

  /** As written, line i goes to bit i: the packed number is the table code of
      the figure turned upside down. */
  lemma PackIsUpsideDownCode(bits: seq<Bit>)
    requires |bits| == 6
    ensures Pack(bits) == FigureCode([bits[5], bits[4], bits[3], bits[2], bits[1], bits[0]])
  {
    assert Pack(bits[6..]) == 0;
    assert Pack(bits[5..]) == bits[5] + 2 * Pack(bits[6..]);
    assert Pack(bits[4..]) == bits[4] + 2 * Pack(bits[5..]);
    assert Pack(bits[3..]) == bits[3] + 2 * Pack(bits[4..]);
    assert Pack(bits[2..]) == bits[2] + 2 * Pack(bits[3..]);
    assert Pack(bits[1..]) == bits[1] + 2 * Pack(bits[2..]);
  }

  /** Heaven below, earth above (地天泰) is printed as 天地否, whose name
      announces earth as the lower trigram of three yang lines. */
  lemma TaiPrintedAsPi()
    ensures var tai := [YoungYang, YoungYang, YoungYang, YoungYin, YoungYin, YoungYin];
      GuaName(OrigBits(tai)) == "天地否" &&
      LowerImage(GuaName(OrigBits(tai))) != TrigramImage(1, 1, 1) &&
      IntendedGuaName(FigureCode(OriginalBits(tai))) == "地天泰"
  {
    var tai := [YoungYang, YoungYang, YoungYang, YoungYin, YoungYin, YoungYin];
    var bits := OriginalBits(tai);
    assert bits == [1, 1, 1, 0, 0, 0];
    PackIsUpsideDownCode(bits);
  }
}
