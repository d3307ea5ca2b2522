# I Ching divination engine: a Dafny model

This project models the divination engine of an Android I Ching app. The
engine is the Rust library `src/lib.rs`, which the app calls through JNI. Once
a seed is known, the engine:

1. casts six lines (爻). Each line sums three 0/1 coin draws and maps the sum
   0, 1, 2, 3 to old yin (6), young yang (7), young yin (8) or old yang (9);
2. renders a seed header. It then writes one row per line, from the top line
   (上) down to the bottom line (初), and collects the line values in that
   order (`hex_nums`);
3. packs the lines into two 6-bit numbers, the original figure (本卦) and the
   changed figure (变卦), with line i at bit i;
4. looks both numbers up in a 64-entry table of hexagram names (`get_gua_name`)
   and appends the value sequence and the two names.

Modules, one per concern of `src/lib.rs`:

- `Yao` (yao.dfy): the `YaoType` enum, its values, `generate`,
  `to_original_bit` and `to_changed_bit`.
- `Gua` (gua.dfy): `get_gua_name` as a `match`, arm for arm. It also holds an
  independent definition of the eight trigram images (天 地 雷 水 山 风 火 泽),
  worked out from which lines of a trigram are yang. Against that definition,
  the proofs establish the table's keying convention.
- `Divination` (divination.dfy): the body of
  `Java_com_example_rustiching_MainActivity_getDivination` from the seed on.
  Its three loops are the methods `DrawLines`, `RenderRows` and `PackFigures`,
  and `Divine` composes them. Each method is proved against a specification
  function: `CastLines`, `RowsFrom`, `OrigBits`/`ChgBits` and `DivinationText`.
- `Text` (text.dfy): the Rust formatting that the output uses. It covers `{}`
  of an unsigned integer and `{:?}` of a `Vec<u8>`.
- `Bits` (bits.dfy): 0/1 values, little-endian packing, and the `u8`
  step `x |= 1 << i` on `bv8`.

The random generator is the stream of values `gen_range(0..=1)` returns. It is
given as a sequence `draws` of 0/1 values. `DrawLines` consumes it three values
per line and returns the rest. The seed is a `u64` input.

## Model

| member | source | states |
|---|---|---|
| Yao.Value | src/lib.rs:10-13 | a line's value (`*yao as u8`) is in 6..9 |
| Yao.FromSum | src/lib.rs:18-24 | a coin sum s in 0..3 gives the line of value 6 + s; the requires (s <= 3) is the `unreachable!()` arm, which `Generate` never reaches |
| Yao.Generate | src/lib.rs:16-25 | the line's value is 6 plus the three draws; it is a changing line (6 or 9) exactly when the three draws are equal |
| Yao.OriginalBit | src/lib.rs:27-29 | the original bit is 1 exactly for yang lines (odd values 7, 9) |
| Yao.ChangedBit | src/lib.rs:31-33 | the changed bit equals the original bit for young lines (7, 8) and is its complement for changing lines (6, 9) |
| Gua.GuaName | src/lib.rs:36-56 | `get_gua_name`: the 64 arms in source order, each code to its name, and 未知 for any other `u8` |
| Gua.GuaNameKnown | src/lib.rs:36-56 | a code has a real name (not 未知) exactly when it is below 64: the 64 arms cover 0..63 and the fallback catches only codes >= 64 |
| Gua.TableFollowsTrigrams | src/lib.rs:37-53 | for every 6-bit code except 29 and 46, the name announces the trigram of bits 5, 4, 3 as lower and of bits 2, 1, 0 as upper, so the table keys the bottom line at bit 5 |
| Gua.SwappedEntries | src/lib.rs:50 | the names at 29 (泽火革) and 46 (火风鼎) each describe the other code's figure |
| Gua.IntendedTableFollowsTrigrams | src/lib.rs:36-56 | with 革 and 鼎 exchanged, every 6-bit code is named after its own two trigrams, and only 6-bit codes are named |
| Gua.IntendedNamesDistinct | src/lib.rs:37-53 | distinct codes have distinct names in the corrected table |
| Gua.GuaNamesDistinct | src/lib.rs:37-53 | the 64 names of the table as written are pairwise distinct |
| Text.Decimal | src/lib.rs:88 | `{}` of the seed is a non-empty string of decimal digits with no leading zero |
| Text.DecimalRoundTrip | src/lib.rs:88 | the decimal rendering of the seed reads back as the seed |
| Text.DebugList | src/lib.rs:109 | `{:?}` of a `Vec<u8>`: the decimal elements separated by ", " inside brackets |
| Text.DebugListDigits | src/lib.rs:109 | `{:?}` of one-digit values is `[`, then each value's digit at position 3k + 1, then `]`, three characters per value, so the sequence can be read back |
| Divination.CastLines | src/lib.rs:78-81 | exactly six lines; line i has value 6 + draws 3i, 3i + 1 and 3i + 2, so line 0 (初) is drawn first and stored first |
| Divination.DrawLines | src/lib.rs:77-81 | the loop builds exactly `CastLines(draws)` and leaves the stream advanced by exactly 18 draws |
| Divination.OrigBits | src/lib.rs:102-107 | `orig_bits` as a number: the original bit of line i at bit i |
| Divination.ChgBits | src/lib.rs:102-107 | `chg_bits` as a number: the changed bit of line i at bit i |
| Divination.SetBitStep | src/lib.rs:105-106 | one loop round: `x |= 1 << i` when bit i is 1 extends the packed prefix by that bit |
| Divination.PackFigures | src/lib.rs:102-107 | the loop's `orig_bits` and `chg_bits` are the packing of the original and changed bits with line i at bit i |
| Divination.FigureBits | src/lib.rs:102-107 | bit i of `orig_bits` (of `chg_bits`) is the original (changed) bit of line i |
| Divination.FiguresAreSixBit | src/lib.rs:102-107 | for six lines both bitmasks are below 64 |
| Divination.ChangingLinesDiffer | src/lib.rs:102-107 | the two bitmasks differ at bit i (their XOR has bit i) exactly when line i is 6 or 9 |
| Divination.SameFigureIffNoChangingLine | src/lib.rs:102-107 | 本卦 and 变卦 are the same number exactly when no line is changing |
| Divination.AllOldYang | src/lib.rs:38 | six 9s give `orig_bits` 63 (乾为天) and `chg_bits` 0 (坤为地) |
| Divination.AllOldYin | src/lib.rs:38 | six 6s give `orig_bits` 0 (坤为地) and `chg_bits` 63 (乾为天) |
| Divination.Label | src/lib.rs:97 | the row label: 上 for line 5, 初 for line 0, two spaces for the others |
| Divination.Glyph | src/lib.rs:91-96 | each glyph is 8 Unicode characters: a solid stroke for yang or a broken one for yin, a space, then the marker, which is X for 6, O for 9 and blank for young lines |
| Divination.Row | src/lib.rs:97 | `"{}爻({}): {}\n"` of the label, the line value and the glyph |
| Divination.RowIsOneLine | src/lib.rs:97 | each row ends in a line break and has no other one |
| Divination.RowsAreLines | src/lib.rs:90-99 | the rows of lines i.. are exactly that many lines of text |
| Divination.RowsTopDown | src/lib.rs:90-99 | the six rows run from line 5 (labelled 上) down to line 0 (labelled 初) |
| Divination.Header | src/lib.rs:88 | `"种子: {}\n\n"` of the seed |
| Divination.HexNums | src/lib.rs:85-98 | `hex_nums`: the line values in the order the reversed loop visits them, top line first |
| Divination.RenderRows | src/lib.rs:84-99 | the reversed loop gives the header and then the rows from the top line down; `hex_nums` holds the line values top line first, i.e. in reverse order |
| Divination.Trailer | src/lib.rs:109-111 | the three pushes: a blank line, the 序列 line, the 本卦 line and the 变卦 line without a final break |
| Divination.DivinationText | src/lib.rs:84-111 | the returned text: header, the rows from the top line down, then the trailer with `{:?}` of `hex_nums` and the names of `orig_bits` and `chg_bits` |
| Divination.Divine | src/lib.rs:76-111 | the text returned is `DivinationText(seed, draws)` |
| Divination.SequenceLineValues | src/lib.rs:98-109 | the 序列 line is 18 characters `[..]` and lists the line values top line first: the value of line 5 - k is the digit at position 3k + 1 |
| Divination.TextEndsWithFigures | src/lib.rs:109-111 | the whole text ends with the 序列 line of the values, then `本卦: ` and the name of `orig_bits`, then `变卦: ` and the name of `chg_bits`, both of which are 6-bit codes |
| Divination.HeaderLines | src/lib.rs:88 | the seed header is two lines: the seed and a blank line |
| Divination.TrailerLines | src/lib.rs:109-111 | the trailer is a blank line, then the 序列 and 本卦 lines, and it ends with the 变卦 line, which has no break after it |
| Divination.DebugListOneLine | src/lib.rs:109 | the rendered value sequence has no line break |
| Divination.NameOneLine | src/lib.rs:36-56 | no name in the table, and not the fallback either, has a line break |
| Divination.DivinationLayout | src/lib.rs:84-111 | the whole text has 11 line breaks: header, six rows, trailer; it starts with the seed header, followed by the six rows |
| Divination.FigureCode | src/lib.rs:36-56 | the code the table is keyed by: bit 5 is the bottom line, bit 0 the top line |
| Divination.FigureNameDescribesLines | src/lib.rs:36-56 | under that code and the corrected table, the name announces the trigram of lines 0-2 as lower and of lines 3-5 as upper |
| Divination.PackIsUpsideDownCode | src/lib.rs:104-106 | as written, the packed number is the table code of the figure turned upside down |
| Divination.TaiPrintedAsPi | src/lib.rs:104-106 | lines 7,7,7,8,8,8 (地天泰: heaven below, earth above) give `orig_bits` 7, which prints 天地否 |
| Bits.SetBitAdds | src/lib.rs:105-106 | on a `u8` whose bits from i up are clear, `x |= 1 << i` adds 2^i |

## Left out

- Seed hashing (`DefaultHasher` over `f64::to_bits` of azimuth and acceleration and over the timestamp, src/lib.rs:70-74) is not modelled. Its algorithm is an unspecified library detail and its inputs are floats. The seed is a `u64` input of `Divine`.
- `ChaCha8Rng::seed_from_u64` and `gen_range(0..=1)` (src/lib.rs:77, src/lib.rs:17) are not modelled. They are foreign random-generator code. The stream they produce is the `draws` input, a sequence of 0/1 values of which the first 18 are consumed. So the model does not capture that the draws are a function of the seed.
- The expected frequencies of 6, 7, 8 and 9 (1/8, 3/8, 3/8, 1/8) are left out. They are a statement about the random generator, which is not modelled.
- The JNI boundary and `env.new_string(...).expect(...)` (src/lib.rs:61-68, src/lib.rs:114) are not modelled. They are foreign calls. `Divine` returns the Rust `String`.
- The Android activities (app/src/main/java/com/example/iching/MainActivity.kt and android/app/src/main/java/com/example/rustiching/MainActivity.kt) are not modelled. They hold UI construction, sensor listeners with floating-point azimuth and acceleration, and a different seed recipe built on `java.util.Random`. The first file's line-drawing code is incomplete.
- Concurrency between sensor updates and the button click is not modelled. It is platform event handling.
- Strings are sequences of Unicode characters, not UTF-8 bytes: lengths such as the glyph's 8 characters are character counts (Rust's `str::len` would give 16 or 20 bytes for the glyphs). No property here depends on byte lengths.
- Divination.PackFigures: it requires at most eight lines. `1 << i` on a `u8` overflows from i = 8, and the source always passes six lines.

## Findings

| source | as written | input that shows it | evidently intended | confidence | as-written member | corrected member |
|---|---|---|---|---|---|---|
| src/lib.rs:104-106 | line i is packed at bit i, so the bottom line is bit 0; the name table keys the bottom line at bit 5 (地天泰 is 56, 水天需 is 58) | lines 7,7,7,8,8,8 (heaven below, earth above, 地天泰) give `orig_bits` 7, and 本卦 prints 天地否, the figure turned upside down | pack line i at bit 5 - i (`FigureCode`), so that the printed name announces the trigram of lines 0-2 as lower | high; not executed | Divination.TaiPrintedAsPi | Divination.FigureNameDescribesLines |
| src/lib.rs:50 | 29 => 泽火革 and 46 => 火风鼎, the only two arms that fit bit-0 keying and not bit-5 keying (the eight codes that read the same both ways, 0, 12, 18, 30, 33, 45, 51 and 63, fit both) | code 46 (lines yang, yin, yang, yang, yang, yin from the bottom: fire below, lake above, 革) is named 火风鼎 | 29 => 火风鼎 and 46 => 泽火革, as the other 62 arms place them (`IntendedGuaName`) | high; not executed | Gua.SwappedEntries | Gua.IntendedTableFollowsTrigrams |

`Divine` and `DivinationText` keep the packing and the table as written,
because they model the shipped behaviour. The corrected code and table sit
beside them: `FigureCode`, `IntendedGuaName`, and the lemmas named in the
"corrected member" column. The two defects partly cancel. Under the as-written
packing, the lines of 革 give 29 and the lines of 鼎 give 46, so those two
figures happen to print their right names.
