/** The line type of src/lib.rs (`YaoType`): its numeric value, how a line is
    generated from three coin draws, and the two bits it contributes to the
    original figure (本卦) and to the changed figure (变卦). */
module Yao {
  import opened Bits

  /** Old yin (6) and old yang (9) are changing lines; 7 and 8 are young. */
  datatype YaoType = OldYin | YoungYang | YoungYin | OldYang

  /** The enum discriminant, `*yao as u8`. */
  function Value(y: YaoType): (v: int)
    ensures 6 <= v <= 9
  {
    match y
    case OldYin => 6
    case YoungYang => 7
    case YoungYin => 8
    case OldYang => 9
  }

  /** By convention odd line values are yang and even ones yin. */
  predicate IsYang(y: YaoType)
  {
    Value(y) % 2 == 1
  }

  /** The extreme values 6 and 9 are the changing lines. */
  predicate IsChanging(y: YaoType)
  {
    Value(y) == 6 || Value(y) == 9
  }

  /** The `match sum` of `YaoType::generate`; a sum above 3 is its `unreachable!()` arm. */
  function FromSum(sum: int): (y: YaoType)
    requires 0 <= sum <= 3
    ensures Value(y) == 6 + sum
  {
    if sum == 0 then OldYin
    else if sum == 1 then YoungYang
    else if sum == 2 then YoungYin
    else OldYang
  }

  /** `YaoType::generate`: the sum of three 0/1 draws, taken in order, picks the line. */
  function Generate(first: Bit, second: Bit, third: Bit): (y: YaoType)
    ensures Value(y) == 6 + first + second + third
    ensures IsChanging(y) <==> first == second == third
  {
    FromSum(first + second + third)
  }

  /** `to_original_bit`: 1 exactly for the yang lines. */
  function OriginalBit(y: YaoType): (b: Bit)
    ensures b == 1 <==> IsYang(y)
  {
    match y
    case OldYin => 0
    case YoungYang => 1
    case YoungYin => 0
    case OldYang => 1
  }

  /** `to_changed_bit`: a young line keeps its bit, a changing line flips it. */
  function ChangedBit(y: YaoType): (b: Bit)
    ensures IsChanging(y) ==> b == 1 - OriginalBit(y)
    ensures !IsChanging(y) ==> b == OriginalBit(y)
  {
    match y
    case OldYin => 1
    case YoungYang => 1
    case YoungYin => 0
    case OldYang => 0
  }
}
