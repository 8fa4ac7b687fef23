/**
 * The check that decides whether clipboard text may become the ball's face:
 * exactly one character whose Unicode general category is So, Sk or Cs.
 * The category table itself is a parameter (`category`), standing for
 * `unicodedata.category`.
 */
module Symbols {
  /** The Unicode general categories, by their two-letter codes. */
  datatype Category =
    | Lu | Ll | Lt | Lm | Lo
    | Mn | Mc | Me
    | Nd | Nl | No
    | Pc | Pd | Ps | Pe | Pi | Pf | Po
    | Sm | Sc | Sk | So
    | Zs | Zl | Zp
    | Cc | Cf | Cs | Co | Cn
  {
    /** The code `unicodedata.category` returns for this category. */
    function Code(): string {
      match this
      case Lu => "Lu" case Ll => "Ll" case Lt => "Lt" case Lm => "Lm" case Lo => "Lo"
      case Mn => "Mn" case Mc => "Mc" case Me => "Me"
      case Nd => "Nd" case Nl => "Nl" case No => "No"
      case Pc => "Pc" case Pd => "Pd" case Ps => "Ps" case Pe => "Pe"
      case Pi => "Pi" case Pf => "Pf" case Po => "Po"
      case Sm => "Sm" case Sc => "Sc" case Sk => "Sk" case So => "So"
      case Zs => "Zs" case Zl => "Zl" case Zp => "Zp"
      case Cc => "Cc" case Cf => "Cf" case Cs => "Cs" case Co => "Co" case Cn => "Cn"
    }
  }

  /** The codes accepted as a face symbol, as the source lists them. */
  const SymbolCodes: seq<string> := ["So", "Sk", "Cs"]

  /** `is_emoji`: the code of the single character is one of `SymbolCodes`. */
  function IsEmoji(text: string, category: char -> Category): (r: bool)
    ensures |text| != 1 ==> !r
    ensures |text| == 1 ==> (r <==> category(text[0]) in {So, Sk, Cs})
  {
    if |text| != 1 then false
    else category(text[0]).Code() in SymbolCodes
  }
}
