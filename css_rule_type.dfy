/**
 * CssRuleType: the numeric `type` that CSSOM exposes for a rule.  The numbers
 * are the constants of the CSSOM CSSRule interface and of the interfaces that
 * extend it (animations, counter styles, conditional rules, fonts, device
 * adaptation); they are an external contract and may not change.
 */
module CssRuleTypes {
  import opened Wrappers

  datatype CssRuleType =
    | Style
    | Charset
    | Import
    | Media
    | FontFace
    | Page
    | Keyframes
    | Keyframe
    | Margin
    | Namespace
    | CounterStyle
    | Supports
    | Document
    | FontFeatureValues
    | Viewport

  /** The integer discriminant of a rule type (`t as u32` in the source). */
  function Discriminant(t: CssRuleType): (n: nat)
    ensures 1 <= n <= 15
  {
    match t
    case Style => 1
    case Charset => 2
    case Import => 3
    case Media => 4
    case FontFace => 5
    case Page => 6
    case Keyframes => 7
    case Keyframe => 8
    case Margin => 9
    case Namespace => 10
    case CounterStyle => 11
    case Supports => 12
    case Document => 13
    case FontFeatureValues => 14
    case Viewport => 15
  }

  /**
   * The CSSOM constants as one table, listed in numeric order: the type whose
   * constant is n stands at position n - 1.
   */
  const CssomTable: seq<CssRuleType> :=
    [Style, Charset, Import, Media, FontFace, Page, Keyframes, Keyframe,
     Margin, Namespace, CounterStyle, Supports, Document, FontFeatureValues, Viewport]

  /** The rule type a CSSOM constant names, if any. */
  function FromDiscriminant(n: int): (t: Option<CssRuleType>)
    ensures t.Some? <==> 1 <= n <= 15
  {
    if 1 <= n <= |CssomTable| then Some(CssomTable[n - 1]) else None
  }

  /** Every discriminant is the one the CSSOM table gives its type. */
  lemma DiscriminantTable(n: int)
    requires 1 <= n <= 15
    ensures Discriminant(CssomTable[n - 1]) == n
  {
  }

  /** Reading a type's discriminant back through the table gives the type. */
  lemma DiscriminantRoundTrip(t: CssRuleType)
    ensures FromDiscriminant(Discriminant(t)) == Some(t)
  {
  }

  /** The discriminants are pairwise distinct. */
  lemma DiscriminantsDistinct(t: CssRuleType, u: CssRuleType)
    ensures Discriminant(t) == Discriminant(u) <==> t == u
  {
  }

  /** The discriminants are exactly the integers 1 to 15: none is skipped. */
  lemma DiscriminantsCover(n: int)
    ensures (exists t :: Discriminant(t) == n) <==> 1 <= n <= 15
  {
    if 1 <= n <= 15 {
      DiscriminantTable(n);
      assert Discriminant(CssomTable[n - 1]) == n;
    }
  }
}
