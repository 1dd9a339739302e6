/**
 * The two error vocabularies of the rule layer: the outcome of parsing one
 * rule, and the wider set of CSSOM exceptions a rule-list mutation can raise.
 */
module RuleErrors {

  /** Why a single rule failed to parse. */
  datatype SingleRuleParseError = Syntax | Hierarchy

  /**
   * Errors of a rule-list mutation.  IndexSize and InvalidState are raised by
   * the rule list itself, never by the single-rule parser.
   */
  datatype RulesMutateError = Syntax | IndexSize | HierarchyRequest | InvalidState

  /** `impl From<SingleRuleParseError> for RulesMutateError`. */
  function FromSingleRuleParseError(e: SingleRuleParseError): (m: RulesMutateError)
    ensures m != RulesMutateError.IndexSize && m != RulesMutateError.InvalidState
    ensures m == RulesMutateError.Syntax <==> e == SingleRuleParseError.Syntax
    ensures m == RulesMutateError.HierarchyRequest <==> e == SingleRuleParseError.Hierarchy
  {
    match e
    case Syntax => RulesMutateError.Syntax
    case Hierarchy => HierarchyRequest
  }

  /** The conversion loses nothing: distinct parse errors stay distinct. */
  lemma FromIsLossless(a: SingleRuleParseError, b: SingleRuleParseError)
    ensures FromSingleRuleParseError(a) == FromSingleRuleParseError(b) ==> a == b
  {
  }

  /** The conversion reaches exactly Syntax and HierarchyRequest. */
  lemma FromImage(m: RulesMutateError)
    ensures (exists e :: FromSingleRuleParseError(e) == m)
        <==> (m == RulesMutateError.Syntax || m == RulesMutateError.HierarchyRequest)
  {
    if m == RulesMutateError.Syntax {
      assert FromSingleRuleParseError(SingleRuleParseError.Syntax) == m;
    } else if m == RulesMutateError.HierarchyRequest {
      assert FromSingleRuleParseError(SingleRuleParseError.Hierarchy) == m;
    }
  }
}
