/**
 * `CssRule::parse`: parsing one rule on its own, as CSSOM insertRule and
 * nested rule lists do.  The tokenizer and the top-level rule parser are
 * outside this layer; what one run of them produces (the rule or a failure,
 * and the parser as they leave it) is given as a `OneRuleParse` function, and
 * the contracts below hold for any such function.
 */
module RuleParse {
  import opened Wrappers
  import opened SharedLocks
  import opened RuleErrors
  import R = CssRules
  import T = CssRuleTypes

  /** Where a stylesheet comes from. */
  datatype Origin = UserAgent | User | Author

  datatype QuirksMode = Quirks | LimitedQuirks | NoQuirks

  /** The data used to resolve relative URLs. */
  datatype UrlData = UrlData(url: string)

  /** The sheet's namespace table: its default namespace and its prefixes. */
  datatype Namespaces = Namespaces(defaultNamespace: Option<string>, prefixes: map<string, string>)

  /** The parts of a parent stylesheet's contents that parsing a rule uses. */
  datatype StylesheetContents = StylesheetContents(
    origin: Origin, urlData: UrlData, quirksMode: QuirksMode, namespaces: Namespaces)

  /** Parsing-mode flags; the default mode has none set. */
  type ParsingMode = nat

  const ParsingModeDefault: ParsingMode := 0

  datatype ParserContext = ParserContext(
    stylesheetOrigin: Origin, urlData: UrlData, ruleType: Option<T.CssRuleType>,
    parsingMode: ParsingMode, quirksMode: QuirksMode)

  /** The capability that resolves nested `@import`s. */
  datatype StylesheetLoader = StylesheetLoader(id: nat)

  /**
   * The top-level rule parser's fields: its state, the hierarchy-error flag
   * it raises on a misplaced rule, and the namespace table it registers
   * `@namespace` prefixes in.
   */
  datatype TopLevelRuleParser = TopLevelRuleParser(
    stylesheetOrigin: Origin, context: ParserContext, sharedLock: SharedLock,
    loader: Option<StylesheetLoader>, state: R.State, hadHierarchyError: bool,
    namespaces: Namespaces)

  /** One run of `parse_one_rule`: the rule, or None on failure, and the parser afterwards. */
  datatype OneRuleOutcome = OneRuleOutcome(rule: Option<R.CssRule>, parser: TopLevelRuleParser)

  type OneRuleParse = (string, TopLevelRuleParser) -> OneRuleOutcome

  /** What `parse` returns, with the namespace table as it leaves it. */
  datatype ParseOutput = ParseOutput(
    result: Result<(R.CssRule, R.State), SingleRuleParseError>, namespaces: Namespaces)

  /**
   * The parser `parse` starts: a nested rule (no state given) is parsed as
   * if in the body of the sheet, no hierarchy error has been seen yet, and
   * the sheet's own context, lock, loader and namespace table are used.
   */
  function StartingParser(contents: StylesheetContents, sharedLock: SharedLock,
                          state: Option<R.State>, loader: Option<StylesheetLoader>)
    : (p: TopLevelRuleParser)
    ensures state.None? ==> p.state == R.Body
    ensures state.Some? ==> p.state == state.value
    ensures !p.hadHierarchyError
    ensures p.namespaces == contents.namespaces
    ensures p.sharedLock == sharedLock && p.loader == loader
    ensures p.stylesheetOrigin == contents.origin
    ensures p.context.stylesheetOrigin == contents.origin && p.context.urlData == contents.urlData
    ensures p.context.quirksMode == contents.quirksMode
    ensures p.context.ruleType.None? && p.context.parsingMode == ParsingModeDefault
  {
    var context := ParserContext(contents.origin, contents.urlData, None,
                                 ParsingModeDefault, contents.quirksMode);
    var start := match state case Some(s) => s case None => R.Body;
    TopLevelRuleParser(contents.origin, context, sharedLock, loader, start, false,
                       contents.namespaces)
  }

  /**
   * `CssRule::parse`: on success the rule and the parser's final state; on
   * failure Hierarchy exactly when the parser raised its hierarchy flag and
   * Syntax otherwise.  The namespace table is left as the parser left it,
   * whether or not the rule parsed: nothing is rolled back.
   */
  function Parse(css: string, contents: StylesheetContents, sharedLock: SharedLock,
                 state: Option<R.State>, loader: Option<StylesheetLoader>,
                 parseOneRule: OneRuleParse): (out: ParseOutput)
    ensures var o := parseOneRule(css, StartingParser(contents, sharedLock, state, loader));
            && (out.result.Ok? <==> o.rule.Some?)
            && (out.result.Ok? ==> out.result.value == (o.rule.value, o.parser.state))
            && (out.result.Err? ==>
                  (out.result.error == SingleRuleParseError.Hierarchy <==> o.parser.hadHierarchyError))
            && out.namespaces == o.parser.namespaces
  {
    var outcome := parseOneRule(css, StartingParser(contents, sharedLock, state, loader));
    var result :=
      match outcome.rule
      case Some(rule) => Ok((rule, outcome.parser.state))
      case None =>
        Err(if outcome.parser.hadHierarchyError then SingleRuleParseError.Hierarchy
            else SingleRuleParseError.Syntax);
    ParseOutput(result, outcome.parser.namespaces)
  }

  /** Parsing without a state is parsing from Body. */
  lemma NestedParseIsBodyParse(css: string, contents: StylesheetContents, sharedLock: SharedLock,
                               loader: Option<StylesheetLoader>, parseOneRule: OneRuleParse)
    ensures Parse(css, contents, sharedLock, None, loader, parseOneRule)
         == Parse(css, contents, sharedLock, Some(R.Body), loader, parseOneRule)
  {
  }

  /**
   * The CSSOM insertRule path: a failed parse surfaces as SyntaxError or
   * HierarchyRequestError, the latter exactly when the parser raised its
   * hierarchy flag, and never as IndexSizeError or InvalidStateError.
   */
  lemma ParseFailureAsMutateError(css: string, contents: StylesheetContents, sharedLock: SharedLock,
                                  state: Option<R.State>, loader: Option<StylesheetLoader>,
                                  parseOneRule: OneRuleParse)
    requires Parse(css, contents, sharedLock, state, loader, parseOneRule).result.Err?
    ensures var m := FromSingleRuleParseError(
                       Parse(css, contents, sharedLock, state, loader, parseOneRule).result.error);
            var o := parseOneRule(css, StartingParser(contents, sharedLock, state, loader));
            && (m == RulesMutateError.Syntax || m == RulesMutateError.HierarchyRequest)
            && (m == RulesMutateError.HierarchyRequest <==> o.parser.hadHierarchyError)
  {
  }

  /** The rule parser wraps every rule it builds in the lock it was given. */
  ghost predicate WrapsInOwnLock(parseOneRule: OneRuleParse)
  {
    forall css, p :: parseOneRule(css, p).rule.Some? ==>
      parseOneRule(css, p).rule.value.handle.lock == p.sharedLock.id
  }

  /**
   * A rule parsed for a sheet is protected by the sheet's shared lock, so
   * every rule of one tree shares one lock.
   */
  lemma ParsedRuleUsesSharedLock(css: string, contents: StylesheetContents, sharedLock: SharedLock,
                                 state: Option<R.State>, loader: Option<StylesheetLoader>,
                                 parseOneRule: OneRuleParse)
    requires WrapsInOwnLock(parseOneRule)
    ensures var out := Parse(css, contents, sharedLock, state, loader, parseOneRule);
            out.result.Ok? ==> out.result.value.0.handle.lock == sharedLock.id
  {
  }
}
