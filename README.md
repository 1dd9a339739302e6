# Servo stylesheet rules: the CssRule dispatch layer, in Dafny

This project models `components/style/stylesheets/mod.rs` of Servo's style
engine: the closed sum type `CssRule` over the twelve rule kinds (Namespace,
Import, Style, Media, FontFace, FontFeatureValues, CounterStyle, Viewport,
Keyframes, Supports, Page, Document), each holding a lock-protected handle to
its data, and the five protocols every kind is wired into:

- type identification (`rule_type`, with the CSSOM constants of `CssRuleType`);
- parser-state classification (`rule_state`) and the single-rule parse
  wrapper (`parse`), which picks the starting state and sorts failures into
  Syntax and Hierarchy errors;
- deep cloning under a destination lock (`deep_clone_with_lock`);
- serialization (`to_css`);
- memory accounting (`malloc_size_of_children`) with its exemption table;

and the lossless conversion of single-rule parse errors into rule-list
mutation errors.

Modules:

- `Wrappers` (wrappers.dfy): Option and Result.
- `SharedLocks` (shared_lock.dfy): a lock is its identity; `Locked<T>` pairs
  data with the lock that wraps it; `ReadWith` requires a guard of the same
  lock, the check the source asserts on every read.
- `CssRuleTypes` (css_rule_type.dfy): `CssRuleType`, its discriminants and the
  CSSOM table read the other way.
- `RuleErrors` (errors.dfy): the two error enums and the `From` conversion.
- `CssRules` (css_rule.dfy): `CssRule`, the parser `State`, and the dispatch
  protocols.  The per-kind code they call (each kind's serializer, nested deep
  clone, backend clone and memory measurement) is not part of this model; it
  is passed in as a `RuleImpls` record of functions, so each contract holds
  for every per-kind implementation and states only what the dispatch does.
- `RuleParse` (rule_parse.dfy): `parse`.  The tokenizer and the top-level rule
  parser are not part of this model; one run of `parse_one_rule` is a function
  parameter giving the rule (or failure) and the parser as it is left,
  including its state, its hierarchy-error flag and the namespace table.

## Model

| member | source | states |
|---|---|---|
| CssRuleTypes.Discriminant | components/style/stylesheets/mod.rs:159-183 | every rule type's integer lies in 1..15 |
| CssRuleTypes.FromDiscriminant | components/style/stylesheets/mod.rs:159-183 | the CSSOM table read from integer to type is defined exactly on 1..15 |
| CssRuleTypes.DiscriminantTable | components/style/stylesheets/mod.rs:159-183 | the discriminants are exactly Style=1, Charset=2, Import=3, Media=4, FontFace=5, Page=6, Keyframes=7, Keyframe=8, Margin=9, Namespace=10, CounterStyle=11, Supports=12, Document=13, FontFeatureValues=14, Viewport=15 |
| CssRuleTypes.DiscriminantRoundTrip | components/style/stylesheets/mod.rs:159-183 | reading a type's integer back through the CSSOM table gives the type |
| CssRuleTypes.DiscriminantsDistinct | components/style/stylesheets/mod.rs:159-183 | two rule types share an integer if and only if they are the same type |
| CssRuleTypes.DiscriminantsCover | components/style/stylesheets/mod.rs:159-183 | an integer is some type's discriminant if and only if it lies in 1..15 |
| RuleErrors.FromSingleRuleParseError | components/style/stylesheets/mod.rs:199-206 | Syntax maps to Syntax and Hierarchy to HierarchyRequest, each if and only if; IndexSize and InvalidState are never produced |
| RuleErrors.FromIsLossless | components/style/stylesheets/mod.rs:199-206 | distinct parse errors convert to distinct mutation errors |
| RuleErrors.FromImage | components/style/stylesheets/mod.rs:199-206 | the conversion reaches exactly Syntax and HierarchyRequest |
| CssRules.RuleType | components/style/stylesheets/mod.rs:210-225 | `rule_type` never returns Charset, Keyframe or Margin |
| CssRules.RuleOfType | components/style/stylesheets/mod.rs:210-225 | inverse of `rule_type`: for every type other than Charset, Keyframe and Margin there is a variant reporting it, holding any given handle |
| CssRules.RuleOfTypeRoundTrip | components/style/stylesheets/mod.rs:210-225 | a rule is recovered from its type and its handle |
| CssRules.RuleTypeInjective | components/style/stylesheets/mod.rs:210-225 | two rules with the same type and the same handle are the same rule: `rule_type` tells the twelve variants apart |
| CssRules.RuleTypeImage | components/style/stylesheets/mod.rs:210-225 | a type is reported by some rule if and only if it is not Charset, Keyframe or Margin |
| CssRules.RuleState | components/style/stylesheets/mod.rs:227-234 | Imports exactly for Import, Namespaces exactly for Namespace, Body exactly for every other variant |
| CssRules.RuleStateImage | components/style/stylesheets/mod.rs:227-234 | no rule leaves the parser in Start; Imports, Namespaces and Body are each reached |
| CssRules.CloneStrategiesPartition | components/style/stylesheets/mod.rs:296-354 | every kind is cloned by exactly one strategy: value copy, backend copy or delegated deep clone |
| CssRules.DeepCloneWithLock | components/style/stylesheets/mod.rs:288-356 | the clone has the source's rule type and a handle wrapped by the destination lock; its data equals the source's for Namespace, FontFeatureValues and Viewport, is the backend copy for FontFace and CounterStyle, and is the kind's own deep clone with the same lock, guard and params for Import, Style, Media, Keyframes, Supports, Page and Document; the guard must belong to the source's lock |
| CssRules.CloneReferencesOnlyDestination | components/style/stylesheets/mod.rs:296-354 | when the nested clones re-parent what they rebuild, the clone refers to the destination lock and no other |
| CssRules.ToCss | components/style/stylesheets/mod.rs:358-376 | the output is exactly what the rule's own kind's serializer writes for its data, with the same guard and writer; the guard must belong to the rule's lock |
| CssRules.CloneSerializesAlike | components/style/stylesheets/mod.rs:288-376 | given the per-kind guarantees, a clone read under its destination lock serializes exactly like its source |
| CssRules.MallocSizeOfChildren | components/style/stylesheets/mod.rs:112-155 | zero for every exempt kind whatever its data and guard; for Style, Media, Supports, Page and Document exactly the kind's own measurement of its data |
| CssRules.ExemptKinds | components/style/stylesheets/mod.rs:118-153 | the exempt kinds are exactly Namespace, Import, FontFace, FontFeatureValues, CounterStyle, Viewport and Keyframes |
| CssRules.CloneKeepsAccounting | components/style/stylesheets/mod.rs:112-155 | a clone of an exempt rule reports zero; a clone of a measured rule is measured by its kind on the cloned data |
| RuleParse.StartingParser | components/style/stylesheets/mod.rs:261-274 | a nested parse (no state) starts in Body, a given state is used as is; no hierarchy error is set; the sheet's origin, URL data, quirks mode, lock, loader and namespace table are used, with the default parsing mode |
| RuleParse.Parse | components/style/stylesheets/mod.rs:241-285 | success exactly when the rule parser yields a rule, returning it with the parser's final state; on failure Hierarchy exactly when the parser's hierarchy flag is set, Syntax otherwise; the namespace table is the parser's, with no rollback |
| RuleParse.NestedParseIsBodyParse | components/style/stylesheets/mod.rs:263-264 | parsing with no state is parsing from Body |
| RuleParse.ParseFailureAsMutateError | components/style/stylesheets/mod.rs:276-284 | a failed parse becomes SyntaxError or HierarchyRequestError, the latter exactly when the hierarchy flag was set |
| RuleParse.ParsedRuleUsesSharedLock | components/style/stylesheets/mod.rs:265-277 | when the rule parser wraps rules in the lock it is handed, a parsed rule is protected by the sheet's shared lock |

## Left out

- Concurrency of `SharedRwLock`: blocking, readers against writers, and the
  write guard held on the namespace table during `parse`.  A lock is an
  identity and a read guard a token naming it; a mismatched guard is a
  precondition, not a runtime assertion.
- `Arc` reference counting and allocation: handles are values, so a clone
  being a fresh allocation and aliasing between trees are not modelled; lock
  isolation is stated through the lock identities a rule refers to.
- The tokenizer, `parse_one_rule` and `TopLevelRuleParser` (their ordering
  checks and namespace registration) are not part of this model; their outcome
  is a function parameter.  The `NullReporter` error reporter is dropped, and
  the error value `parse_one_rule` returns is discarded, as the source does.
- The per-kind serializers, nested deep clones, memory measurements and
  `clone_conditionally_gecko_or_servo` are not part of this model; they are
  function parameters.  The allocator callback is a function from addresses to
  byte counts, and `usize` results are unbounded naturals (this layer adds
  nothing, so no overflow can arise here).
- The Gecko-only `UrlExtraData` helpers (`as_str`, `is_chrome`, `Eq`) and the
  module declarations and re-exports.
- CssRules.CloneReferencesOnlyDestination, CssRules.CloneSerializesAlike and
  RuleParse.ParsedRuleUsesSharedLock hold only under stated guarantees of the
  per-kind code, because that code is not part of this model.
- The ordering of `State` values and the scenarios that need the real rule
  parser (an `@import` after body content failing with Hierarchy, a parsed
  style rule reporting type Style) depend on code that is not part of this
  model.
