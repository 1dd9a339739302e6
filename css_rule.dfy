/**
 * CssRule: the closed sum of the twelve rule kinds, each holding a
 * lock-protected handle to its data, and the protocols every kind is wired
 * into: type identification, the parser state a kind moves to, deep cloning
 * under another lock, serialization and memory accounting.
 *
 * The per-kind code these protocols call (StyleRule::to_css,
 * MediaRule::deep_clone_with_lock, ...) lives outside this layer and is
 * passed in as a `RuleImpls` record; every contract below holds for any such
 * record, so it states only what the dispatch itself guarantees.
 */
module CssRules {
  import opened Wrappers
  import opened SharedLocks
  import T = CssRuleTypes

  /**
   * The data behind one handle (a NamespaceRule, a StyleRule, ...).  Its
   * fields belong to the per-kind modules and are opaque here; `innerLocks`
   * are the locks that wrap the handles nested inside it (the declaration
   * block of a style rule, the rule list of a media rule, ...).
   */
  datatype RuleData = RuleData(fields: seq<int>, innerLocks: set<LockId>)

  /** `Arc<Locked<XRule>>`. */
  type RuleHandle = Locked<RuleData>

  /** A CSS rule.  There is no Charset kind: CSSOM removed CSSCharsetRule. */
  datatype CssRule =
    | Namespace(handle: RuleHandle)
    | Import(handle: RuleHandle)
    | Style(handle: RuleHandle)
    | Media(handle: RuleHandle)
    | FontFace(handle: RuleHandle)
    | FontFeatureValues(handle: RuleHandle)
    | CounterStyle(handle: RuleHandle)
    | Viewport(handle: RuleHandle)
    | Keyframes(handle: RuleHandle)
    | Supports(handle: RuleHandle)
    | Page(handle: RuleHandle)
    | Document(handle: RuleHandle)

  /**
   * The ordering states of the top-level rule parser: imports come before
   * namespaces, and both before the body of the sheet.
   */
  datatype State = Start | Imports | Namespaces | Body

  /** The writer's failure (`fmt::Error`). */
  datatype FmtError = FmtError

  /** The allocator's size callback: bytes allocated at an address. */
  type MallocSizeOfFn = nat -> nat

  /**
   * The per-kind implementations, selected by rule type:
   * `deepClone` is `XRule::deep_clone_with_lock(lock, guard, params)`;
   * `backendClone` is `clone_conditionally_gecko_or_servo`;
   * `toCss` is `XRule::to_css(guard, dest)`, taking the writer's contents
   * and giving them back extended, or the writer's error;
   * `mallocSizeOfChildren` is `XRule::malloc_size_of_children(guard, f)`.
   */
  datatype RuleImpls = RuleImpls(
    deepClone: (T.CssRuleType, RuleData, SharedLock, ReadGuard, DeepCloneParams) -> RuleData,
    backendClone: (T.CssRuleType, RuleData) -> RuleData,
    toCss: (T.CssRuleType, RuleData, ReadGuard, string) -> Result<string, FmtError>,
    mallocSizeOfChildren: (T.CssRuleType, RuleData, ReadGuard, MallocSizeOfFn) -> nat)

  /** The data behind a rule's handle, as the per-kind code sees it. */
  function Data(r: CssRule): RuleData
  {
    r.handle.data
  }

  /** `guard` was issued by the lock that protects `r`'s handle. */
  predicate GuardFor(guard: ReadGuard, r: CssRule)
  {
    Guards(guard, r.handle)
  }

  // ----- Type identification -----

  /** The rule types CSSOM still lists but no rule of this engine has. */
  predicate Unrepresented(t: T.CssRuleType)
  {
    t == T.Charset || t == T.Keyframe || t == T.Margin
  }

  /** `CssRule::rule_type`: guard-free, the tag alone decides. */
  function RuleType(r: CssRule): (t: T.CssRuleType)
    ensures !Unrepresented(t)
  {
    match r
    case Style(_) => T.Style
    case Import(_) => T.Import
    case Media(_) => T.Media
    case FontFace(_) => T.FontFace
    case FontFeatureValues(_) => T.FontFeatureValues
    case CounterStyle(_) => T.CounterStyle
    case Keyframes(_) => T.Keyframes
    case Namespace(_) => T.Namespace
    case Viewport(_) => T.Viewport
    case Supports(_) => T.Supports
    case Page(_) => T.Page
    case Document(_) => T.Document
  }

  /** The rule of type `t` holding `handle`: the inverse of `RuleType`. */
  function RuleOfType(t: T.CssRuleType, handle: RuleHandle): (r: Option<CssRule>)
    ensures r.Some? <==> !Unrepresented(t)
    ensures r.Some? ==> RuleType(r.value) == t && r.value.handle == handle
  {
    match t
    case Style => Some(Style(handle))
    case Import => Some(Import(handle))
    case Media => Some(Media(handle))
    case FontFace => Some(FontFace(handle))
    case Page => Some(Page(handle))
    case Keyframes => Some(Keyframes(handle))
    case Namespace => Some(Namespace(handle))
    case CounterStyle => Some(CounterStyle(handle))
    case Supports => Some(Supports(handle))
    case Document => Some(Document(handle))
    case FontFeatureValues => Some(FontFeatureValues(handle))
    case Viewport => Some(Viewport(handle))
    case Charset => None
    case Keyframe => None
    case Margin => None
  }

  /** A rule is recovered from its type and its handle. */
  lemma RuleOfTypeRoundTrip(r: CssRule)
    ensures RuleOfType(RuleType(r), r.handle) == Some(r)
  {
  }

  /**
   * `rule_type` is injective over the variants: two rules that report the
   * same type and hold the same handle are the same rule.
   */
  lemma RuleTypeInjective(a: CssRule, b: CssRule)
    ensures RuleType(a) == RuleType(b) && a.handle == b.handle ==> a == b
  {
  }

  /**
   * `rule_type` reaches every type except Charset, Keyframe and Margin, and
   * never those three.
   */
  lemma RuleTypeImage(t: T.CssRuleType)
    ensures (exists r :: RuleType(r) == t) <==> !Unrepresented(t)
  {
    if !Unrepresented(t) {
      var r := RuleOfType(t, Locked(0, RuleData([], {}))).value;
      assert RuleType(r) == t;
    }
  }

  // ----- Parser state classification -----

  /** `CssRule::rule_state`: the parser state a rule of this kind moves to. */
  function RuleState(r: CssRule): (s: State)
    ensures s == Imports <==> r.Import?
    ensures s == Namespaces <==> r.Namespace?
    ensures s == Body <==> !r.Import? && !r.Namespace?
  {
    match r
    case Import(_) => Imports
    case Namespace(_) => Namespaces
    case _ => Body
  }

  /** Every rule moves the parser out of Start, and each later state is reachable. */
  lemma RuleStateImage(s: State)
    ensures (exists r :: RuleState(r) == s) <==> s != Start
  {
    var handle := Locked(0, RuleData([], {}));
    match s
    case Start =>
    case Imports => assert RuleState(Import(handle)) == s;
    case Namespaces => assert RuleState(Namespace(handle)) == s;
    case Body => assert RuleState(Style(handle)) == s;
  }

  // ----- Deep clone -----

  /** Kinds whose data is cloned as a plain value. */
  const ValueCopied: set<T.CssRuleType> := {T.Namespace, T.FontFeatureValues, T.Viewport}

  /** Kinds whose data picks its own clone strategy (plain copy or external peer). */
  const BackendCopied: set<T.CssRuleType> := {T.FontFace, T.CounterStyle}

  /** Kinds whose data is deep-cloned by the kind's own implementation. */
  const Delegated: set<T.CssRuleType> :=
    {T.Import, T.Style, T.Media, T.Keyframes, T.Supports, T.Page, T.Document}

  /** The three clone strategies split the twelve kinds between them. */
  lemma CloneStrategiesPartition(r: CssRule)
    ensures RuleType(r) in ValueCopied + BackendCopied + Delegated
    ensures ValueCopied !! BackendCopied && ValueCopied !! Delegated && BackendCopied !! Delegated
  {
  }

  /**
   * `CssRule::deep_clone_with_lock`: the same kind of rule, holding a new
   * handle wrapped by `lock`, whose data is copied or deep-cloned from the
   * source's as the kind's strategy says; nested clones receive the same
   * lock, source guard and params.
   */
  function DeepCloneWithLock(r: CssRule, lock: SharedLock, guard: ReadGuard,
                             params: DeepCloneParams, impls: RuleImpls): (c: CssRule)
    requires GuardFor(guard, r)
    ensures RuleType(c) == RuleType(r)
    ensures c.handle.lock == lock.id
    ensures RuleType(r) in ValueCopied ==> Data(c) == Data(r)
    ensures RuleType(r) in BackendCopied ==> Data(c) == impls.backendClone(RuleType(r), Data(r))
    ensures RuleType(r) in Delegated ==>
              Data(c) == impls.deepClone(RuleType(r), Data(r), lock, guard, params)
  {
    match r
    case Namespace(h) =>
      Namespace(Wrap(lock, ReadWith(h, guard)))
    case Import(h) =>
      Import(Wrap(lock, impls.deepClone(T.Import, ReadWith(h, guard), lock, guard, params)))
    case Style(h) =>
      Style(Wrap(lock, impls.deepClone(T.Style, ReadWith(h, guard), lock, guard, params)))
    case Media(h) =>
      Media(Wrap(lock, impls.deepClone(T.Media, ReadWith(h, guard), lock, guard, params)))
    case FontFace(h) =>
      FontFace(Wrap(lock, impls.backendClone(T.FontFace, ReadWith(h, guard))))
    case FontFeatureValues(h) =>
      FontFeatureValues(Wrap(lock, ReadWith(h, guard)))
    case CounterStyle(h) =>
      CounterStyle(Wrap(lock, impls.backendClone(T.CounterStyle, ReadWith(h, guard))))
    case Viewport(h) =>
      Viewport(Wrap(lock, ReadWith(h, guard)))
    case Keyframes(h) =>
      Keyframes(Wrap(lock, impls.deepClone(T.Keyframes, ReadWith(h, guard), lock, guard, params)))
    case Supports(h) =>
      Supports(Wrap(lock, impls.deepClone(T.Supports, ReadWith(h, guard), lock, guard, params)))
    case Page(h) =>
      Page(Wrap(lock, impls.deepClone(T.Page, ReadWith(h, guard), lock, guard, params)))
    case Document(h) =>
      Document(Wrap(lock, impls.deepClone(T.Document, ReadWith(h, guard), lock, guard, params)))
  }

  /** Every lock a rule refers to: its own handle's and those nested in its data. */
  function ReferencedLocks(r: CssRule): set<LockId>
  {
    {r.handle.lock} + Data(r).innerLocks
  }

  /** The per-kind deep clones wrap everything they rebuild in the lock they are given. */
  ghost predicate NestedClonesReparent(impls: RuleImpls)
  {
    forall t, d, l, g, p :: impls.deepClone(t, d, l, g, p).innerLocks <= {l.id}
  }

  /** The backend-chosen copies introduce no lock their source did not have. */
  ghost predicate BackendClonesAddNoLocks(impls: RuleImpls)
  {
    forall t, d :: impls.backendClone(t, d).innerLocks <= d.innerLocks
  }

  /** The kinds that are copied rather than deep-cloned hold no nested handles. */
  predicate CopiedDataUnlocked(r: CssRule)
  {
    RuleType(r) !in Delegated ==> Data(r).innerLocks == {}
  }

  /**
   * Lock isolation: when the per-kind clones re-parent what they rebuild,
   * the clone of a rule refers to the destination lock and to no other, so
   * in particular not to the source lock.
   */
  lemma CloneReferencesOnlyDestination(r: CssRule, lock: SharedLock, guard: ReadGuard,
                                       params: DeepCloneParams, impls: RuleImpls)
    requires GuardFor(guard, r)
    requires NestedClonesReparent(impls)
    requires BackendClonesAddNoLocks(impls)
    requires CopiedDataUnlocked(r)
    ensures ReferencedLocks(DeepCloneWithLock(r, lock, guard, params, impls)) == {lock.id}
  {
  }

  // ----- Serialization -----

  /**
   * `CssRule::to_css`: exactly what the serializer of the rule's own kind
   * writes for its data, under the same guard and into the same writer.
   */
  function ToCss(r: CssRule, guard: ReadGuard, dest: string, impls: RuleImpls)
    : (res: Result<string, FmtError>)
    requires GuardFor(guard, r)
    ensures res == impls.toCss(RuleType(r), Data(r), guard, dest)
  {
    match r
    case Namespace(h) => impls.toCss(T.Namespace, ReadWith(h, guard), guard, dest)
    case Import(h) => impls.toCss(T.Import, ReadWith(h, guard), guard, dest)
    case Style(h) => impls.toCss(T.Style, ReadWith(h, guard), guard, dest)
    case FontFace(h) => impls.toCss(T.FontFace, ReadWith(h, guard), guard, dest)
    case FontFeatureValues(h) => impls.toCss(T.FontFeatureValues, ReadWith(h, guard), guard, dest)
    case CounterStyle(h) => impls.toCss(T.CounterStyle, ReadWith(h, guard), guard, dest)
    case Viewport(h) => impls.toCss(T.Viewport, ReadWith(h, guard), guard, dest)
    case Keyframes(h) => impls.toCss(T.Keyframes, ReadWith(h, guard), guard, dest)
    case Media(h) => impls.toCss(T.Media, ReadWith(h, guard), guard, dest)
    case Supports(h) => impls.toCss(T.Supports, ReadWith(h, guard), guard, dest)
    case Page(h) => impls.toCss(T.Page, ReadWith(h, guard), guard, dest)
    case Document(h) => impls.toCss(T.Document, ReadWith(h, guard), guard, dest)
  }

  /**
   * What the per-kind code must guarantee for a clone to serialize like its
   * source: a kind copied as a value reads nothing through the guard, a
   * backend copy serializes like its source, and a nested deep clone read
   * under its new lock serializes like its source read under the old one.
   */
  ghost predicate ClonesSerializeAlike(impls: RuleImpls)
  {
    && (forall t, d, g, g', w | t in ValueCopied ::
          impls.toCss(t, d, g, w) == impls.toCss(t, d, g', w))
    && (forall t, d, g, g', w | t in BackendCopied ::
          impls.toCss(t, impls.backendClone(t, d), g', w) == impls.toCss(t, d, g, w))
    && (forall t, d, l, g, p, w | t in Delegated ::
          impls.toCss(t, impls.deepClone(t, d, l, g, p), Read(l), w) == impls.toCss(t, d, g, w))
  }

  /**
   * A clone, read under its destination lock, serializes exactly as its
   * source does under the source lock, given the per-kind guarantees above.
   */
  lemma CloneSerializesAlike(r: CssRule, lock: SharedLock, guard: ReadGuard,
                             params: DeepCloneParams, dest: string, impls: RuleImpls)
    requires GuardFor(guard, r)
    requires ClonesSerializeAlike(impls)
    ensures var c := DeepCloneWithLock(r, lock, guard, params, impls);
            GuardFor(Read(lock), c) && ToCss(c, Read(lock), dest, impls) == ToCss(r, guard, dest, impls)
  {
  }

  // ----- Memory accounting -----

  /** Kinds whose data is measured here; the others are measured elsewhere or not at all. */
  const Measured: set<T.CssRuleType> := {T.Style, T.Media, T.Supports, T.Page, T.Document}

  /**
   * `CssRule::malloc_size_of_children`: zero for the exempt kinds, whatever
   * their data, and exactly the kind's own measurement of its data for the
   * measured kinds.  Only the measured kinds read through the guard.
   */
  function MallocSizeOfChildren(r: CssRule, guard: ReadGuard, mallocSizeOf: MallocSizeOfFn,
                                impls: RuleImpls): (n: nat)
    requires RuleType(r) in Measured ==> GuardFor(guard, r)
    ensures RuleType(r) !in Measured ==> n == 0
    ensures RuleType(r) in Measured ==>
              n == impls.mallocSizeOfChildren(RuleType(r), Data(r), guard, mallocSizeOf)
  {
    match r
    case Namespace(_) => 0
    case Import(_) => 0
    case Style(h) => impls.mallocSizeOfChildren(T.Style, ReadWith(h, guard), guard, mallocSizeOf)
    case Media(h) => impls.mallocSizeOfChildren(T.Media, ReadWith(h, guard), guard, mallocSizeOf)
    case FontFace(_) => 0
    case FontFeatureValues(_) => 0
    case CounterStyle(_) => 0
    case Viewport(_) => 0
    case Keyframes(_) => 0
    case Supports(h) => impls.mallocSizeOfChildren(T.Supports, ReadWith(h, guard), guard, mallocSizeOf)
    case Page(h) => impls.mallocSizeOfChildren(T.Page, ReadWith(h, guard), guard, mallocSizeOf)
    case Document(h) => impls.mallocSizeOfChildren(T.Document, ReadWith(h, guard), guard, mallocSizeOf)
  }

  /**
   * The exemption table: exactly Namespace, Import, FontFace,
   * FontFeatureValues, CounterStyle, Viewport and Keyframes are exempt.
   */
  lemma ExemptKinds(r: CssRule)
    ensures RuleType(r) !in Measured <==>
              (r.Namespace? || r.Import? || r.FontFace? || r.FontFeatureValues? ||
               r.CounterStyle? || r.Viewport? || r.Keyframes?)
  {
  }

  /**
   * A deep clone stays on the same side of the exemption table: an exempt
   * rule's clone reports zero under any guard, a measured rule's clone is
   * measured by the same kind's accounting.
   */
  lemma CloneKeepsAccounting(r: CssRule, lock: SharedLock, guard: ReadGuard,
                             params: DeepCloneParams, mallocSizeOf: MallocSizeOfFn,
                             impls: RuleImpls, anyGuard: ReadGuard)
    requires GuardFor(guard, r)
    ensures var c := DeepCloneWithLock(r, lock, guard, params, impls);
            && (RuleType(r) !in Measured ==> MallocSizeOfChildren(c, anyGuard, mallocSizeOf, impls) == 0)
            && (RuleType(r) in Measured ==>
                  MallocSizeOfChildren(c, Read(lock), mallocSizeOf, impls) ==
                  impls.mallocSizeOfChildren(RuleType(r),
                    impls.deepClone(RuleType(r), Data(r), lock, guard, params), Read(lock), mallocSizeOf))
  {
  }
}
