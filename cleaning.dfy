/**
 * The multilingual filter adapter: a monolingual corpus filter lifted to sentence pairs.
 *
 * The adapter keeps one filter instance per language, created lazily by a factory, and
 * answers for a pair with the source-language filter AND the target-language filter. When
 * the filter type has an initializer, the adapter hands out pair initializers that open one
 * sub-initializer per language, feed them one line per side, and close them all at the end.
 *
 * The monolingual filters and their initializers are abstract: an instance is the id of the
 * factory call that made it (the factory is taken to return a new object each time), and the
 * `create`, `accept`, `clear`, `onBegin`, `onLine` and `onEnd` calls are recorded in a ghost
 * log. The `getInitializer` calls on filters are not recorded; only their outcome is modelled.
 */
module Cleaning {

  /** A language tag, compared by value (the key of both maps). */
  type Language = string

  /** The identity of one filter instance: the number of the factory call that made it. */
  type FilterId = nat

  /** The instance the constructor makes to probe for an initializer. */
  const ProbeId: FilterId := 0

  datatype StringPair = StringPair(sourceLanguage: Language, targetLanguage: Language, source: string, target: string)

  /** One call made on a monolingual filter or on one of its initializers. */
  datatype Call =
    | Probe(id: FilterId)                                         // factory.create() of the constructor
    | Create(lang: Language, id: FilterId)                        // factory.create() for a language
    | Accept(lang: Language, id: FilterId, text: string, index: int)
    | Clear(lang: Language, id: FilterId)
    | Begin(lang: Language, id: FilterId)                         // sub-initializer onBegin
    | Line(lang: Language, id: FilterId, text: string, index: int) // sub-initializer onLine
    | End(lang: Language, id: FilterId)                           // sub-initializer onEnd

  /** The call goes to the instance that `m` holds for the call's language. */
  ghost predicate Addressed(m: map<Language, FilterId>, c: Call) {
    !c.Probe? && c.lang in m && m[c.lang] == c.id
  }

  /** `m2` keeps every entry of `m1` unchanged. */
  ghost predicate Extends(m1: map<Language, FilterId>, m2: map<Language, FilterId>) {
    forall l :: l in m1 ==> l in m2 && m2[l] == m1[l]
  }

  // ---------------------------------------------------------------------------------------
  // Call order: an instance is opened once, and before any other call reaches it

  /** A call that opens an instance: its creation, or the onBegin of its initializer. */
  predicate Opens(c: Call) {
    c.Create? || c.Begin?
  }

  /** The opening call that has to come before `c` on the same instance. */
  function OpeningOf(c: Call): Call
    requires !c.Probe?
  {
    if c.Accept? || c.Clear? then Create(c.lang, c.id) else Begin(c.lang, c.id)
  }

  /** Whether `c` may follow the calls `before`. */
  ghost predicate Fits(before: seq<Call>, c: Call) {
    if c.Probe? then before == []
    else if Opens(c) then forall d :: d in before && Opens(d) ==> d.lang != c.lang
    else OpeningOf(c) in before
  }

  /** Every call of `calls` fits the calls before it. */
  ghost predicate OpenedFirst(calls: seq<Call>)
    decreases |calls|
  {
    calls == [] || (OpenedFirst(calls[..|calls| - 1]) && Fits(calls[..|calls| - 1], calls[|calls| - 1]))
  }

  lemma OpenedFirstSnoc(calls: seq<Call>, c: Call)
    ensures OpenedFirst(calls + [c]) <==> OpenedFirst(calls) && Fits(calls, c)
  {
    assert (calls + [c])[..|calls|] == calls;
  }

  /** No language is opened twice. */
  lemma {:induction false} OpenedOnce(calls: seq<Call>, i: nat, j: nat)
    requires OpenedFirst(calls) && i < j < |calls| && Opens(calls[i]) && Opens(calls[j])
    ensures calls[i].lang != calls[j].lang
    decreases |calls|
  {
    var init := calls[..|calls| - 1];
    if j == |calls| - 1 {
      assert calls[i] in init;
    } else {
      assert init[i] == calls[i] && init[j] == calls[j];
      OpenedOnce(init, i, j);
    }
  }

  /** Every call other than the probe and the openings comes after the opening of its instance. */
  lemma {:induction false} OpenedBefore(calls: seq<Call>, j: nat)
    requires OpenedFirst(calls) && j < |calls| && !calls[j].Probe? && !Opens(calls[j])
    ensures OpeningOf(calls[j]) in calls[..j]
    decreases |calls|
  {
    var init := calls[..|calls| - 1];
    if j < |calls| - 1 {
      assert init[j] == calls[j];
      OpenedBefore(init, j);
      assert init[..j] == calls[..j];
    }
  }

  /** The calls of `calls` that satisfy `keep`, in order. */
  function Select(calls: seq<Call>, keep: Call -> bool): seq<Call>
  {
    if calls == [] then []
    else
      var last := calls[|calls| - 1];
      Select(calls[..|calls| - 1], keep) + (if keep(last) then [last] else [])
  }

  lemma SelectSnoc(calls: seq<Call>, c: Call, keep: Call -> bool)
    ensures Select(calls + [c], keep) == Select(calls, keep) + (if keep(c) then [c] else [])
  {
    assert (calls + [c])[..|calls|] == calls;
  }

  function IsAccept(c: Call): bool { c.Accept? }

  function IsLine(c: Call): bool { c.Line? }

  // ---------------------------------------------------------------------------------------
  // The filter map, as a value

  /** The adapter's state: the filter map, the factory's next id, and the calls made so far. */
  datatype Registry = Registry(filters: map<Language, FilterId>, next: FilterId, log: seq<Call>)

  /** The state right after the constructor: one probe instance, kept nowhere. */
  function Initial(): Registry {
    Registry(map[], ProbeId + 1, [Probe(ProbeId)])
  }

  /** Every stored instance is a product of the factory, never the probe. */
  ghost predicate IdsIssued(r: Registry) {
    ProbeId < r.next && forall l :: l in r.filters ==> ProbeId < r.filters[l] < r.next
  }

  /** Distinct languages hold instances from distinct factory calls. */
  ghost predicate OneInstanceEach(m: map<Language, FilterId>) {
    forall l, l' :: l in m && l' in m && l != l' ==> m[l] != m[l']
  }

  /**
   * The probe comes first, and every later call is a creation, an accept or a clear on the
   * stored instance of its language.
   */
  ghost predicate LogAddressed(r: Registry) {
    && |r.log| > 0 && r.log[0] == Probe(ProbeId)
    && forall c :: c in r.log ==> c.Probe? || ((c.Create? || c.Accept? || c.Clear?) && Addressed(r.filters, c))
  }

  /** Every stored instance was created. */
  ghost predicate AllCreated(r: Registry) {
    forall l :: l in r.filters ==> Create(l, r.filters[l]) in r.log
  }

  /**
   * The adapter's invariant: the parts above, and the log is in call order (each language
   * created once, each instance before any use).
   */
  ghost predicate Good(r: Registry) {
    IdsIssued(r) && OneInstanceEach(r.filters) && LogAddressed(r) && AllCreated(r) && OpenedFirst(r.log)
  }

  lemma InitialGood()
    ensures Good(Initial())
  {
    OpenedFirstSnoc([], Probe(ProbeId));
  }

  /** An accept or clear on a stored instance keeps the invariant. */
  lemma GoodAppend(r: Registry, c: Call)
    requires Good(r) && (c.Accept? || c.Clear?) && Addressed(r.filters, c)
    ensures Good(r.(log := r.log + [c]))
  {
    assert Create(c.lang, c.id) in r.log;
    OpenedFirstSnoc(r.log, c);
  }

  /** The factory's next instance, stored for `lang` and logged. */
  function Created(r: Registry, lang: Language): Registry {
    Registry(r.filters[lang := r.next], r.next + 1, r.log + [Create(lang, r.next)])
  }

  datatype Obtained = Obtained(reg: Registry, id: FilterId)

  /** `filters.computeIfAbsent(lang, l -> factory.create())`. */
  function Obtain(r: Registry, lang: Language): Obtained {
    if lang in r.filters then Obtained(r, r.filters[lang]) else Obtained(Created(r, lang), r.next)
  }

  lemma CreatedAddressed(r: Registry, lang: Language)
    requires LogAddressed(r) && lang !in r.filters
    ensures LogAddressed(Created(r, lang))
  {
    var r' := Created(r, lang);
    forall d | d in r'.log
      ensures d.Probe? || ((d.Create? || d.Accept? || d.Clear?) && Addressed(r'.filters, d))
    {
      if d != Create(lang, r.next) {
        assert d in r.log;
      }
    }
    assert r'.log[0] == r.log[0];
  }

  lemma CreatedAllCreated(r: Registry, lang: Language)
    requires AllCreated(r)
    ensures AllCreated(Created(r, lang))
  {
    var r' := Created(r, lang);
    forall l | l in r'.filters
      ensures Create(l, r'.filters[l]) in r'.log
    {
      if l != lang {
        assert Create(l, r.filters[l]) in r.log;
      }
    }
  }

  lemma CreatedInOrder(r: Registry, lang: Language)
    requires LogAddressed(r) && OpenedFirst(r.log) && lang !in r.filters
    ensures OpenedFirst(Created(r, lang).log)
  {
    var c := Create(lang, r.next);
    OpenedFirstSnoc(r.log, c);
    forall d | d in r.log && Opens(d)
      ensures d.lang != lang
    {
      assert Addressed(r.filters, d);
    }
  }

  /** Storing a fresh instance for a new language, and logging its creation, keeps the invariant. */
  lemma CreateGood(r: Registry, lang: Language)
    requires Good(r) && lang !in r.filters
    ensures Good(Created(r, lang))
  {
    CreatedAddressed(r, lang);
    CreatedAllCreated(r, lang);
    CreatedInOrder(r, lang);
    var m := Created(r, lang).filters;
    forall l, l' | l in m && l' in m && l != l'
      ensures m[l] != m[l']
    {
      if l != lang && l' != lang {
        assert m[l] == r.filters[l] && m[l'] == r.filters[l'];
      }
    }
  }

  /**
   * Obtaining a language's filter returns the stored instance when there is one and changes
   * nothing; otherwise it stores a fresh instance, never the probe and never one stored for
   * another language, and logs its creation. The invariant is kept.
   */
  lemma ObtainGood(r: Registry, lang: Language)
    requires Good(r)
    ensures var o := Obtain(r, lang);
      && Good(o.reg)
      && Extends(r.filters, o.reg.filters)
      && o.reg.filters.Keys == r.filters.Keys + {lang}
      && o.reg.filters[lang] == o.id
      && (lang in r.filters ==> o.reg == r)
      && (lang !in r.filters ==>
            && o.id != ProbeId
            && (forall l :: l in r.filters ==> r.filters[l] != o.id)
            && o.reg.next == r.next + 1
            && o.reg.log == r.log + [Create(lang, o.id)])
  {
    if lang !in r.filters {
      CreateGood(r, lang);
    }
  }

  /** Obtaining a filter asks no filter anything. */
  lemma ObtainAsksNothing(r: Registry, lang: Language)
    ensures Select(Obtain(r, lang).reg.log, IsAccept) == Select(r.log, IsAccept)
  {
    if lang !in r.filters {
      SelectSnoc(r.log, Create(lang, r.next), IsAccept);
    }
  }

  // ---------------------------------------------------------------------------------------
  // accept

  datatype Verdict = Verdict(reg: Registry, accepted: bool)

  /**
   * `accept(pair, index)`: obtain the source-language filter, then the target-language
   * filter, then ask the source filter and, only if it accepts, the target filter.
   * `decide(id, lang, text, index)` is the answer instance `id` gives at this call.
   */
  function AcceptPair(r: Registry, pair: StringPair, index: int,
                      decide: (FilterId, Language, string, int) -> bool): Verdict
  {
    var s := Obtain(r, pair.sourceLanguage);
    var t := Obtain(s.reg, pair.targetLanguage);
    var asked := t.reg.log + [Accept(pair.sourceLanguage, s.id, pair.source, index)];
    if decide(s.id, pair.sourceLanguage, pair.source, index) then
      Verdict(t.reg.(log := asked + [Accept(pair.targetLanguage, t.id, pair.target, index)]),
              decide(t.id, pair.targetLanguage, pair.target, index))
    else
      Verdict(t.reg.(log := asked), false)
  }

  /** `accept` keeps the invariant. */
  lemma AcceptPairGood(r: Registry, pair: StringPair, index: int,
                       decide: (FilterId, Language, string, int) -> bool)
    requires Good(r)
    ensures Good(AcceptPair(r, pair, index, decide).reg)
  {
    var s := Obtain(r, pair.sourceLanguage);
    ObtainGood(r, pair.sourceLanguage);
    var t := Obtain(s.reg, pair.targetLanguage);
    ObtainGood(s.reg, pair.targetLanguage);
    var a := Accept(pair.sourceLanguage, s.id, pair.source, index);
    assert Addressed(t.reg.filters, a);
    GoodAppend(t.reg, a);
    var asked := t.reg.(log := t.reg.log + [a]);
    if decide(s.id, pair.sourceLanguage, pair.source, index) {
      var b := Accept(pair.targetLanguage, t.id, pair.target, index);
      GoodAppend(asked, b);
    }
  }

  /**
   * `accept` only adds languages (both sides' languages are stored afterwards), and calls
   * the factory exactly once per language it had not seen before, so a pair whose two
   * sides share a language makes at most one instance.
   */
  lemma AcceptPairCreates(r: Registry, pair: StringPair, index: int,
                          decide: (FilterId, Language, string, int) -> bool)
    ensures var v := AcceptPair(r, pair, index, decide);
      && Extends(r.filters, v.reg.filters)
      && v.reg.filters.Keys == r.filters.Keys + {pair.sourceLanguage, pair.targetLanguage}
      && v.reg.next == r.next + (if pair.sourceLanguage in r.filters then 0 else 1)
                              + (if pair.targetLanguage in r.filters || pair.targetLanguage == pair.sourceLanguage
                                 then 0 else 1)
  {
    var s := Obtain(r, pair.sourceLanguage);
    var t := Obtain(s.reg, pair.targetLanguage);
    var v := AcceptPair(r, pair, index, decide);
    assert v.reg.filters == t.reg.filters && v.reg.next == t.reg.next;
  }

  /**
   * A pair is accepted iff the source-language filter accepts the source text and the
   * target-language filter accepts the target text, both at the pair's index.
   */
  lemma AcceptBothSides(r: Registry, pair: StringPair, index: int,
                        decide: (FilterId, Language, string, int) -> bool)
    requires Good(r)
    ensures var v := AcceptPair(r, pair, index, decide);
      && pair.sourceLanguage in v.reg.filters && pair.targetLanguage in v.reg.filters
      && (v.accepted <==>
            decide(v.reg.filters[pair.sourceLanguage], pair.sourceLanguage, pair.source, index) &&
            decide(v.reg.filters[pair.targetLanguage], pair.targetLanguage, pair.target, index))
  {
    ObtainGood(r, pair.sourceLanguage);
    ObtainGood(Obtain(r, pair.sourceLanguage).reg, pair.targetLanguage);
  }

  /**
   * The `accept` calls reaching the filters: the source filter is always asked, and the
   * target filter is asked afterwards only when the source filter accepted (the target
   * filter is created either way).
   */
  lemma AcceptShortCircuit(r: Registry, pair: StringPair, index: int,
                           decide: (FilterId, Language, string, int) -> bool)
    requires Good(r)
    ensures var v := AcceptPair(r, pair, index, decide);
      && pair.sourceLanguage in v.reg.filters && pair.targetLanguage in v.reg.filters
      && var s := v.reg.filters[pair.sourceLanguage];
         var t := v.reg.filters[pair.targetLanguage];
         Select(v.reg.log, IsAccept) ==
           Select(r.log, IsAccept) + [Accept(pair.sourceLanguage, s, pair.source, index)] +
           (if decide(s, pair.sourceLanguage, pair.source, index)
            then [Accept(pair.targetLanguage, t, pair.target, index)] else [])
  {
    var o1 := Obtain(r, pair.sourceLanguage);
    ObtainGood(r, pair.sourceLanguage);
    ObtainAsksNothing(r, pair.sourceLanguage);
    var o2 := Obtain(o1.reg, pair.targetLanguage);
    ObtainGood(o1.reg, pair.targetLanguage);
    ObtainAsksNothing(o1.reg, pair.targetLanguage);
    var a := Accept(pair.sourceLanguage, o1.id, pair.source, index);
    SelectSnoc(o2.reg.log, a, IsAccept);
    if decide(o1.id, pair.sourceLanguage, pair.source, index) {
      SelectSnoc(o2.reg.log + [a], Accept(pair.targetLanguage, o2.id, pair.target, index), IsAccept);
    }
  }

  // ---------------------------------------------------------------------------------------
  // Fanning a call out over a map (clear, and the initializers' onEnd)

  datatype Notice = ClearFilter | EndInitializer

  function Notify(kind: Notice, lang: Language, id: FilterId): Call {
    match kind
    case ClearFilter => Clear(lang, id)
    case EndInitializer => End(lang, id)
  }

  /** The calls made by visiting the languages of `m` in the order `order`. */
  function Fanout(order: seq<Language>, m: map<Language, FilterId>, kind: Notice): seq<Call>
    requires forall l :: l in order ==> l in m
  {
    if order == [] then []
    else
      var last := order[|order| - 1];
      Fanout(order[..|order| - 1], m, kind) + [Notify(kind, last, m[last])]
  }

  ghost predicate NoDuplicates(order: seq<Language>) {
    forall i, j :: 0 <= i < j < |order| ==> order[i] != order[j]
  }

  /** `order` is an iteration order of the key set `keys`: each key exactly once. */
  ghost predicate Enumerates(order: seq<Language>, keys: set<Language>) {
    NoDuplicates(order) && forall l :: l in order <==> l in keys
  }

  lemma {:induction false} FanoutCounts(order: seq<Language>, m: map<Language, FilterId>, kind: Notice)
    requires NoDuplicates(order) && forall l :: l in order ==> l in m
    ensures forall c :: c in Fanout(order, m, kind) ==>
      Addressed(m, c) && c == Notify(kind, c.lang, c.id)
    ensures forall l :: l in m ==>
      multiset(Fanout(order, m, kind))[Notify(kind, l, m[l])] == if l in order then 1 else 0
  {
    if order != [] {
      var init := order[..|order| - 1];
      var last := order[|order| - 1];
      assert forall l :: l in init ==> l in order;
      FanoutCounts(init, m, kind);
      forall k | 0 <= k < |init|
        ensures init[k] != last
      {
        assert init[k] == order[k];
      }
      assert forall l :: l in order <==> l in init || l == last;
    }
  }

  /**
   * Visiting every key of `m` once makes exactly one call on each instance of `m`, and no
   * call on anything else.
   */
  lemma FanoutExactlyOnce(order: seq<Language>, m: map<Language, FilterId>, kind: Notice)
    requires Enumerates(order, m.Keys)
    ensures forall c :: c in Fanout(order, m, kind) ==> Addressed(m, c) && c == Notify(kind, c.lang, c.id)
    ensures forall l :: l in m ==> multiset(Fanout(order, m, kind))[Notify(kind, l, m[l])] == 1
  {
    FanoutCounts(order, m, kind);
  }

  /**
   * The loop `for (x : m.values()) x.call()`: one `kind` call on each instance of `m`, in the
   * map's iteration order, which is not fixed; `order` is the order taken, `calls` the calls made.
   */
  method VisitAll(m: map<Language, FilterId>, kind: Notice) returns (ghost order: seq<Language>, ghost calls: seq<Call>)
    ensures Enumerates(order, m.Keys)
    ensures calls == Fanout(order, m, kind)
  {
    var rest := m.Keys;
    order := [];
    calls := [];
    while rest != {}
      invariant forall l :: l in m <==> l in rest || l in order
      invariant forall l :: l in order ==> l !in rest
      invariant NoDuplicates(order)
      invariant calls == Fanout(order, m, kind)
      decreases rest
    {
      var l :| l in rest;
      calls := calls + [Notify(kind, l, m[l])];
      ghost var visited := order;
      order := order + [l];
      assert order[..|order| - 1] == visited;
      rest := rest - {l};
    }
  }

  /** `clear()`: call `clear` on every stored filter, in some iteration order `order`. */
  function ClearAll(r: Registry, order: seq<Language>): Registry
    requires forall l :: l in order ==> l in r.filters
  {
    r.(log := r.log + Fanout(order, r.filters, ClearFilter))
  }

  /** `clear` keeps the invariant and the filter map (so its key set) as they were. */
  lemma {:induction false} ClearAllGood(r: Registry, order: seq<Language>)
    requires Good(r) && forall l :: l in order ==> l in r.filters
    ensures Good(ClearAll(r, order)) && ClearAll(r, order).filters == r.filters
  {
    if order != [] {
      var init := order[..|order| - 1];
      var last := order[|order| - 1];
      assert forall l :: l in init ==> l in order;
      ClearAllGood(r, init);
      var c := Clear(last, r.filters[last]);
      GoodAppend(ClearAll(r, init), c);
      assert ClearAll(r, order) == ClearAll(r, init).(log := ClearAll(r, init).log + [c]);
      assert Good(ClearAll(r, order));
    } else {
      assert ClearAll(r, order) == r;
    }
  }

  /**
   * `clear` calls `clear` exactly once on every stored filter and on nothing else, and leaves
   * the filter map and the factory alone.
   */
  lemma ClearReachesEveryFilter(r: Registry, order: seq<Language>)
    requires Enumerates(order, r.filters.Keys)
    ensures var r' := ClearAll(r, order);
      && r'.filters == r.filters && r'.next == r.next
      && |r.log| <= |r'.log| && r'.log[..|r.log|] == r.log
      && (forall c :: c in r'.log[|r.log|..] ==> c.Clear? && Addressed(r.filters, c))
      && (forall l :: l in r.filters ==> multiset(r'.log[|r.log|..])[Clear(l, r.filters[l])] == 1)
  {
    var r' := ClearAll(r, order);
    assert r'.log[|r.log|..] == Fanout(order, r.filters, ClearFilter);
    assert r'.log[..|r.log|] == r.log;
    FanoutExactlyOnce(order, r.filters, ClearFilter);
  }

  // ---------------------------------------------------------------------------------------
  // The pair initializer, as a value

  /** One pair initializer: its language -> sub-initializer map, and the calls made on them. */
  datatype Session = Session(initializers: map<Language, FilterId>, trace: seq<Call>)

  /** Every call is a begin, a line or an end on the sub-initializer stored for its language. */
  ghost predicate TraceAddressed(s: Session) {
    forall c :: c in s.trace ==> (c.Begin? || c.Line? || c.End?) && Addressed(s.initializers, c)
  }

  /** Every stored sub-initializer has been begun. */
  ghost predicate AllBegun(s: Session) {
    forall l :: l in s.initializers ==> Begin(l, s.initializers[l]) in s.trace
  }

  /**
   * The pair initializer's invariant: the parts above, and the trace is in call order (each
   * language begun once, before any line or end).
   */
  ghost predicate Opened(s: Session) {
    TraceAddressed(s) && AllBegun(s) && OpenedFirst(s.trace)
  }

  /** A line or an end on a begun sub-initializer keeps the invariant. */
  lemma OpenedAppend(s: Session, c: Call)
    requires Opened(s) && (c.Line? || c.End?) && Addressed(s.initializers, c)
    ensures Opened(s.(trace := s.trace + [c]))
  {
    assert Begin(c.lang, c.id) in s.trace;
    OpenedFirstSnoc(s.trace, c);
  }

  /** `createInitializer(lang)` as seen by the pair initializer: store and begin `id`. */
  function Begun(s: Session, lang: Language, id: FilterId): Session {
    Session(s.initializers[lang := id], s.trace + [Begin(lang, id)])
  }

  lemma BegunAddressed(s: Session, lang: Language, id: FilterId)
    requires TraceAddressed(s) && lang !in s.initializers
    ensures TraceAddressed(Begun(s, lang, id))
  {
    var s' := Begun(s, lang, id);
    forall d | d in s'.trace
      ensures (d.Begin? || d.Line? || d.End?) && Addressed(s'.initializers, d)
    {
      if d != Begin(lang, id) {
        assert d in s.trace;
      }
    }
  }

  lemma BegunAllBegun(s: Session, lang: Language, id: FilterId)
    requires AllBegun(s)
    ensures AllBegun(Begun(s, lang, id))
  {
    var s' := Begun(s, lang, id);
    forall l | l in s'.initializers
      ensures Begin(l, s'.initializers[l]) in s'.trace
    {
      if l != lang {
        assert Begin(l, s.initializers[l]) in s.trace;
      }
    }
  }

  lemma BegunInOrder(s: Session, lang: Language, id: FilterId)
    requires TraceAddressed(s) && OpenedFirst(s.trace) && lang !in s.initializers
    ensures OpenedFirst(Begun(s, lang, id).trace)
  {
    OpenedFirstSnoc(s.trace, Begin(lang, id));
    forall d | d in s.trace && Opens(d)
      ensures d.lang != lang
    {
      assert Addressed(s.initializers, d);
    }
  }

  /**
   * One side of `onPair`: `initializers.computeIfAbsent(lang, createInitializer)` followed
   * by `onLine(lang, text, index)`. A language seen for the first time gets the
   * sub-initializer of filter `id`, which is begun on the spot.
   */
  function Feed(s: Session, lang: Language, id: FilterId, text: string, index: int): Session {
    var t := if lang in s.initializers then s else Begun(s, lang, id);
    t.(trace := t.trace + [Line(lang, t.initializers[lang], text, index)])
  }

  /**
   * Feeding a line keeps every stored sub-initializer, adds the line's language if it was
   * new, with the sub-initializer of `id`, and nothing else.
   */
  lemma FeedStores(s: Session, lang: Language, id: FilterId, text: string, index: int)
    ensures var s' := Feed(s, lang, id, text, index);
      && Extends(s.initializers, s'.initializers)
      && s'.initializers.Keys == s.initializers.Keys + {lang}
      && s'.initializers[lang] == if lang in s.initializers then s.initializers[lang] else id
  {
  }

  /** Feeding a line keeps the invariant. */
  lemma FeedOpened(s: Session, lang: Language, id: FilterId, text: string, index: int)
    requires Opened(s)
    ensures Opened(Feed(s, lang, id, text, index))
  {
    if lang in s.initializers {
      var line := Line(lang, s.initializers[lang], text, index);
      OpenedAppend(s, line);
      assert Feed(s, lang, id, text, index) == s.(trace := s.trace + [line]);
    } else {
      var b := Begun(s, lang, id);
      var line := Line(lang, id, text, index);
      BegunAddressed(s, lang, id);
      BegunAllBegun(s, lang, id);
      BegunInOrder(s, lang, id);
      OpenedAppend(b, line);
      assert Feed(s, lang, id, text, index) == b.(trace := b.trace + [line]);
    }
  }

  /**
   * `createInitializer` takes the sub-initializer of the adapter's filter for the language, so
   * feeding a side obtains that filter from the adapter: both invariants are kept, and every
   * sub-initializer still belongs to the adapter's filter for its language.
   */
  lemma FeedFollowsObtain(s: Session, r: Registry, lang: Language, text: string, index: int)
    requires Opened(s) && Good(r) && Extends(s.initializers, r.filters)
    ensures var o := Obtain(r, lang);
      var s' := Feed(s, lang, o.id, text, index);
      && Opened(s') && Good(o.reg)
      && Extends(r.filters, o.reg.filters) && Extends(s'.initializers, o.reg.filters)
      && lang in o.reg.filters && o.reg.filters[lang] == o.id
      && (lang in s.initializers ==> o.reg == r && o.id == s.initializers[lang])
  {
    var o := Obtain(r, lang);
    ObtainGood(r, lang);
    FeedOpened(s, lang, o.id, text, index);
    FeedStores(s, lang, o.id, text, index);
    var s' := Feed(s, lang, o.id, text, index);
    forall l | l in s'.initializers
      ensures l in o.reg.filters && o.reg.filters[l] == s'.initializers[l]
    {
      if l != lang {
        assert l in s.initializers;
      }
    }
  }

  /** The lines of a trace after one `Feed`: the old ones and the new one. */
  lemma FeedLines(s: Session, lang: Language, id: FilterId, text: string, index: int)
    ensures var s' := Feed(s, lang, id, text, index);
      && lang in s'.initializers
      && Select(s'.trace, IsLine) == Select(s.trace, IsLine) + [Line(lang, s'.initializers[lang], text, index)]
  {
    var s' := Feed(s, lang, id, text, index);
    var line := Line(lang, s'.initializers[lang], text, index);
    if lang in s.initializers {
      SelectSnoc(s.trace, line, IsLine);
    } else {
      SelectSnoc(s.trace, Begin(lang, id), IsLine);
      SelectSnoc(Begun(s, lang, id).trace, line, IsLine);
    }
  }


  /**
   * `onPair` feeds the source text to the source language's sub-initializer and then the
   * target text to the target language's, both with the pair's index.
   */
  lemma PairFeedsBothSides(s: Session, pair: StringPair, index: int, sourceId: FilterId, targetId: FilterId)
    ensures var s' := Feed(Feed(s, pair.sourceLanguage, sourceId, pair.source, index),
                           pair.targetLanguage, targetId, pair.target, index);
      && pair.sourceLanguage in s'.initializers && pair.targetLanguage in s'.initializers
      && Select(s'.trace, IsLine) ==
           Select(s.trace, IsLine) +
           [Line(pair.sourceLanguage, s'.initializers[pair.sourceLanguage], pair.source, index),
            Line(pair.targetLanguage, s'.initializers[pair.targetLanguage], pair.target, index)]
  {
    var s1 := Feed(s, pair.sourceLanguage, sourceId, pair.source, index);
    FeedLines(s, pair.sourceLanguage, sourceId, pair.source, index);
    var s2 := Feed(s1, pair.targetLanguage, targetId, pair.target, index);
    FeedLines(s1, pair.targetLanguage, targetId, pair.target, index);
    assert s2.initializers[pair.sourceLanguage] == s1.initializers[pair.sourceLanguage];
  }

  /** `onEnd()`: call `onEnd` on every opened sub-initializer, in some iteration order. */
  function EndAll(s: Session, order: seq<Language>): Session
    requires forall l :: l in order ==> l in s.initializers
  {
    s.(trace := s.trace + Fanout(order, s.initializers, EndInitializer))
  }

  /** `onEnd` keeps the invariant and the initializer map. */
  lemma {:induction false} EndAllOpened(s: Session, order: seq<Language>)
    requires Opened(s) && forall l :: l in order ==> l in s.initializers
    ensures Opened(EndAll(s, order)) && EndAll(s, order).initializers == s.initializers
  {
    if order != [] {
      var init := order[..|order| - 1];
      var last := order[|order| - 1];
      assert forall l :: l in init ==> l in order;
      EndAllOpened(s, init);
      var c := End(last, s.initializers[last]);
      OpenedAppend(EndAll(s, init), c);
      assert EndAll(s, order) == EndAll(s, init).(trace := EndAll(s, init).trace + [c]);
    } else {
      assert EndAll(s, order) == s;
    }
  }

  /**
   * `onEnd` calls `onEnd` exactly once on every sub-initializer this initializer opened and on
   * no other.
   */
  lemma EndReachesEveryInitializer(s: Session, order: seq<Language>)
    requires Enumerates(order, s.initializers.Keys)
    ensures var s' := EndAll(s, order);
      && s'.initializers == s.initializers
      && |s.trace| <= |s'.trace| && s'.trace[..|s.trace|] == s.trace
      && (forall c :: c in s'.trace[|s.trace|..] ==> c.End? && Addressed(s.initializers, c))
      && (forall l :: l in s.initializers ==> multiset(s'.trace[|s.trace|..])[End(l, s.initializers[l])] == 1)
  {
    var s' := EndAll(s, order);
    assert s'.trace[|s.trace|..] == Fanout(order, s.initializers, EndInitializer);
    assert s'.trace[..|s.trace|] == s.trace;
    FanoutExactlyOnce(order, s.initializers, EndInitializer);
  }

  // ---------------------------------------------------------------------------------------
  // The objects

  class MultilingualCorpusFilterAdapter {
    /** Whether the probe instance made by the constructor had an initializer. */
    const hasInitializer: bool
    var filters: map<Language, FilterId>
    /** The id the factory gives its next instance. */
    var next: FilterId
    ghost var log: seq<Call>

    ghost function Reg(): Registry
      reads this
    {
      Registry(filters, next, log)
    }

    ghost predicate Valid()
      reads this
    {
      Good(Reg())
    }

    /** The factory constructor: it probes one instance for an initializer and stores nothing. */
    constructor (probeHasInitializer: bool)
      ensures Valid() && Reg() == Initial() && hasInitializer == probeHasInitializer
    {
      hasInitializer := probeHasInitializer;
      filters := map[];
      next := ProbeId + 1;
      log := [Probe(ProbeId)];
      InitialGood();
    }

    /** `filters.computeIfAbsent(lang, l -> factory.create())`. */
    method FilterFor(lang: Language) returns (id: FilterId)
      requires Valid()
      modifies this
      ensures Valid() && Obtained(Reg(), id) == Obtain(old(Reg()), lang)
      ensures Extends(old(filters), filters) && lang in filters && filters[lang] == id
    {
      ObtainGood(Reg(), lang);
      if lang in filters {
        id := filters[lang];
      } else {
        id := next;
        next := next + 1;
        filters := filters[lang := id];
        log := log + [Create(lang, id)];
      }
    }

    method GetInitializer() returns (init: PairInitializer?)
      ensures init == null <==> !hasInitializer
      ensures init != null ==> fresh(init) && init.adapter == this && init.View() == Session(map[], [])
      ensures init != null ==> init.Valid()
    {
      if !hasInitializer {
        return null;
      }
      init := new PairInitializer(this);
    }

    /** `decide(id, lang, text, index)` is the answer filter `id` gives when asked now. */
    method Accept(pair: StringPair, index: int, decide: (FilterId, Language, string, int) -> bool)
      returns (accepted: bool)
      requires Valid()
      modifies this
      ensures Valid() && Verdict(Reg(), accepted) == AcceptPair(old(Reg()), pair, index, decide)
      ensures Extends(old(filters), filters)
    {
      ghost var before := Reg();
      var sourceFilter := FilterFor(pair.sourceLanguage);
      var targetFilter := FilterFor(pair.targetLanguage);
      log := log + [Call.Accept(pair.sourceLanguage, sourceFilter, pair.source, index)];
      accepted := decide(sourceFilter, pair.sourceLanguage, pair.source, index);
      if accepted {
        log := log + [Call.Accept(pair.targetLanguage, targetFilter, pair.target, index)];
        accepted := decide(targetFilter, pair.targetLanguage, pair.target, index);
      }
      AcceptPairGood(before, pair, index, decide);
    }

    /** The map's iteration order is not fixed: `order` is the one this call used. */
    method Clear() returns (ghost order: seq<Language>)
      requires Valid()
      modifies this
      ensures filters == old(filters) && Enumerates(order, filters.Keys)
      ensures Valid() && Reg() == ClearAll(old(Reg()), order)
    {
      ghost var calls;
      order, calls := VisitAll(filters, ClearFilter);
      log := log + calls;
      ClearAllGood(old(Reg()), order);
    }
  }

  /** The initializer `getInitializer` returns: it opens one sub-initializer per language. */
  class PairInitializer {
    const adapter: MultilingualCorpusFilterAdapter
    var initializers: map<Language, FilterId>
    ghost var trace: seq<Call>

    ghost function View(): Session
      reads this
    {
      Session(initializers, trace)
    }

    /** The protocol invariant, and every sub-initializer belongs to the adapter's filter. */
    ghost predicate Valid()
      reads this, adapter
    {
      Opened(View()) && Extends(initializers, adapter.filters)
    }

    constructor (adapter: MultilingualCorpusFilterAdapter)
      ensures this.adapter == adapter && View() == Session(map[], []) && Valid()
    {
      this.adapter := adapter;
      initializers := map[];
      trace := [];
    }

    /** Nothing to do. */
    method OnBegin()
    {
    }

    /** One side of `onPair`, with `createInitializer` inlined. */
    method FeedSide(lang: Language, text: string, index: int)
      requires Valid() && adapter.Valid()
      modifies this, adapter
      ensures Valid() && adapter.Valid()
      ensures adapter.Reg() == Obtain(old(adapter.Reg()), lang).reg
      ensures Extends(old(adapter.filters), adapter.filters) && lang in adapter.filters
      ensures View() == Feed(old(View()), lang, adapter.filters[lang], text, index)
    {
      ghost var before := View();
      ghost var o := Obtain(adapter.Reg(), lang);
      FeedFollowsObtain(before, adapter.Reg(), lang, text, index);
      var id;
      if lang in initializers {
        id := initializers[lang];
      } else {
        id := adapter.FilterFor(lang);
        trace := trace + [Begin(lang, id)];
        initializers := initializers[lang := id];
      }
      trace := trace + [Line(lang, id, text, index)];
      assert adapter.Reg() == o.reg && id == o.id;
      assert View() == Feed(before, lang, id, text, index);
    }

    method OnPair(pair: StringPair, index: int)
      requires Valid() && adapter.Valid()
      modifies this, adapter
      ensures Valid() && adapter.Valid()
      ensures adapter.Reg() == Obtain(Obtain(old(adapter.Reg()), pair.sourceLanguage).reg, pair.targetLanguage).reg
      ensures Extends(old(adapter.filters), adapter.filters)
      ensures pair.sourceLanguage in adapter.filters && pair.targetLanguage in adapter.filters
      ensures View() ==
        Feed(Feed(old(View()), pair.sourceLanguage, adapter.filters[pair.sourceLanguage], pair.source, index),
             pair.targetLanguage, adapter.filters[pair.targetLanguage], pair.target, index)
    {
      FeedSide(pair.sourceLanguage, pair.source, index);
      FeedSide(pair.targetLanguage, pair.target, index);
    }

    /** The map's iteration order is not fixed: `order` is the one this call used. */
    method OnEnd() returns (ghost order: seq<Language>)
      requires Valid()
      modifies this
      ensures initializers == old(initializers) && Enumerates(order, initializers.Keys)
      ensures Valid() && View() == EndAll(old(View()), order)
    {
      ghost var calls;
      order, calls := VisitAll(initializers, EndInitializer);
      trace := trace + calls;
      EndAllOpened(old(View()), order);
    }
  }
}
