/**
 * The paging state of the Subscan wallet history: one record per remote source
 * (transfers, rewards, extrinsics) holding the next page, the page size (row)
 * and whether the source is exhausted, stored in a flat `[String: String]`
 * dictionary under keys carrying a per-source suffix.
 */
module SubscanHistory {
  import opened Wrappers
  import opened SwiftText

  /** The `[String: String]` dictionary the paging state is persisted in. */
  type Context = map<string, string>

  const PageKey: string := "history.page"
  const RowKey: string := "history.row"
  const CompleteKey: string := "history.complete"

  const TransfersSuffix: string := ".transfers"
  const RewardsSuffix: string := ".rewards"
  const ExtrinsicsSuffix: string := ".extrinsics"

  predicate IsKeyPrefix(p: string) {
    p == PageKey || p == RowKey || p == CompleteKey
  }

  /** The three prefixes already differ at index 8, so a key names its prefix and its suffix. */
  lemma KeyInjective(p1: string, s1: string, p2: string, s2: string)
    requires IsKeyPrefix(p1) && IsKeyPrefix(p2)
    requires p1 + s1 == p2 + s2
    ensures p1 == p2 && s1 == s2
  {
    assert (p1 + s1)[8] == p1[8] && (p2 + s2)[8] == p2[8];
    assert p1 == p2;
    assert s1 == (p1 + s1)[|p1|..];
    assert s2 == (p2 + s2)[|p2|..];
  }

  /** The dictionary keys of the source with suffix `suffix`. */
  function KeysFor(suffix: string): (keys: set<string>)
    ensures |keys| == 3
  {
    KeysDistinct(suffix);
    {PageKey + suffix, RowKey + suffix, CompleteKey + suffix}
  }

  lemma KeysDistinct(suffix: string)
    ensures PageKey + suffix != RowKey + suffix
    ensures PageKey + suffix != CompleteKey + suffix
    ensures RowKey + suffix != CompleteKey + suffix
  {
    if PageKey + suffix == RowKey + suffix { KeyInjective(PageKey, suffix, RowKey, suffix); }
    if PageKey + suffix == CompleteKey + suffix { KeyInjective(PageKey, suffix, CompleteKey, suffix); }
    if RowKey + suffix == CompleteKey + suffix { KeyInjective(RowKey, suffix, CompleteKey, suffix); }
  }

  /** Sources with different suffixes never share a key. */
  lemma KeysDisjoint(s1: string, s2: string)
    requires s1 != s2
    ensures KeysFor(s1) !! KeysFor(s2)
  {
    forall k | k in KeysFor(s1) && k in KeysFor(s2)
      ensures false
    {
      var p1 :| IsKeyPrefix(p1) && k == p1 + s1;
      var p2 :| IsKeyPrefix(p2) && k == p2 + s2;
      KeyInjective(p1, s1, p2, s2);
    }
  }

  /**
   * The generic `extract`: the parsed value stored under `key`, or `defaultValue`
   * when the key is missing or its value does not parse.
   */
  function Extract<T>(key: string, context: Context, parse: string -> Option<T>, defaultValue: T): (value: T)
    ensures key !in context ==> value == defaultValue
    ensures key in context && parse(context[key]).None? ==> value == defaultValue
    ensures key in context && parse(context[key]).Some? ==> value == parse(context[key]).value
  {
    if key in context then parse(context[key]).GetOr(defaultValue) else defaultValue
  }

  /** The paging state of one remote source. */
  datatype SourceContext = SourceContext(page: Int, row: Int, isComplete: bool, keySuffix: string) {

    /** Exactly the three entries of this source, each value in Swift's textual form. */
    function ToContext(): (context: Context)
      ensures context.Keys == KeysFor(keySuffix) && |context| == 3
      ensures context[PageKey + keySuffix] == Describe(page)
      ensures context[RowKey + keySuffix] == Describe(row)
      ensures context[CompleteKey + keySuffix] == DescribeBool(isComplete)
    {
      KeysDistinct(keySuffix);
      map[
        PageKey + keySuffix := Describe(page),
        RowKey + keySuffix := Describe(row),
        CompleteKey + keySuffix := DescribeBool(isComplete)
      ]
    }

    function ByReplacingPage(newPage: Int): (c: SourceContext)
      ensures c.page == newPage
      ensures c.row == row && c.isComplete == isComplete && c.keySuffix == keySuffix
    {
      SourceContext(newPage, row, isComplete, keySuffix)
    }

    function ByReplacingRow(newRow: Int): (c: SourceContext)
      ensures c.row == newRow
      ensures c.page == page && c.isComplete == isComplete && c.keySuffix == keySuffix
    {
      SourceContext(page, newRow, isComplete, keySuffix)
    }

    function ByReplacingCompletion(newCompletion: bool): (c: SourceContext)
      ensures c.isComplete == newCompletion
      ensures c.page == page && c.row == row && c.keySuffix == keySuffix
    {
      SourceContext(page, row, newCompletion, keySuffix)
    }
  }

  /**
   * `SubscanHistorySourceContext(context:defaultRow:keySuffix:)`: each field is
   * read from its own key; a missing key or an unparsable value gives page 0,
   * row `defaultRow` and not complete.
   */
  function ParseSource(context: Context, defaultRow: Int, keySuffix: string): (c: SourceContext)
    ensures c.keySuffix == keySuffix
    ensures PageKey + keySuffix !in context ==> c.page == 0
    ensures RowKey + keySuffix !in context ==> c.row == defaultRow
    ensures CompleteKey + keySuffix !in context ==> !c.isComplete
    ensures PageKey + keySuffix in context ==>
      c.page == (if ParseInt(context[PageKey + keySuffix]).Some? then ParseInt(context[PageKey + keySuffix]).value else 0)
    ensures RowKey + keySuffix in context ==>
      c.row == (if ParseInt(context[RowKey + keySuffix]).Some? then ParseInt(context[RowKey + keySuffix]).value else defaultRow)
    ensures CompleteKey + keySuffix in context ==>
      c.isComplete == (ParseBool(context[CompleteKey + keySuffix]) == Some(true))
  {
    SourceContext(
      Extract(PageKey + keySuffix, context, ParseInt, 0),
      Extract(RowKey + keySuffix, context, ParseInt, defaultRow),
      Extract(CompleteKey + keySuffix, context, ParseBool, false),
      keySuffix)
  }

  /** A source read back from any dictionary that holds its three entries is that source. */
  lemma ParseSourceFrom(context: Context, c: SourceContext, defaultRow: Int)
    requires forall k | k in c.ToContext() :: k in context && context[k] == c.ToContext()[k]
    ensures ParseSource(context, defaultRow, c.keySuffix) == c
  {
    var own := c.ToContext();
    assert PageKey + c.keySuffix in own && RowKey + c.keySuffix in own && CompleteKey + c.keySuffix in own;
    IntRoundTrip(c.page);
    IntRoundTrip(c.row);
    BoolRoundTrip(c.isComplete);
  }

  /** Round trip of one source through its dictionary. */
  lemma SourceRoundTrip(c: SourceContext, defaultRow: Int)
    ensures ParseSource(c.ToContext(), defaultRow, c.keySuffix) == c
  {
    ParseSourceFrom(c.ToContext(), c, defaultRow);
  }

  /** Replacing the page rewrites the page entry of the dictionary and nothing else. */
  lemma ReplacingPageRewritesOneEntry(c: SourceContext, newPage: Int)
    ensures c.ByReplacingPage(newPage).ToContext() == c.ToContext()[PageKey + c.keySuffix := Describe(newPage)]
  {
  }

  lemma ReplacingRowRewritesOneEntry(c: SourceContext, newRow: Int)
    ensures c.ByReplacingRow(newRow).ToContext() == c.ToContext()[RowKey + c.keySuffix := Describe(newRow)]
  {
  }

  lemma ReplacingCompletionRewritesOneEntry(c: SourceContext, newCompletion: bool)
    ensures c.ByReplacingCompletion(newCompletion).ToContext()
         == c.ToContext()[CompleteKey + c.keySuffix := DescribeBool(newCompletion)]
  {
  }

  /** `WalletRemoteHistorySourceLabel`. */
  datatype SourceLabel = TransfersLabel | RewardsLabel | ExtrinsicsLabel

  /** `WalletRemoteHistorySourceLabel.allCases`. */
  const AllLabels: seq<SourceLabel> := [TransfersLabel, RewardsLabel, ExtrinsicsLabel]

  /** The options of the `WalletHistoryFilter` option set that select a remote source. */
  datatype FilterOption = TransfersOption | RewardsAndSlashesOption | ExtrinsicsOption

  type HistoryFilter = set<FilterOption>

  /** The key suffix under which a label's source is stored. */
  function SuffixFor(source: SourceLabel): string {
    match source
    case TransfersLabel => TransfersSuffix
    case RewardsLabel => RewardsSuffix
    case ExtrinsicsLabel => ExtrinsicsSuffix
  }

  /** The filter option that keeps a source in the history. */
  function OptionFor(source: SourceLabel): FilterOption {
    match source
    case TransfersLabel => TransfersOption
    case RewardsLabel => RewardsAndSlashesOption
    case ExtrinsicsLabel => ExtrinsicsOption
  }

  /**
   * Merging a dictionary into the accumulated one with the keep-first rule:
   * the union of both, the value already accumulated winning on a shared key.
   */
  function Merging(result: Context, item: Context): (m: Context)
    ensures m == item + result
  {
    map k | k in result.Keys + item.Keys :: if k in result then result[k] else item[k]
  }

  /** Folds the sources' dictionaries into `acc`, one after the other, each by `Merging`. */
  function MergeAll(acc: Context, sources: seq<SourceContext>): Context
    decreases |sources|
  {
    if sources == [] then acc else MergeAll(Merging(acc, sources[0].ToContext()), sources[1..])
  }

  lemma MergeThree(t: SourceContext, r: SourceContext, e: SourceContext)
    ensures MergeAll(map[], [t, r, e]) == e.ToContext() + (r.ToContext() + t.ToContext())
  {
    var tc, rc, ec := t.ToContext(), r.ToContext(), e.ToContext();
    MergeStep(map[], [t, r, e]);
    assert Merging(map[], tc) == tc;
    MergeStep(tc, [r, e]);
    MergeStep(rc + tc, [e]);
  }

  /** One step of the `reduce`. */
  lemma MergeStep(acc: Context, sources: seq<SourceContext>)
    requires sources != []
    ensures MergeAll(acc, sources) == MergeAll(sources[0].ToContext() + acc, sources[1..])
  {
  }

  /** The paging state of the whole history: one source context per remote source. */
  datatype HistoryContext = HistoryContext(
    transfers: SourceContext,
    rewards: SourceContext,
    extrinsics: SourceContext,
    defaultRow: Int)
  {
    /** The history is complete exactly when every one of its sources is. */
    predicate IsComplete(): (complete: bool)
      ensures complete <==> forall source :: Source(source).isComplete
    {
      assert Source(TransfersLabel) == transfers && Source(RewardsLabel) == rewards;
      assert Source(ExtrinsicsLabel) == extrinsics;
      transfers.isComplete && rewards.isComplete && extrinsics.isComplete
    }

    predicate HasStandardSuffixes() {
      transfers.keySuffix == TransfersSuffix
      && rewards.keySuffix == RewardsSuffix
      && extrinsics.keySuffix == ExtrinsicsSuffix
    }

    predicate HasDistinctSuffixes() {
      transfers.keySuffix != rewards.keySuffix
      && transfers.keySuffix != extrinsics.keySuffix
      && rewards.keySuffix != extrinsics.keySuffix
    }

    /**
     * The three sources' dictionaries merged in the order transfers, rewards,
     * extrinsics; on a key shared by two sources the earlier source wins.
     */
    function ToContext(): (context: Context)
      ensures context == extrinsics.ToContext() + (rewards.ToContext() + transfers.ToContext())
    {
      MergeThree(transfers, rewards, extrinsics);
      MergeAll(map[], [transfers, rewards, extrinsics])
    }

    function ByReplacingTransfers(value: SourceContext): (h: HistoryContext)
      ensures h.transfers == value
      ensures h.rewards == rewards && h.extrinsics == extrinsics && h.defaultRow == defaultRow
    {
      HistoryContext(value, rewards, extrinsics, defaultRow)
    }

    function ByReplacingRewards(value: SourceContext): (h: HistoryContext)
      ensures h.rewards == value
      ensures h.transfers == transfers && h.extrinsics == extrinsics && h.defaultRow == defaultRow
    {
      HistoryContext(transfers, value, extrinsics, defaultRow)
    }

    function ByReplacingExtrinsics(value: SourceContext): (h: HistoryContext)
      ensures h.extrinsics == value
      ensures h.transfers == transfers && h.rewards == rewards && h.defaultRow == defaultRow
    {
      HistoryContext(transfers, rewards, value, defaultRow)
    }

    /** `sourceContext(for:)`: the source context a label stands for. */
    function Source(source: SourceLabel): (c: SourceContext)
      ensures c == transfers || c == rewards || c == extrinsics
      ensures HasStandardSuffixes() ==> c.keySuffix == SuffixFor(source)
    {
      match source
      case TransfersLabel => transfers
      case RewardsLabel => rewards
      case ExtrinsicsLabel => extrinsics
    }

    /** `byReplacingSource(context:for:)`. */
    function ByReplacingSource(context: SourceContext, source: SourceLabel): (h: HistoryContext)
      ensures h.Source(source) == context
      ensures forall other :: other != source ==> h.Source(other) == Source(other)
      ensures h.defaultRow == defaultRow
    {
      match source
      case TransfersLabel => ByReplacingTransfers(context)
      case RewardsLabel => ByReplacingRewards(context)
      case ExtrinsicsLabel => ByReplacingExtrinsics(context)
    }

    /** Marks the source `source` complete when the filter leaves it out. */
    function ByApplyingIfNeeded(filter: HistoryFilter, source: SourceLabel): (h: HistoryContext)
      ensures h.Source(source) ==
        if OptionFor(source) in filter then Source(source) else Source(source).ByReplacingCompletion(true)
      ensures forall other :: other != source ==> h.Source(other) == Source(other)
      ensures h.defaultRow == defaultRow
    {
      match source
      case TransfersLabel =>
        if TransfersOption !in filter then ByReplacingTransfers(transfers.ByReplacingCompletion(true)) else this
      case RewardsLabel =>
        if RewardsAndSlashesOption !in filter then ByReplacingRewards(rewards.ByReplacingCompletion(true)) else this
      case ExtrinsicsLabel =>
        if ExtrinsicsOption !in filter then ByReplacingExtrinsics(extrinsics.ByReplacingCompletion(true)) else this
    }

    /**
     * `byApplying(filter:)`: every source the filter leaves out becomes
     * complete; everything else is kept.
     */
    function ByApplying(filter: HistoryFilter): (h: HistoryContext)
      ensures h.defaultRow == defaultRow
      ensures forall source :: (h.Source(source) ==
        if OptionFor(source) in filter then Source(source) else Source(source).ByReplacingCompletion(true))
    {
      ApplyEachSpec(this, filter, AllLabels);
      ApplyEach(this, filter, AllLabels)
    }
  }

  /** The `reduce` over the sources in `byApplying(filter:)`. */
  function ApplyEach(h: HistoryContext, filter: HistoryFilter, sources: seq<SourceLabel>): HistoryContext
    decreases |sources|
  {
    if sources == [] then h else ApplyEach(h.ByApplyingIfNeeded(filter, sources[0]), filter, sources[1..])
  }

  /** `SubscanHistoryContext(context:defaultRow:)`: each source read under its standard suffix. */
  function ParseHistory(context: Context, defaultRow: Int): (h: HistoryContext)
    ensures h.HasStandardSuffixes() && h.defaultRow == defaultRow
    ensures h.transfers == ParseSource(context, defaultRow, TransfersSuffix)
    ensures h.rewards == ParseSource(context, defaultRow, RewardsSuffix)
    ensures h.extrinsics == ParseSource(context, defaultRow, ExtrinsicsSuffix)
  {
    HistoryContext(
      ParseSource(context, defaultRow, TransfersSuffix),
      ParseSource(context, defaultRow, RewardsSuffix),
      ParseSource(context, defaultRow, ExtrinsicsSuffix),
      defaultRow)
  }

  // ---------------------------------------------------------------------------
  // Properties

  /** A history is determined by its three sources and its default row. */
  lemma SourcesDetermineHistory(h1: HistoryContext, h2: HistoryContext)
    requires forall source :: h1.Source(source) == h2.Source(source)
    requires h1.defaultRow == h2.defaultRow
    ensures h1 == h2
  {
    assert h1.Source(TransfersLabel) == h2.Source(TransfersLabel);
    assert h1.Source(RewardsLabel) == h2.Source(RewardsLabel);
    assert h1.Source(ExtrinsicsLabel) == h2.Source(ExtrinsicsLabel);
  }

  /** Under distinct suffixes the aggregate dictionary is the disjoint union of the three. */
  lemma HistoryContextIsDisjointUnion(h: HistoryContext)
    requires h.HasDistinctSuffixes()
    ensures h.ToContext().Keys == KeysFor(h.transfers.keySuffix) + KeysFor(h.rewards.keySuffix) + KeysFor(h.extrinsics.keySuffix)
    ensures |h.ToContext()| == 9
    ensures forall k | k in h.transfers.ToContext() :: h.ToContext()[k] == h.transfers.ToContext()[k]
    ensures forall k | k in h.rewards.ToContext() :: h.ToContext()[k] == h.rewards.ToContext()[k]
    ensures forall k | k in h.extrinsics.ToContext() :: h.ToContext()[k] == h.extrinsics.ToContext()[k]
  {
    var t, r, e := h.transfers.ToContext(), h.rewards.ToContext(), h.extrinsics.ToContext();
    KeysDisjoint(h.transfers.keySuffix, h.rewards.keySuffix);
    KeysDisjoint(h.transfers.keySuffix, h.extrinsics.keySuffix);
    KeysDisjoint(h.rewards.keySuffix, h.extrinsics.keySuffix);
    UnionOfDisjoint(e, r, t);
  }

  /** The union of three dictionaries with pairwise disjoint keys holds each of them unchanged. */
  lemma UnionOfDisjoint(e: Context, r: Context, t: Context)
    requires e.Keys !! r.Keys && e.Keys !! t.Keys && r.Keys !! t.Keys
    requires |e| == 3 && |r| == 3 && |t| == 3
    ensures (e + (r + t)).Keys == t.Keys + r.Keys + e.Keys
    ensures |e + (r + t)| == 9
    ensures forall k | k in e :: (e + (r + t))[k] == e[k]
    ensures forall k | k in r :: (e + (r + t))[k] == r[k]
    ensures forall k | k in t :: (e + (r + t))[k] == t[k]
  {
  }

  /** Reading back the dictionary of a history kept under the standard suffixes recovers it. */
  lemma HistoryRoundTrip(h: HistoryContext)
    requires h.HasStandardSuffixes()
    ensures ParseHistory(h.ToContext(), h.defaultRow) == h
  {
    var context := h.ToContext();
    HistoryContextIsDisjointUnion(h);
    ParseSourceFrom(context, h.transfers, h.defaultRow);
    ParseSourceFrom(context, h.rewards, h.defaultRow);
    ParseSourceFrom(context, h.extrinsics, h.defaultRow);
  }

  /** An empty dictionary reads as the first page of every source, nothing complete. */
  lemma ParseEmptyContext(defaultRow: Int)
    ensures ParseHistory(map[], defaultRow) == HistoryContext(
      SourceContext(0, defaultRow, false, TransfersSuffix),
      SourceContext(0, defaultRow, false, RewardsSuffix),
      SourceContext(0, defaultRow, false, ExtrinsicsSuffix),
      defaultRow)
  {
  }

  /** Replacing a source and reading it back gives the replacement; nothing else moves. */
  lemma ReplaceThenGet(h: HistoryContext, context: SourceContext, source: SourceLabel, other: SourceLabel)
    ensures h.ByReplacingSource(context, source).Source(source) == context
    ensures other != source ==> h.ByReplacingSource(context, source).Source(other) == h.Source(other)
    ensures h.ByReplacingSource(context, source).defaultRow == h.defaultRow
  {
  }

  /** Putting back the source just read changes nothing. */
  lemma GetThenReplace(h: HistoryContext, source: SourceLabel)
    ensures h.ByReplacingSource(h.Source(source), source) == h
  {
  }

  /**
   * Folding `byApplyingIfNeeded` over any list of sources completes exactly the
   * listed sources the filter leaves out, whatever the order or repetitions.
   */
  lemma {:induction false} ApplyEachSpec(h: HistoryContext, filter: HistoryFilter, sources: seq<SourceLabel>)
    ensures ApplyEach(h, filter, sources).defaultRow == h.defaultRow
    ensures forall source :: (ApplyEach(h, filter, sources).Source(source) ==
      if source in sources && OptionFor(source) !in filter then h.Source(source).ByReplacingCompletion(true)
      else h.Source(source))
    decreases |sources|
  {
    if sources != [] {
      var next := h.ByApplyingIfNeeded(filter, sources[0]);
      ApplyEachSpec(next, filter, sources[1..]);
      forall source
        ensures ApplyEach(h, filter, sources).Source(source) ==
          if source in sources && OptionFor(source) !in filter then h.Source(source).ByReplacingCompletion(true)
          else h.Source(source)
      {
        assert source in sources <==> source == sources[0] || source in sources[1..];
      }
    }
  }

  /** The order of `allCases` does not matter: any listing of all three sources gives the same result. */
  lemma ApplyingIsOrderFree(h: HistoryContext, filter: HistoryFilter, sources: seq<SourceLabel>)
    requires forall source :: source in sources
    ensures ApplyEach(h, filter, sources) == h.ByApplying(filter)
  {
    ApplyEachSpec(h, filter, sources);
    SourcesDetermineHistory(ApplyEach(h, filter, sources), h.ByApplying(filter));
  }

  /** Applying the same filter twice is applying it once. */
  lemma ByApplyingIdempotent(h: HistoryContext, filter: HistoryFilter)
    ensures h.ByApplying(filter).ByApplying(filter) == h.ByApplying(filter)
  {
    var once := h.ByApplying(filter);
    SourcesDetermineHistory(once.ByApplying(filter), once);
  }

  /** After filtering, the history is complete exactly when every source the filter keeps is. */
  lemma ByApplyingCompleteness(h: HistoryContext, filter: HistoryFilter)
    ensures h.ByApplying(filter).IsComplete() <==>
      forall source :: OptionFor(source) in filter ==> h.Source(source).isComplete
  {
    var r := h.ByApplying(filter);
    assert r.IsComplete() <==> forall source :: r.Source(source).isComplete;
  }
}
