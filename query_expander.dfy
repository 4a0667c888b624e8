/**
 * Query expansion (my-ai-app/lib/ai/evaluation/query-expander.ts): the prompts sent to the
 * language model, which is an oracle, and the rule that picks one variation to try next.
 */
module QueryExpander {
  import opened Wrappers
  import opened Strings
  import opened RagTypes

  /** A system message and a user message for the language model. */
  datatype Prompt = Prompt(system: string, user: string)

  /**
   * The options object callers pass. Only `originalQuery` and `gaps` are read; `iterationCount`
   * is declared but unused and the pipeline also passes `triedQueries`, which is ignored.
   */
  datatype ExpansionOptions = ExpansionOptions(
    originalQuery: string,
    gaps: Option<seq<string>>,
    iterationCount: Option<int>,
    triedQueries: Option<seq<string>>)

  /** The model call: a prompt in, a parsed expansion out. */
  type ExpansionModel = Prompt -> ExpandedQueries

  const GAP_SYSTEM :=
    "You are a query expansion expert. "
    + "Your task is to generate improved search queries based "
    + "on identified gaps in previous retrieval results. "
    + "Focus on creating variations that specifically address "
    + "the missing information."
  const DEFAULT_SYSTEM :=
    "You are a query expansion expert. "
    + "Your task is to generate multiple variations of the "
    + "search query to improve document retrieval. "
    + "Create diverse variations using different strategies."
  const GAP_INSTRUCTIONS :=
    "Generate 3-5 improved query variations that "
    + "specifically address these gaps. "
    + "Each variation should use a different approach to find "
    + "the missing information."
  const DEFAULT_INSTRUCTIONS :=
    "Generate 3-5 query variations using different strategies:"
    + "\n- broader: More general terms to cast a wider net"
    + "\n- narrower: More specific terms for focused results"
    + "\n- semantic: Reword using synonyms or different phrasing"
    + "\n- gap_based: Address potential missing context"
    + "\n"
    + "\nEach variation should help find different aspects or "
    + "interpretations of the original query."

  /** `gaps.map((gap, i) => `${i + 1}. ${gap}`)`: numbered from 1, in order. */
  function NumberedGaps(gaps: seq<string>): (lines: seq<string>)
    ensures |lines| == |gaps|
    ensures forall i :: 0 <= i < |gaps| ==> lines[i] == NatToString(i + 1) + ". " + gaps[i]
  {
    seq(|gaps|, i requires 0 <= i < |gaps| => NatToString(i + 1) + ". " + gaps[i])
  }

  /** The gap listing splits back into one numbered line per gap when no gap holds a line break. */
  lemma NumberedGapsLines(gaps: seq<string>)
    requires |gaps| >= 1
    requires forall g :: g in gaps ==> '\n' !in g
    ensures Split(Join(NumberedGaps(gaps), "\n"), '\n') == NumberedGaps(gaps)
  {
    var lines := NumberedGaps(gaps);
    forall l | l in lines ensures '\n' !in l {
      var i :| 0 <= i < |lines| && lines[i] == l;
      assert gaps[i] in gaps;
      assert NatToString(i + 1) + ". " + gaps[i] == l;
      DigitsHaveNoBreak(i + 1);
    }
    SplitJoin(lines, '\n');
  }

  lemma {:induction false} DigitsHaveNoBreak(n: nat)
    ensures '\n' !in NatToString(n)
    decreases n
  {
    if n >= 10 {
      DigitsHaveNoBreak(n / 10);
    }
  }

  const QUERY_OPEN := "Original query: \""
  const QUERY_CLOSE := "\"\n\n"
  const GAP_HEADING := "Identified gaps in previous retrieval:\n"
  const PARAGRAPH := "\n\n"

  /**
   * The gap prompt when there is at least one gap, the strategy prompt otherwise; either way the
   * user prompt opens by quoting the original query.
   */
  function ExpansionPrompt(originalQuery: string, gaps: seq<string>): (p: Prompt)
    ensures p.system == GAP_SYSTEM <==> |gaps| > 0
    ensures p.system == DEFAULT_SYSTEM <==> |gaps| == 0
    ensures |QUERY_OPEN + originalQuery + QUERY_CLOSE| <= |p.user|
    ensures p.user[..|QUERY_OPEN + originalQuery + QUERY_CLOSE|] == QUERY_OPEN + originalQuery + QUERY_CLOSE
  {
    assert |GAP_SYSTEM| != |DEFAULT_SYSTEM|;
    var header := QUERY_OPEN + originalQuery + QUERY_CLOSE;
    if |gaps| > 0 then
      Prompt(GAP_SYSTEM, header + GAP_HEADING + Join(NumberedGaps(gaps), "\n") + PARAGRAPH + GAP_INSTRUCTIONS)
    else
      Prompt(DEFAULT_SYSTEM, header + DEFAULT_INSTRUCTIONS)
  }

  /** The gap prompt exactly when there is at least one gap: the two system prompts differ. */
  lemma ExpansionPromptChoice(originalQuery: string, gaps: seq<string>)
    ensures var p := ExpansionPrompt(originalQuery, gaps);
      && (p.system == GAP_SYSTEM <==> |gaps| > 0)
      && (p.system == DEFAULT_SYSTEM <==> |gaps| == 0)
      && (|gaps| > 0 ==>
           p.user == QUERY_OPEN + originalQuery + QUERY_CLOSE + GAP_HEADING + Join(NumberedGaps(gaps), "\n")
             + PARAGRAPH + GAP_INSTRUCTIONS)
      && (|gaps| == 0 ==> p.user == QUERY_OPEN + originalQuery + QUERY_CLOSE + DEFAULT_INSTRUCTIONS)
  {
    assert |GAP_SYSTEM| != |DEFAULT_SYSTEM|;
  }

  /**
   * `expandQuery`: build the prompt (missing gaps default to none) and ask the model. Without gaps
   * the model gets the strategy prompt for the query; with gaps, the numbered gap list.
   */
  function ExpandQuery(model: ExpansionModel, options: ExpansionOptions): (r: ExpandedQueries)
    ensures |options.gaps.GetOr([])| == 0 ==>
      r == model(Prompt(DEFAULT_SYSTEM, QUERY_OPEN + options.originalQuery + QUERY_CLOSE + DEFAULT_INSTRUCTIONS))
    ensures |options.gaps.GetOr([])| > 0 ==>
      r == model(Prompt(GAP_SYSTEM, QUERY_OPEN + options.originalQuery + QUERY_CLOSE + GAP_HEADING
        + Join(NumberedGaps(options.gaps.value), "\n") + PARAGRAPH + GAP_INSTRUCTIONS))
  {
    model(ExpansionPrompt(options.originalQuery, options.gaps.GetOr([])))
  }

  /** The expansion depends on the original query and the gaps only. */
  lemma ExpandQueryReadsQueryAndGaps(model: ExpansionModel, options: ExpansionOptions,
                                     iterationCount: Option<int>, triedQueries: Option<seq<string>>)
    ensures ExpandQuery(model, options)
         == ExpandQuery(model, options.(iterationCount := iterationCount, triedQueries := triedQueries))
    ensures ExpandQuery(model, options.(gaps := None)) == ExpandQuery(model, options.(gaps := Some([])))
  {
  }

  // ---------------------------------------------------------------------------------------------
  // selectBestQuery

  const PriorityOrder: seq<string> := ["gap_based", "semantic", "broader", "narrower"]

  /** A strategy's place in the priority order; 4 for anything outside it. */
  function Rank(strategy: string): (r: nat)
    ensures r <= 4
    ensures r < 4 <==> strategy in PriorityOrder
    ensures r < 4 ==> PriorityOrder[r] == strategy
  {
    if strategy == "gap_based" then 0
    else if strategy == "semantic" then 1
    else if strategy == "broader" then 2
    else if strategy == "narrower" then 3
    else 4
  }

  /** `variations.filter((v) => !previousQueries.includes(v.query))` */
  function Untried(variations: seq<Variation>, previousQueries: seq<string>): (r: seq<Variation>)
    ensures forall v :: v in r <==> v in variations && v.query !in previousQueries
    ensures |r| <= |variations|
  {
    if variations == [] then []
    else
      (if variations[0].query !in previousQueries then [variations[0]] else [])
      + Untried(variations[1..], previousQueries)
  }

  /** The filter keeps order: filtering a concatenation concatenates the filtered parts. */
  lemma {:induction false} UntriedConcat(v1: seq<Variation>, v2: seq<Variation>, previousQueries: seq<string>)
    ensures Untried(v1 + v2, previousQueries) == Untried(v1, previousQueries) + Untried(v2, previousQueries)
  {
    if v1 == [] {
      assert v1 + v2 == v2;
    } else {
      assert (v1 + v2)[0] == v1[0];
      assert (v1 + v2)[1..] == v1[1..] + v2;
      UntriedConcat(v1[1..], v2, previousQueries);
    }
  }

  /** `variations.find((v) => v.strategy === strategy)` */
  function Find(variations: seq<Variation>, strategy: string): (r: Option<Variation>)
    ensures r.None? <==> forall i :: 0 <= i < |variations| ==> variations[i].strategy != strategy
    ensures r.Some? ==> exists i :: (0 <= i < |variations| && variations[i] == r.value
      && variations[i].strategy == strategy
      && forall j :: 0 <= j < i ==> variations[j].strategy != strategy)
  {
    if variations == [] then None
    else if variations[0].strategy == strategy then Some(variations[0])
    else
      var r := Find(variations[1..], strategy);
      if r.Some? then
        var i :| 0 <= i < |variations[1..]| && variations[1..][i] == r.value
          && variations[1..][i].strategy == strategy
          && forall j :: 0 <= j < i ==> variations[1..][j].strategy != strategy;
        assert variations[i + 1] == r.value;
        r
      else r
  }

  /** The loop over the priority list: the first strategy with a match wins. */
  function FirstByPriority(candidates: seq<Variation>, order: seq<string>): (r: Option<Variation>)
    decreases |order|
  {
    if order == [] then None
    else
      var found := Find(candidates, order[0]);
      if found.Some? then found else FirstByPriority(candidates, order[1..])
  }

  /** `picked` is candidate `i`, the earliest of strategy `order[k]`, and no candidate has a strategy listed before it. */
  predicate PickedAt(candidates: seq<Variation>, order: seq<string>, picked: Variation, i: int, k: int)
  {
    && 0 <= i < |candidates| && 0 <= k < |order|
    && candidates[i] == picked && candidates[i].strategy == order[k]
    && (forall j :: 0 <= j < |candidates| ==> candidates[j].strategy !in order[..k])
    && (forall j :: 0 <= j < i ==> candidates[j].strategy != order[k])
  }

  /**
   * What the priority loop finds: nothing exactly when no candidate has a listed strategy, else the
   * earliest candidate of the first listed strategy that any candidate has.
   */
  lemma {:induction false} FirstByPriorityFacts(candidates: seq<Variation>, order: seq<string>)
    ensures var r := FirstByPriority(candidates, order);
      && (r.None? <==> forall j :: 0 <= j < |candidates| ==> candidates[j].strategy !in order)
      && (r.Some? ==> exists i, k :: PickedAt(candidates, order, r.value, i, k))
    decreases |order|
  {
    if order != [] {
      var found := Find(candidates, order[0]);
      if found.Some? {
        var i :| 0 <= i < |candidates| && candidates[i] == found.value
          && candidates[i].strategy == order[0]
          && forall j :: 0 <= j < i ==> candidates[j].strategy != order[0];
        assert order[..0] == [];
        assert PickedAt(candidates, order, found.value, i, 0);
      } else {
        FirstByPriorityFacts(candidates, order[1..]);
        var r := FirstByPriority(candidates, order[1..]);
        assert forall s :: s in order <==> s == order[0] || s in order[1..] by {
          assert order == [order[0]] + order[1..];
        }
        if r.Some? {
          var i, k :| PickedAt(candidates, order[1..], r.value, i, k);
          assert order[..k + 1] == [order[0]] + order[1..][..k];
          assert PickedAt(candidates, order, r.value, i, k + 1);
        }
      }
    }
  }

  /** The message of the TypeError that reading `.query` of a missing first variation throws. */
  const NO_VARIATIONS := "Cannot read properties of undefined (reading 'query')"

  /**
   * `selectBestQuery`. An empty variation list makes `variations[0].query` throw, which is the
   * failure case.
   */
  function SelectBestQuery(expansions: ExpandedQueries, previousQueries: seq<string>): (r: Result<string>)
    ensures r.Failure? <==> |expansions.variations| == 0
    ensures r.Failure? ==> r.error == NO_VARIATIONS
  {
    var newQueries := Untried(expansions.variations, previousQueries);
    if |newQueries| == 0 then
      if |expansions.variations| == 0 then Failure(NO_VARIATIONS)
      else Success(expansions.variations[0].query)
    else
      var match_ := FirstByPriority(newQueries, PriorityOrder);
      if match_.Some? then Success(match_.value.query) else Success(newQueries[0].query)
  }

  /**
   * The pick fails exactly on an empty list, is always one of the variations, falls back to the
   * first variation when all were tried, and is untried whenever an untried variation exists.
   */
  lemma SelectBestQueryFacts(expansions: ExpandedQueries, previousQueries: seq<string>)
    ensures var r := SelectBestQuery(expansions, previousQueries);
      && (r.Failure? <==> |expansions.variations| == 0)
      && (r.Success? ==> exists i :: 0 <= i < |expansions.variations| && expansions.variations[i].query == r.value)
      && (|expansions.variations| > 0 && (forall v :: v in expansions.variations ==> v.query in previousQueries) ==>
            r == Success(expansions.variations[0].query))
      && ((exists v :: v in expansions.variations && v.query !in previousQueries) ==>
            r.Success? && r.value !in previousQueries)
  {
    var newQueries := Untried(expansions.variations, previousQueries);
    FirstByPriorityFacts(newQueries, PriorityOrder);
    if |newQueries| > 0 {
      assert newQueries[0] in newQueries;
    }
  }

  /** Read through `Rank`: the pick has the best rank among the candidates, and strictly better than any earlier one. */
  lemma PickedRank(candidates: seq<Variation>, picked: Variation, i: int, k: int)
    requires PickedAt(candidates, PriorityOrder, picked, i, k)
    ensures Rank(picked.strategy) == k < 4
    ensures forall j :: 0 <= j < |candidates| ==> Rank(picked.strategy) <= Rank(candidates[j].strategy)
    ensures forall j :: 0 <= j < i ==> Rank(picked.strategy) < Rank(candidates[j].strategy)
  {
  }

  /** Candidate `i` has a listed strategy of the best rank present, and every earlier candidate ranks strictly worse. */
  predicate HighestPriorityAt(candidates: seq<Variation>, i: int)
  {
    && 0 <= i < |candidates|
    && Rank(candidates[i].strategy) < 4
    && (forall j :: 0 <= j < |candidates| ==> Rank(candidates[i].strategy) <= Rank(candidates[j].strategy))
    && (forall j :: 0 <= j < i ==> Rank(candidates[i].strategy) < Rank(candidates[j].strategy))
  }

  /**
   * Among untried variations the pick is one of the highest-priority strategy present, and the
   * earliest of those (untried variations keep their original order, as `UntriedConcat` states).
   */
  lemma SelectsHighestPriority(expansions: ExpandedQueries, previousQueries: seq<string>)
    requires exists v :: v in expansions.variations && v.query !in previousQueries && v.strategy in PriorityOrder
    ensures exists i ::
      && HighestPriorityAt(Untried(expansions.variations, previousQueries), i)
      && SelectBestQuery(expansions, previousQueries) == Success(Untried(expansions.variations, previousQueries)[i].query)
  {
    var untried := Untried(expansions.variations, previousQueries);
    var w :| w in expansions.variations && w.query !in previousQueries && w.strategy in PriorityOrder;
    assert w in untried;
    var j :| 0 <= j < |untried| && untried[j] == w;
    FirstByPriorityFacts(untried, PriorityOrder);
    var r := FirstByPriority(untried, PriorityOrder);
    assert r.Some?;
    var i, k :| PickedAt(untried, PriorityOrder, r.value, i, k);
    PickedRank(untried, r.value, i, k);
    assert HighestPriorityAt(untried, i);
    SelectBestQueryPick(expansions, previousQueries);
    assert SelectBestQuery(expansions, previousQueries) == Success(untried[i].query);
  }

  /** With some untried variation, the pick is the priority loop's match, else the first untried one. */
  lemma SelectBestQueryPick(expansions: ExpandedQueries, previousQueries: seq<string>)
    requires |Untried(expansions.variations, previousQueries)| > 0
    ensures var untried := Untried(expansions.variations, previousQueries);
      var found := FirstByPriority(untried, PriorityOrder);
      SelectBestQuery(expansions, previousQueries) == Success(if found.Some? then found.value.query else untried[0].query)
  {
  }

  /** With every strategy drawn from the schema's enum, some untried variation always matches the priority loop. */
  lemma FallbackUnreachable(expansions: ExpandedQueries, previousQueries: seq<string>)
    requires ValidExpansion(expansions)
    requires exists v :: v in expansions.variations && v.query !in previousQueries
    ensures FirstByPriority(Untried(expansions.variations, previousQueries), PriorityOrder).Some?
  {
    var untried := Untried(expansions.variations, previousQueries);
    var v :| v in expansions.variations && v.query !in previousQueries;
    assert ValidStrategy(v.strategy);
    assert v in untried;
    FirstByPriorityFacts(untried, PriorityOrder);
    var j :| 0 <= j < |untried| && untried[j] == v;
    assert untried[j].strategy in PriorityOrder;
  }
}
