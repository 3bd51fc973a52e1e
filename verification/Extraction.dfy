/** From the plugins' answers to the facts of a document: parallel plugins, unique candidate,
    fall-through over the variants of the file. */
module Extraction {
  import opened Common
  import opened Documents
  import opened Errors

  /** A plugin and what its run over one file returned. */
  datatype Plugin = Plugin(name: string, facts: Option<Facts>, err: Option<Error>)

  datatype Collected = Collected(result: seq<Facts>, err: Option<Error>)

  /** A candidate is non-empty and comes without an error. */
  predicate IsCandidate(p: Plugin) {
    p.err.None? && p.facts.Some? && !p.facts.value.IsEmpty()
  }

  function WithReporter(facts: Facts, name: string): Facts {
    if facts.reporter.None? then facts.(reporter := Some(name)) else facts
  }

  /** The callback of one plugin. */
  function Callback(c: Collected, p: Plugin): Collected {
    if p.err.Some? then c.(err := Append(c.err, Wrapped("plugin " + p.name, p.err.value)))
    else if IsCandidate(p) then c.(result := c.result + [WithReporter(p.facts.value, p.name)])
    else c
  }

  /** Running the plugins one after the other in registration order. */
  function Sequential(plugins: seq<Plugin>): Collected {
    if plugins == [] then Collected([], None)
    else Callback(Sequential(plugins[..|plugins| - 1]), plugins[|plugins| - 1])
  }

  predicate IsCompletionOrder(order: seq<nat>, n: nat) {
    && |order| == n
    && (forall i | 0 <= i < n :: order[i] < n)
    && (forall i, j | 0 <= i < j < n :: order[i] != order[j])
  }

  lemma {:induction false} DistinctCount(order: seq<nat>)
    requires forall i, j | 0 <= i < j < |order| :: order[i] != order[j]
    ensures |Elements(order)| == |order|
  {
    if order != [] {
      var last := order[|order| - 1];
      DistinctCount(order[..|order| - 1]);
      assert order == order[..|order| - 1] + [last];
      assert Elements(order) == Elements(order[..|order| - 1]) + {last};
    }
  }

  ghost function Indices(n: nat): (s: set<nat>)
    ensures |s| == n && forall i: nat :: i in s <==> i < n
  {
    if n == 0 then {} else Indices(n - 1) + {n - 1}
  }

  /** A completion order names every plugin. */
  lemma CompletionOrderIsFull(order: seq<nat>, n: nat)
    requires IsCompletionOrder(order, n)
    ensures forall i: nat | i < n :: i in order
  {
    DistinctCount(order);
    var all := Indices(n);
    assert Elements(order) <= all;
    if Elements(order) != all {
      ProperSubsetCount(Elements(order), all);
    }
    forall i: nat | i < n
      ensures i in order
    {
      assert i in all;
    }
  }

  /** Runs all plugins at once; they finish in any order, and the callbacks run one at a time in
      the order the plugins were started. */
  method Extract(plugins: seq<Plugin>, completion: seq<nat>) returns (result: seq<Facts>, resultErr: Option<Error>)
    requires IsCompletionOrder(completion, |plugins|)
    ensures Collected(result, resultErr) == Sequential(plugins)
  {
    result, resultErr := [], None;
    var finished: set<nat> := {};
    var delivered := 0;
    for k := 0 to |completion|
      invariant finished == Elements(completion[..k])
      invariant delivered <= |plugins|
      invariant Collected(result, resultErr) == Sequential(plugins[..delivered])
      invariant delivered < |plugins| ==> delivered !in finished
    {
      assert completion[..k + 1] == completion[..k] + [completion[k]];
      finished := finished + {completion[k]};
      while delivered < |plugins| && delivered in finished
        invariant delivered <= |plugins|
        invariant Collected(result, resultErr) == Sequential(plugins[..delivered])
      {
        var p := plugins[delivered];
        assert plugins[..delivered + 1][..delivered] == plugins[..delivered];
        if p.err.Some? {
          resultErr := Append(resultErr, Wrapped("plugin " + p.name, p.err.value));
        } else if IsCandidate(p) {
          result := result + [WithReporter(p.facts.value, p.name)];
        }
        delivered := delivered + 1;
      }
    }
    assert completion[..|completion|] == completion;
    CompletionOrderIsFull(completion, |plugins|);
    assert plugins[..delivered] == plugins;
  }

  function Candidates(plugins: seq<Plugin>): seq<Facts> {
    if plugins == [] then []
    else if IsCandidate(plugins[0]) then [WithReporter(plugins[0].facts.value, plugins[0].name)] + Candidates(plugins[1..])
    else Candidates(plugins[1..])
  }

  lemma {:induction false} CandidatesAppend(plugins: seq<Plugin>, p: Plugin)
    ensures Candidates(plugins + [p]) ==
            Candidates(plugins) + if IsCandidate(p) then [WithReporter(p.facts.value, p.name)] else []
  {
    if plugins != [] {
      assert (plugins + [p])[1..] == plugins[1..] + [p];
      CandidatesAppend(plugins[1..], p);
    }
  }

  /** The collected list holds the candidates in registration order; an error is reported
      exactly when some plugin failed. */
  lemma {:induction false} SequentialMeaning(plugins: seq<Plugin>)
    ensures Sequential(plugins).result == Candidates(plugins)
    ensures Sequential(plugins).err.Some? <==> exists p :: p in plugins && p.err.Some?
  {
    if plugins != [] {
      var before, last := plugins[..|plugins| - 1], plugins[|plugins| - 1];
      SequentialMeaning(before);
      CandidatesAppend(before, last);
      assert plugins == before + [last];
    }
  }

  /** A plugin that succeeded and returned facts with some property beside the reporter. */
  predicate Speaks(p: Plugin) {
    && p.err.None? && p.facts.Some?
    && var f := p.facts.value;
       || f.title.Some? || f.created.Some? || f.documentType.Some? || f.correspondent.Some? || f.storagePath.Some?
       || f.setTags != [] || f.unsetTags != []
  }

  /** The facts of a plugin, under its name unless they name a reporter. */
  predicate SaidBy(facts: Facts, p: Plugin) {
    && Speaks(p)
    && facts == p.facts.value.(reporter := facts.reporter)
    && facts.reporter == if p.facts.value.reporter.Some? then p.facts.value.reporter else Some(p.name)
  }

  predicate TwoSpeak(plugins: seq<Plugin>) {
    exists i, j | 0 <= i < j < |plugins| :: Speaks(plugins[i]) && Speaks(plugins[j])
  }

  /** The candidates are what the plugins said that returned facts. */
  lemma {:induction false} CandidatesMeaning(plugins: seq<Plugin>)
    ensures forall f | f in Candidates(plugins) :: exists p | p in plugins :: SaidBy(f, p)
    ensures |Candidates(plugins)| > 0 <==> exists p :: p in plugins && Speaks(p)
    ensures |Candidates(plugins)| > 1 <==> TwoSpeak(plugins)
  {
    if plugins != [] {
      var rest := plugins[1..];
      CandidatesMeaning(rest);
      assert forall i | 1 <= i < |plugins| :: plugins[i] == rest[i - 1];
      assert IsCandidate(plugins[0]) <==> Speaks(plugins[0]);
      if TwoSpeak(rest) {
        var i, j :| 0 <= i < j < |rest| && Speaks(rest[i]) && Speaks(rest[j]);
        assert Speaks(plugins[i + 1]) && Speaks(plugins[j + 1]);
      }
      if Speaks(plugins[0]) {
        assert SaidBy(WithReporter(plugins[0].facts.value, plugins[0].name), plugins[0]);
        if p :| p in rest && Speaks(p) {
          var j :| 0 <= j < |rest| && rest[j] == p;
          assert Speaks(plugins[j + 1]);
        }
      }
    }
  }

  /** The only candidate, if there is one; several candidates are an error. */
  function Best(s: seq<Facts>): Result<Option<Facts>, Error> {
    if |s| == 0 then Ok(None)
    else if |s| == 1 then Ok(Some(s[0]))
    else Err(SEVERAL_FACTS)
  }

  // ---------------------------------------------------------------- variants

  /** How the run over one variant went: it failed before the plugins ran, or they ran; and the
      removal of the temporary directory may fail. */
  datatype VariantRun =
    | NoFile(err: Error, cleanup: Option<Error>)
    | Ran(plugins: seq<Plugin>, cleanup: Option<Error>)

  function VariantFacts(run: VariantRun): Result<Option<Facts>, Error> {
    match run
    case NoFile(e, cleanup) =>
      Err(if cleanup.Some? then Append(Some(e), cleanup.value).value else e)
    case Ran(plugins, cleanup) =>
      var c := Sequential(plugins);
      var best := if c.err.Some? then Err(Wrapped("fact extraction", c.err.value)) else Best(c.result);
      if cleanup.None? then best
      else if best.Err? then Err(Append(Some(best.error), cleanup.value).value)
      else Err(cleanup.value)
  }

  /** The file could not be read, its removal failed, a plugin failed, or several returned facts. */
  predicate Fails(run: VariantRun) {
    || run.NoFile? || run.cleanup.Some?
    || (exists p | p in run.plugins :: p.err.Some?)
    || TwoSpeak(run.plugins)
  }

  /** Nothing failed, and the facts are what the only plugin said that returned any. */
  predicate Finds(run: VariantRun, facts: Facts) {
    !Fails(run) && exists p | p in run.plugins :: SaidBy(facts, p)
  }

  lemma OnlyOneSpeaks(plugins: seq<Plugin>, p: Plugin, q: Plugin)
    requires !TwoSpeak(plugins) && p in plugins && q in plugins && Speaks(p) && Speaks(q)
    ensures p == q
  {
    var i :| 0 <= i < |plugins| && plugins[i] == p;
    var j :| 0 <= j < |plugins| && plugins[j] == q;
    assert i < j ==> Speaks(plugins[i]) && Speaks(plugins[j]);
    assert j < i ==> Speaks(plugins[j]) && Speaks(plugins[i]);
  }

  /** A variant comes to an error exactly when it fails, else to the facts it finds, or to none. */
  lemma VariantFactsMeaning(run: VariantRun)
    ensures VariantFacts(run).Err? <==> Fails(run)
    ensures forall facts :: VariantFacts(run) == Ok(Some(facts)) <==> Finds(run, facts)
  {
    if run.Ran? {
      SequentialMeaning(run.plugins);
      CandidatesMeaning(run.plugins);
      if !Fails(run) && Candidates(run.plugins) != [] {
        var c := Candidates(run.plugins)[0];
        assert c in Candidates(run.plugins);
        var p :| p in run.plugins && SaidBy(c, p);
        forall q, facts | q in run.plugins && SaidBy(facts, q)
          ensures facts == c
        {
          OnlyOneSpeaks(run.plugins, p, q);
        }
      }
    }
  }

  /** The leaves of the errors of some plugins, in order. */
  function PluginLeaves(plugins: seq<Plugin>): seq<Error> {
    if plugins == [] then [] else PluginLeaves(plugins[..|plugins| - 1]) + LeavesOfOption(plugins[|plugins| - 1].err)
  }

  lemma {:induction false} SequentialLeaves(plugins: seq<Plugin>)
    ensures LeavesOfOption(Sequential(plugins).err) == PluginLeaves(plugins)
  {
    if plugins != [] {
      var before, last := plugins[..|plugins| - 1], plugins[|plugins| - 1];
      SequentialLeaves(before);
      if last.err.Some? {
        AppendLeaves(Sequential(before).err, Wrapped("plugin " + last.name, last.err.value));
      }
    }
  }

  const SEVERAL_FACTS: Error := Other("unable to select among facts")

  /** What went wrong with a variant: the download, the plugins or the choice among several facts,
      and last the removal of the file. */
  function RunLeaves(run: VariantRun): seq<Error> {
    match run
    case NoFile(e, cleanup) => Leaves(e) + LeavesOfOption(cleanup)
    case Ran(plugins, cleanup) =>
      (if exists p | p in plugins :: p.err.Some? then PluginLeaves(plugins)
       else if TwoSpeak(plugins) then [SEVERAL_FACTS]
       else [])
      + LeavesOfOption(cleanup)
  }

  lemma VariantLeaves(run: VariantRun)
    ensures VariantFacts(run).Err? ==> Leaves(VariantFacts(run).error) == RunLeaves(run)
    ensures VariantFacts(run).Ok? ==> RunLeaves(run) == []
  {
    VariantFactsMeaning(run);
    if run.NoFile? {
      if run.cleanup.Some? {
        AppendLeaves(Some(run.err), run.cleanup.value);
      }
    } else {
      SequentialMeaning(run.plugins);
      SequentialLeaves(run.plugins);
      CandidatesMeaning(run.plugins);
      var c := Sequential(run.plugins);
      var best := if c.err.Some? then Err(Wrapped("fact extraction", c.err.value)) else Best(c.result);
      if run.cleanup.Some? && best.Err? {
        AppendLeaves(Some(best.error), run.cleanup.value);
      }
    }
  }

  /** A variant that yields facts. */
  predicate Yields(run: VariantRun) {
    var f := VariantFacts(run);
    f.Ok? && f.value.Some? && !f.value.value.IsEmpty()
  }

  predicate FindsAny(run: VariantRun) {
    !Fails(run) && exists p | p in run.plugins :: Speaks(p)
  }

  /** A variant yields facts exactly when nothing failed and a plugin returned some; they are never
      empty and name their reporter. */
  lemma YieldsIff(run: VariantRun)
    ensures Yields(run) <==> FindsAny(run)
    ensures Yields(run) <==> VariantFacts(run).Ok? && VariantFacts(run).value.Some?
    ensures forall facts | Finds(run, facts) :: FindsAny(run) && !facts.IsEmpty() && facts.reporter.Some?
  {
    VariantFactsMeaning(run);
    if p :| !Fails(run) && p in run.plugins && Speaks(p) {
      var facts := WithReporter(p.facts.value, p.name);
      assert SaidBy(facts, p);
      assert Finds(run, facts);
    }
  }

  /** The variants tried, in order. */
  function Variants(archived: VariantRun, original: VariantRun, hasArchiveVersion: bool): seq<VariantRun> {
    if hasArchiveVersion then [archived, original] else [original]
  }

  /** The first variant that finds facts. */
  predicate IsFirst(runs: seq<VariantRun>, i: int) {
    0 <= i < |runs| && FindsAny(runs[i]) && forall j | 0 <= j < i :: !FindsAny(runs[j])
  }

  function LeavesOfRuns(runs: seq<VariantRun>): seq<Error> {
    if runs == [] then [] else RunLeaves(runs[0]) + LeavesOfRuns(runs[1..])
  }

  method ExtractFacts(runs: seq<VariantRun>) returns (facts: Option<Facts>, err: Option<Error>)
    ensures err.Some? <==> (forall run | run in runs :: !FindsAny(run)) && (exists run | run in runs :: Fails(run))
    ensures facts.Some? ==> err.None? && exists i | IsFirst(runs, i) :: Finds(runs[i], facts.value)
    ensures facts.None? ==> forall run | run in runs :: !FindsAny(run)
    ensures err.Some? ==> Leaves(err.value) == LeavesOfRuns(runs)
    ensures (if err.Some? then Err(err.value) else Ok(facts)) == FirstFacts(runs, None)
  {
    hide VariantFacts, Fails, FindsAny, Finds, RunLeaves, LeavesOfRuns, Leaves;
    FirstFactsMeaning(runs, None);
    var allErr: Option<Error> := None;
    for i := 0 to |runs|
      invariant FirstFacts(runs[i..], allErr) == FirstFacts(runs, None)
    {
      assert runs[i..][1..] == runs[i + 1..];
      var f := VariantFacts(runs[i]);
      if f.Err? {
        allErr := Append(allErr, Wrapped("variant", f.error));
        continue;
      }
      if f.value.Some? && !f.value.value.IsEmpty() {
        return f.value, None;
      }
    }
    return None, allErr;
  }

  /** The result of ExtractFacts with the errors met so far. */
  function FirstFacts(runs: seq<VariantRun>, allErr: Option<Error>): Result<Option<Facts>, Error> {
    if runs == [] then (if allErr.Some? then Err(allErr.value) else Ok(None))
    else
      var f := VariantFacts(runs[0]);
      if f.Err? then FirstFacts(runs[1..], Append(allErr, Wrapped("variant", f.error)))
      else if Yields(runs[0]) then f
      else FirstFacts(runs[1..], allErr)
  }

  /** The facts are those of the first variant that finds any; without one, the errors of all
      variants are returned, if there are any. */
  lemma {:induction false} FirstFactsMeaning(runs: seq<VariantRun>, allErr: Option<Error>)
    ensures var r := FirstFacts(runs, allErr);
            && (r.Ok? && r.value.Some? <==> exists run | run in runs :: FindsAny(run))
            && (r.Err? <==> (forall run | run in runs :: !FindsAny(run))
                            && (allErr.Some? || exists run | run in runs :: Fails(run)))
            && (r.Ok? && r.value.Some? ==> exists i | IsFirst(runs, i) :: Finds(runs[i], r.value.value))
            && (r.Err? ==> Leaves(r.error) == LeavesOfOption(allErr) + LeavesOfRuns(runs))
    decreases |runs|
  {
    hide VariantFacts, Fails, FindsAny, Finds, RunLeaves, Leaves;
    if runs != [] {
      var f, rest := VariantFacts(runs[0]), runs[1..];
      VariantFactsMeaning(runs[0]);
      YieldsIff(runs[0]);
      VariantLeaves(runs[0]);
      if f.Err? {
        AppendLeaves(allErr, Wrapped("variant", f.error));
        assert Leaves(Wrapped("variant", f.error)) == Leaves(f.error) by {
          WrappedLeaves("variant", f.error);
        }
      }
      FirstFactsMeaning(rest, if f.Err? then Append(allErr, Wrapped("variant", f.error)) else allErr);
      assert forall run :: run in runs <==> run == runs[0] || run in rest;
      FirstIsLater(runs);
    }
  }

  lemma FirstIsLater(runs: seq<VariantRun>)
    requires runs != []
    ensures FindsAny(runs[0]) ==> IsFirst(runs, 0)
    ensures !FindsAny(runs[0]) ==> forall i | IsFirst(runs[1..], i) :: IsFirst(runs, i + 1) && runs[i + 1] == runs[1..][i]
  {
    hide FindsAny;
    assert forall j | 1 <= j < |runs| :: runs[j] == runs[1..][j - 1];
  }

  /** The archived file is preferred: its facts are returned whenever it finds some, and the
      original decides otherwise. */
  lemma ArchivedFirst(archived: VariantRun, original: VariantRun, hasArchiveVersion: bool)
    ensures var r := FirstFacts(Variants(archived, original, hasArchiveVersion), None);
            var preferred := hasArchiveVersion && FindsAny(archived);
            && (r.Ok? && r.value.Some? <==> preferred || FindsAny(original))
            && (r.Ok? && r.value.Some? ==> Finds(if preferred then archived else original, r.value.value))
            && (r.Err? <==> !preferred && !FindsAny(original) && ((hasArchiveVersion && Fails(archived)) || Fails(original)))
            && (r.Err? ==> Leaves(r.error) == (if hasArchiveVersion then RunLeaves(archived) else []) + RunLeaves(original))
  {
    hide VariantFacts, Fails, FindsAny, Finds, RunLeaves, Leaves;
    var runs := Variants(archived, original, hasArchiveVersion);
    FirstFactsMeaning(runs, None);
    assert [original][1..] == [] && [archived, original][1..] == [original];
    assert LeavesOfRuns([original]) == RunLeaves(original) + [];
    assert LeavesOfRuns([archived, original]) == RunLeaves(archived) + LeavesOfRuns([original]);
    assert runs[|runs| - 1] == original;
    assert forall i | IsFirst(runs, i) :: runs[i] == if hasArchiveVersion && FindsAny(archived) then archived else original;
  }
}
