/** The leaf-exclusive timer reduction of the metrics chart (StackedPoint.create
    and addToStackedTimer): each occurrence of a timer in the decoded timer tree
    contributes its total time minus the total time of its nested timers,
    accumulated under the timer's name. */
module Timers {
  import opened LongMaps

  /** A decoded nested timer (AggregateTimer): its name, its total time in
      microseconds and its nested timers in order. Names may repeat anywhere. */
  datatype Timer = Timer(name: string, totalMicros: int, nested: seq<Timer>)

  /** One aggregate row of the requested window; `timers` is the already
      decoded timer tree, whose root is the synthetic root timer. */
  datatype Aggregate = Aggregate(
    captureTime: int,
    transactionCount: int,
    totalMicros: int,
    timers: Timer)

  /** An aggregate together with its name-keyed leaf-exclusive times. */
  datatype StackedPoint = StackedPoint(aggregate: Aggregate, stackedTimers: map<string, int>)

  /** The sum of the total times of `ts`. */
  function NestedMicros(ts: seq<Timer>): int
    decreases |ts|
  {
    if ts == [] then 0 else NestedMicros(ts[..|ts| - 1]) + ts[|ts| - 1].totalMicros
  }

  /** The time of one timer occurrence not spent in any of its nested timers. */
  function SelfMicros(t: Timer): int
  {
    t.totalMicros - NestedMicros(t.nested)
  }

  /** The (name, micros) pairs that addToStackedTimer(t, _) adds, in the order it
      adds them: those of every nested subtree first, then t's own self time. */
  function Contributions(t: Timer): seq<Delta<string>>
    decreases t
  {
    ContributionsAll(t.nested) + [(t.name, SelfMicros(t))]
  }

  /** The pairs added for the subtrees of `ts`, one subtree after the other. */
  function ContributionsAll(ts: seq<Timer>): seq<Delta<string>>
    decreases ts
  {
    if ts == [] then [] else ContributionsAll(ts[..|ts| - 1]) + Contributions(ts[|ts| - 1])
  }

  /** The pairs that StackedPoint.create adds for the real roots `roots`: those
      of the subtrees below each real root, the real roots themselves skipped. */
  function RootContributions(roots: seq<Timer>): seq<Delta<string>>
    decreases |roots|
  {
    if roots == [] then []
    else RootContributions(roots[..|roots| - 1]) + ContributionsAll(roots[|roots| - 1].nested)
  }

  /** The stacked timer map StackedPoint.create builds from a synthetic root. */
  function StackedTimersOf(syntheticRoot: Timer): map<string, int>
  {
    Accumulate(map[], RootContributions(syntheticRoot.nested))
  }

  // ---------------------------------------------------------------------------
  // An order-free reference definition of the leaf-exclusive time of a name

  /** Every name that occurs in the subtree `t`. */
  function NamesOf(t: Timer): set<string>
    decreases t
  {
    {t.name} + NamesOfAll(t.nested)
  }

  function NamesOfAll(ts: seq<Timer>): set<string>
    decreases ts
  {
    if ts == [] then {} else NamesOfAll(ts[..|ts| - 1]) + NamesOf(ts[|ts| - 1])
  }

  /** The sum of the self times of every occurrence of `name` in the subtree `t`. */
  function SelfTimeOf(t: Timer, name: string): int
    decreases t
  {
    (if t.name == name then SelfMicros(t) else 0) + SelfTimeOfAll(t.nested, name)
  }

  function SelfTimeOfAll(ts: seq<Timer>, name: string): int
    decreases ts
  {
    if ts == [] then 0 else SelfTimeOfAll(ts[..|ts| - 1], name) + SelfTimeOf(ts[|ts| - 1], name)
  }

  /** The names below the real roots, which are the ones the stacked map holds. */
  function TopLevelNames(roots: seq<Timer>): set<string>
    decreases |roots|
  {
    if roots == [] then {} else TopLevelNames(roots[..|roots| - 1]) + NamesOfAll(roots[|roots| - 1].nested)
  }

  function TopLevelSelfTime(roots: seq<Timer>, name: string): int
    decreases |roots|
  {
    if roots == [] then 0
    else TopLevelSelfTime(roots[..|roots| - 1], name) + SelfTimeOfAll(roots[|roots| - 1].nested, name)
  }

  /** The total time of the timers directly below the real roots. */
  function TopLevelMicros(roots: seq<Timer>): int
    decreases |roots|
  {
    if roots == [] then 0 else TopLevelMicros(roots[..|roots| - 1]) + NestedMicros(roots[|roots| - 1].nested)
  }

  // ---------------------------------------------------------------------------
  // Telescoping: the contributions of a subtree add up to its total

  /** The self times of all occurrences in a subtree add up to the subtree's
      total time, whatever the nested totals are (no well-formedness needed). */
  lemma {:induction false} ContributionsTelescope(t: Timer)
    ensures DeltaSum(Contributions(t)) == t.totalMicros
    decreases t
  {
    ContributionsAllTelescope(t.nested);
    DeltaSumAppend(ContributionsAll(t.nested), [(t.name, SelfMicros(t))]);
    SingleDelta(map[], t.name, SelfMicros(t), t.name);
  }

  lemma {:induction false} ContributionsAllTelescope(ts: seq<Timer>)
    ensures DeltaSum(ContributionsAll(ts)) == NestedMicros(ts)
    decreases ts
  {
    if ts != [] {
      ContributionsAllTelescope(ts[..|ts| - 1]);
      ContributionsTelescope(ts[|ts| - 1]);
      DeltaSumAppend(ContributionsAll(ts[..|ts| - 1]), Contributions(ts[|ts| - 1]));
    }
  }

  lemma {:induction false} RootContributionsTelescope(roots: seq<Timer>)
    ensures DeltaSum(RootContributions(roots)) == TopLevelMicros(roots)
    decreases |roots|
  {
    if roots != [] {
      RootContributionsTelescope(roots[..|roots| - 1]);
      ContributionsAllTelescope(roots[|roots| - 1].nested);
      DeltaSumAppend(RootContributions(roots[..|roots| - 1]), ContributionsAll(roots[|roots| - 1].nested));
    }
  }

  /** Conservation: the values of a stacked timer map add up to the total time
      of the top-level timers (those directly below the real roots). */
  lemma StackedTimersConserve(syntheticRoot: Timer)
    ensures MapSum(StackedTimersOf(syntheticRoot)) == TopLevelMicros(syntheticRoot.nested)
  {
    AccumulateSum(map[], RootContributions(syntheticRoot.nested));
    RootContributionsTelescope(syntheticRoot.nested);
  }

  // ---------------------------------------------------------------------------
  // Per name: the stacked map holds the summed self time of each occurrence

  lemma {:induction false} ContributionsByName(t: Timer, name: string)
    ensures DeltaSumFor(Contributions(t), name) == SelfTimeOf(t, name)
    ensures DeltaKeys(Contributions(t)) == NamesOf(t)
    decreases t
  {
    ContributionsAllByName(t.nested, name);
    DeltaSumForAppend(ContributionsAll(t.nested), [(t.name, SelfMicros(t))], name);
    DeltaKeysAppend(ContributionsAll(t.nested), [(t.name, SelfMicros(t))]);
    SingleDelta(map[], t.name, SelfMicros(t), name);
  }

  lemma {:induction false} ContributionsAllByName(ts: seq<Timer>, name: string)
    ensures DeltaSumFor(ContributionsAll(ts), name) == SelfTimeOfAll(ts, name)
    ensures DeltaKeys(ContributionsAll(ts)) == NamesOfAll(ts)
    decreases ts
  {
    if ts != [] {
      ContributionsAllByName(ts[..|ts| - 1], name);
      ContributionsByName(ts[|ts| - 1], name);
      DeltaSumForAppend(ContributionsAll(ts[..|ts| - 1]), Contributions(ts[|ts| - 1]), name);
      DeltaKeysAppend(ContributionsAll(ts[..|ts| - 1]), Contributions(ts[|ts| - 1]));
    }
  }

  lemma {:induction false} RootContributionsByName(roots: seq<Timer>, name: string)
    ensures DeltaSumFor(RootContributions(roots), name) == TopLevelSelfTime(roots, name)
    ensures DeltaKeys(RootContributions(roots)) == TopLevelNames(roots)
    decreases |roots|
  {
    if roots != [] {
      var init, last := roots[..|roots| - 1], roots[|roots| - 1];
      RootContributionsByName(init, name);
      ContributionsAllByName(last.nested, name);
      DeltaSumForAppend(RootContributions(init), ContributionsAll(last.nested), name);
      DeltaKeysAppend(RootContributions(init), ContributionsAll(last.nested));
    }
  }

  /** The stacked map of a point holds exactly the names that occur below the
      real roots, each with the sum of the self times of all its occurrences. */
  lemma StackedTimersAt(syntheticRoot: Timer, name: string)
    ensures (name in StackedTimersOf(syntheticRoot)) <==> name in TopLevelNames(syntheticRoot.nested)
    ensures GetOrZero(StackedTimersOf(syntheticRoot), name) == TopLevelSelfTime(syntheticRoot.nested, name)
  {
    AccumulateAt(map[], RootContributions(syntheticRoot.nested), name);
    RootContributionsByName(syntheticRoot.nested, name);
  }

  // ---------------------------------------------------------------------------
  // The imperative traversal

  /** addToStackedTimer: adds the self time of every occurrence in the subtree
      `timer` into `stackedTimers`, nested subtrees first. */
  method AddToStackedTimer(timer: Timer, stackedTimers: LongMap<string>)
    modifies stackedTimers
    ensures stackedTimers.entries == Accumulate(old(stackedTimers.entries), Contributions(timer))
    decreases timer
  {
    ghost var start := stackedTimers.entries;
    var totalNestedMicros := 0;
    for i := 0 to |timer.nested|
      invariant totalNestedMicros == NestedMicros(timer.nested[..i])
      invariant stackedTimers.entries == Accumulate(start, ContributionsAll(timer.nested[..i]))
    {
      var nestedTimer := timer.nested[i];
      assert timer.nested[..i + 1][..i] == timer.nested[..i];
      totalNestedMicros := totalNestedMicros + nestedTimer.totalMicros;
      AddToStackedTimer(nestedTimer, stackedTimers);
      AccumulateAppend(start, ContributionsAll(timer.nested[..i]), Contributions(nestedTimer));
    }
    assert timer.nested[..|timer.nested|] == timer.nested;
    ghost var mid := stackedTimers.entries;
    stackedTimers.Add(timer.name, timer.totalMicros - totalNestedMicros);
    AccumulateAppend(start, ContributionsAll(timer.nested), [(timer.name, SelfMicros(timer))]);
    SingleDelta(mid, timer.name, SelfMicros(timer), timer.name);
  }

  /** StackedPoint.create: skips the synthetic root and the real roots and
      traverses every subtree below a real root into one fresh map. */
  method CreateStackedPoint(aggregate: Aggregate) returns (point: StackedPoint)
    ensures point.aggregate == aggregate
    ensures point.stackedTimers == StackedTimersOf(aggregate.timers)
  {
    var stackedTimers := new LongMap<string>();
    var realRoots := aggregate.timers.nested;
    for i := 0 to |realRoots|
      invariant stackedTimers.entries == Accumulate(map[], RootContributions(realRoots[..i]))
    {
      var realRoot := realRoots[i];
      ghost var before := stackedTimers.entries;
      for j := 0 to |realRoot.nested|
        invariant stackedTimers.entries == Accumulate(before, ContributionsAll(realRoot.nested[..j]))
      {
        assert realRoot.nested[..j + 1][..j] == realRoot.nested[..j];
        AddToStackedTimer(realRoot.nested[j], stackedTimers);
        AccumulateAppend(before, ContributionsAll(realRoot.nested[..j]), Contributions(realRoot.nested[j]));
      }
      assert realRoot.nested[..|realRoot.nested|] == realRoot.nested;
      assert realRoots[..i + 1][..i] == realRoots[..i];
      AccumulateAppend(map[], RootContributions(realRoots[..i]), ContributionsAll(realRoot.nested));
    }
    assert realRoots[..|realRoots|] == realRoots;
    point := StackedPoint(aggregate, stackedTimers.entries);
  }
}
