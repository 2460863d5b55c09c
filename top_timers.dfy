/** Top-N selection of the metrics chart (getTopTimerNames): the stacked timer
    maps of the window are summed per name, and the names with the greatest
    window totals are kept, greatest first. */
module TopTimers {
  import opened LongMaps
  import opened Timers

  function Min(a: int, b: int): int
  {
    if a <= b then a else b
  }

  /** Every name recorded at some point of the window. */
  function WindowNames(points: seq<StackedPoint>): set<string>
    decreases |points|
  {
    if points == [] then {}
    else WindowNames(points[..|points| - 1]) + points[|points| - 1].stackedTimers.Keys
  }

  /** The window total of `name`: its stacked micros summed over every point. */
  function WindowTotal(points: seq<StackedPoint>, name: string): int
    decreases |points|
  {
    if points == [] then 0
    else WindowTotal(points[..|points| - 1], name) + GetOrZero(points[|points| - 1].stackedTimers, name)
  }

  /** The merged timer totals of the window, one entry per recorded name. */
  function WindowTotals(points: seq<StackedPoint>): map<string, int>
  {
    map k | k in WindowNames(points) :: WindowTotal(points, k)
  }

  /** The set of the elements of a sequence. */
  ghost function Elems(s: seq<string>): set<string>
  {
    set x | x in s
  }

  ghost predicate Distinct(s: seq<string>)
  {
    forall i, j :: 0 <= i < j < |s| ==> s[i] != s[j]
  }

  /** `names` is a choice of the `topX` greatest entries of `totals`: as many as
      there are, up to `topX`, without repetition, greatest total first, and no
      omitted entry has a greater total than a chosen one. Among equal totals
      any order and any choice is allowed. */
  ghost predicate IsGreatestOf(totals: map<string, int>, names: seq<string>, topX: nat)
  {
    && |names| == Min(topX, |totals|)
    && (forall i :: 0 <= i < |names| ==> names[i] in totals)
    && Distinct(names)
    && (forall i, j :: 0 <= i < j < |names| ==> totals[names[i]] >= totals[names[j]])
    && (forall i, k :: 0 <= i < |names| && k in totals && k !in names ==> totals[names[i]] >= totals[k])
  }

  // ---------------------------------------------------------------------------
  // Summing the window

  /** A name never recorded in the window has window total 0. */
  lemma {:induction false} WindowTotalOutside(points: seq<StackedPoint>, name: string)
    requires name !in WindowNames(points)
    ensures WindowTotal(points, name) == 0
    decreases |points|
  {
    if points != [] {
      WindowTotalOutside(points[..|points| - 1], name);
    }
  }

  /** The first loop of getTopTimerNames: adds every entry of every point's
      stacked map into one accumulator, visiting each map's entries in an
      unspecified order. */
  method TimerTotals(points: seq<StackedPoint>) returns (totals: map<string, int>)
    ensures totals == WindowTotals(points)
  {
    var timerTotals := new LongMap<string>();
    for i := 0 to |points|
      invariant timerTotals.entries == WindowTotals(points[..i])
    {
      var entries := points[i].stackedTimers;
      ghost var base := timerTotals.entries;
      var todo := entries.Keys;
      while todo != {}
        invariant todo <= entries.Keys
        invariant timerTotals.entries.Keys == base.Keys + (entries.Keys - todo)
        invariant forall k :: k in timerTotals.entries ==>
            timerTotals.entries[k] == GetOrZero(base, k) + (if k in entries && k !in todo then entries[k] else 0)
        decreases todo
      {
        var k :| k in todo;
        timerTotals.Add(k, entries[k]);
        todo := todo - {k};
      }
      ghost var next := points[..i + 1];
      assert next[..|next| - 1] == points[..i];
      forall k | k in timerTotals.entries
        ensures timerTotals.entries[k] == WindowTotal(next, k)
      {
        if k !in WindowNames(points[..i]) {
          WindowTotalOutside(points[..i], k);
        }
      }
    }
    assert points[..|points|] == points;
    totals := timerTotals.entries;
  }

  // ---------------------------------------------------------------------------
  // Selecting the greatest entries (Ordering.greatestOf)

  /** A key of `candidates` whose total is at least every other candidate's. */
  method GreatestKey(totals: map<string, int>, candidates: set<string>) returns (best: string)
    requires candidates != {} && candidates <= totals.Keys
    ensures best in candidates
    ensures forall k :: k in candidates ==> totals[k] <= totals[best]
  {
    best :| best in candidates;
    var todo := candidates - {best};
    while todo != {}
      invariant todo <= candidates && best in candidates
      invariant forall k :: k in candidates - todo ==> totals[k] <= totals[best]
      decreases todo
    {
      var k :| k in todo;
      if totals[k] > totals[best] {
        best := k;
      }
      todo := todo - {k};
    }
  }

  /** The `topX` greatest entries of `totals`, greatest first. */
  method GreatestOf(totals: map<string, int>, topX: nat) returns (names: seq<string>)
    ensures IsGreatestOf(totals, names, topX)
  {
    names := [];
    var rest := totals.Keys;
    while |names| < topX && rest != {}
      invariant forall k :: k in rest <==> k in totals && k !in names
      invariant |rest| + |names| == |totals|
      invariant forall i :: 0 <= i < |names| ==> names[i] in totals
      invariant Distinct(names)
      invariant forall i, j :: 0 <= i < j < |names| ==> totals[names[i]] >= totals[names[j]]
      invariant forall i, k :: 0 <= i < |names| && k in rest ==> totals[names[i]] >= totals[k]
      invariant |names| <= topX
      decreases rest
    {
      var best := GreatestKey(totals, rest);
      names := names + [best];
      rest := rest - {best};
    }
    if rest != {} {
      assert |names| == topX;
    }
  }

  /** getTopTimerNames: the `topX` names with the greatest window totals. */
  method TopTimerNames(points: seq<StackedPoint>, topX: nat) returns (names: seq<string>)
    ensures IsGreatestOf(WindowTotals(points), names, topX)
  {
    var timerTotals := TimerTotals(points);
    names := GreatestOf(timerTotals, topX);
  }

  // ---------------------------------------------------------------------------
  // Properties of a top selection

  /** Every selected name was recorded in the window, and the number selected is
      the smaller of `topX` and the number of distinct recorded names. */
  lemma GreatestOfWindow(points: seq<StackedPoint>, names: seq<string>, topX: nat)
    requires IsGreatestOf(WindowTotals(points), names, topX)
    ensures |names| == Min(topX, |WindowNames(points)|)
    ensures forall i :: 0 <= i < |names| ==> names[i] in WindowNames(points)
  {
    assert WindowTotals(points).Keys == WindowNames(points);
  }

  /** The leading part of a top selection is itself a top selection: asking for
      topX + 1 names and keeping the first topX, as getMetricDataSeries does,
      yields a valid top-topX selection. */
  lemma GreatestOfPrefix(totals: map<string, int>, names: seq<string>, topX: nat, n: nat)
    requires IsGreatestOf(totals, names, topX)
    requires n <= topX
    ensures IsGreatestOf(totals, names[..Min(n, |names|)], n)
  {
    var p := names[..Min(n, |names|)];
    forall i, k | 0 <= i < |p| && k in totals && k !in p
      ensures totals[p[i]] >= totals[k]
    {
      if k in names {
        var j :| 0 <= j < |names| && names[j] == k;
        assert j >= |p|;
      }
    }
  }

  lemma {:induction false} ElemsCard(s: seq<string>)
    ensures |Elems(s)| <= |s|
    ensures Distinct(s) ==> |Elems(s)| == |s|
    decreases |s|
  {
    if s != [] {
      var init := s[..|s| - 1];
      ElemsCard(init);
      assert Elems(s) == Elems(init) + {s[|s| - 1]};
      if Distinct(s) {
        assert Distinct(init);
        assert s[|s| - 1] !in Elems(init);
      }
    }
  }

  lemma SubsetCard(a: set<string>, b: set<string>)
    requires a <= b
    ensures |a| <= |b|
  {
    assert b == a + (b - a);
  }

  /** A name with a strictly greater total than rank `i` of a top selection is
      selected, ahead of rank `i`. */
  lemma GreaterIsAhead(totals: map<string, int>, b: seq<string>, kb: nat, i: nat, x: string)
    requires IsGreatestOf(totals, b, kb)
    requires i < |b| && x in totals && totals[x] > totals[b[i]]
    ensures x in Elems(b[..i])
  {
    assert x in b;
    var l :| 0 <= l < |b| && b[l] == x;
    assert l < i;
    assert b[..i][l] == x;
  }

  /** At most `i` distinct names can have a greater total than rank `i`. */
  lemma GreaterCount(totals: map<string, int>, b: seq<string>, kb: nat, i: nat, s: seq<string>)
    requires IsGreatestOf(totals, b, kb)
    requires i < |b| && Distinct(s)
    requires forall j :: 0 <= j < |s| ==> s[j] in totals && totals[s[j]] > totals[b[i]]
    ensures |s| <= i
  {
    forall x | x in Elems(s)
      ensures x in Elems(b[..i])
    {
      GreaterIsAhead(totals, b, kb, i, x);
    }
    SubsetCard(Elems(s), Elems(b[..i]));
    ElemsCard(s);
    ElemsCard(b[..i]);
  }

  /** No top selection can have a strictly greater total at rank `i` than
      another top selection of the same totals. */
  lemma NoGreaterAtRank(totals: map<string, int>, a: seq<string>, ka: nat, b: seq<string>, kb: nat, i: nat)
    requires IsGreatestOf(totals, a, ka) && IsGreatestOf(totals, b, kb)
    requires i < |a| && i < |b|
    ensures totals[a[i]] <= totals[b[i]]
  {
    if totals[a[i]] > totals[b[i]] {
      GreaterCount(totals, b, kb, i, a[..i + 1]);
    }
  }

  /** Top-N stability: any two top selections of the same totals, of whatever
      sizes, agree on the total at every rank they both have, so the first k
      names of a top-(k+1) selection carry the same totals as any top-k
      selection; names can differ only among equal totals. */
  lemma GreatestOfRanksAgree(totals: map<string, int>, a: seq<string>, ka: nat, b: seq<string>, kb: nat)
    requires IsGreatestOf(totals, a, ka) && IsGreatestOf(totals, b, kb)
    ensures forall i :: 0 <= i < |a| && i < |b| ==> totals[a[i]] == totals[b[i]]
  {
    forall i | 0 <= i < |a| && i < |b|
      ensures totals[a[i]] == totals[b[i]]
    {
      NoGreaterAtRank(totals, a, ka, b, kb, i);
      NoGreaterAtRank(totals, b, kb, a, ka, i);
    }
  }
}
