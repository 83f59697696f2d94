/** The vote tables on every run: what their rows are, what they decide, and exactly when that is what memory decides. */
module ConsensusLog {
  import opened Seqs
  import opened ConsensusVotes
  import opened ConsensusRuns

  // ---------------------------------------------------------------- the rows of the table

  /** A later arrival, on any key, found vote i too old: the clean-up of the table is global. */
  predicate Swept(p: Policy, h: seq<VoteRecord>, i: nat)
    requires i < |h|
  {
    exists j :: i < j < |h| && h[i].timestamp < h[j].timestamp - p.Window()
  }

  /** Vote i is a row of the table, unless a consensus on its key cleared it. */
  predicate Remains(p: Policy, upsert: bool, h: seq<VoteRecord>, i: nat)
    requires i < |h|
  {
    !Swept(p, h, i) && (upsert ==> forall j :: i < j < |h| ==> NotVoter(h[j])(h[i]))
  }

  function Remaining(p: Policy, upsert: bool, h: seq<VoteRecord>, key: Key, from: nat): seq<VoteRecord>
    decreases |h| - from
  {
    if from >= |h| then []
    else (if h[from].key == key && Remains(p, upsert, h, from) then [h[from]] else []) + Remaining(p, upsert, h, key, from + 1)
  }

  /** The rows of its key that the newest arrival finds in its window, counting arrivals from `from` on. */
  function Counted(p: Policy, upsert: bool, h: seq<VoteRecord>, from: nat): seq<VoteRecord>
    requires h != []
  {
    var v := h[|h|-1];
    Filter(Remaining(p, upsert, h, v.key, from), FreshSince(v.timestamp - p.Window()))
  }

  /** How many arrivals, on any key, precede the end of the key's latest consensus in the table. */
  function Cleared(p: Policy, upsert: bool, h: seq<VoteRecord>, key: Key): (n: nat)
    ensures n <= |h|
    decreases |h|, 1
  {
    if h == [] then 0
    else if h[|h|-1].key == key && StoredConsensusNow(p, upsert, h) then |h|
    else Cleared(p, upsert, h[..|h|-1], key)
  }

  /** The rows since the latest consensus agree on the newest arrival. */
  predicate StoredConsensusNow(p: Policy, upsert: bool, h: seq<VoteRecord>)
    decreases |h|, 0
  {
    h != [] &&
    Agreed(p, Counted(p, upsert, h, Cleared(p, upsert, h[..|h|-1], h[|h|-1].key)), h[|h|-1].regime)
  }

  function Stays(p: Policy, upsert: bool, v: VoteRecord): VoteRecord -> bool {
    (x: VoteRecord) => x.timestamp >= v.timestamp - p.Window() && (upsert ==> NotVoter(v)(x))
  }

  function If(yes: bool, v: VoteRecord): seq<VoteRecord> { if yes then [v] else [] }

  lemma FilterIf(yes: bool, v: VoteRecord, f: VoteRecord -> bool)
    ensures Filter(If(yes, v), f) == If(yes && f(v), v)
  {
    FilterOne(v, f);
  }

  lemma RemainsSnoc(p: Policy, upsert: bool, g: seq<VoteRecord>, v: VoteRecord, i: nat)
    requires i < |g|
    ensures Remains(p, upsert, g + [v], i) <==> Remains(p, upsert, g, i) && Stays(p, upsert, v)(g[i])
  {
    var h := g + [v];
    assert h[|g|] == v;
    assert forall j :: 0 <= j < |g| ==> h[j] == g[j];
    if Swept(p, g, i) {
      var j :| i < j < |g| && g[i].timestamp < g[j].timestamp - p.Window();
      assert h[i].timestamp < h[j].timestamp - p.Window();
    }
    if Remains(p, upsert, h, i) && upsert {
      assert forall j :: i < j < |g| ==> NotVoter(h[j])(h[i]);
    }
  }

  lemma {:induction false} RemainingSnoc(p: Policy, upsert: bool, g: seq<VoteRecord>, v: VoteRecord, key: Key, from: nat)
    requires from <= |g|
    ensures Remaining(p, upsert, g + [v], key, from)
         == Filter(Remaining(p, upsert, g, key, from), Stays(p, upsert, v)) + If(v.key == key, v)
    decreases |g| - from
  {
    if from == |g| {
      assert Remaining(p, upsert, g + [v], key, from + 1) == [];
    } else {
      var yes := g[from].key == key && Remains(p, upsert, g, from);
      RemainingSnoc(p, upsert, g, v, key, from + 1);
      RemainsSnoc(p, upsert, g, v, from);
      FilterAppend(If(yes, g[from]), Remaining(p, upsert, g, key, from + 1), Stays(p, upsert, v));
      FilterIf(yes, g[from], Stays(p, upsert, v));
    }
  }

  lemma WithVoteOn(p: Policy, upsert: bool, rows: seq<VoteRecord>, v: VoteRecord, key: Key)
    ensures Filter(WithVote(p, upsert, rows, v), OnKey(key))
         == Filter(Filter(rows, OnKey(key)), Stays(p, upsert, v)) + If(v.key == key, v)
  {
    var recent := FreshSince(v.timestamp - p.Window());
    var kept := Filter(rows, recent);
    var others := if upsert then Filter(kept, NotVoter(v)) else kept;
    var both := (x: VoteRecord) => x.key == key && Stays(p, upsert, v)(x);
    FilterAppend(others, [v], OnKey(key));
    FilterOne(v, OnKey(key));
    FilterFilter(rows, OnKey(key), Stays(p, upsert, v), both);
    if upsert {
      FilterFilter(rows, recent, NotVoter(v), Stays(p, true, v));
      FilterFilter(rows, Stays(p, true, v), OnKey(key), both);
    } else {
      FilterFilter(rows, recent, OnKey(key), both);
    }
  }

  /** One arrival on what the table holds of a key. */
  lemma RowsStep(p: Policy, upsert: bool, rows: seq<VoteRecord>, g: seq<VoteRecord>, v: VoteRecord, key: Key, from: nat)
    requires from <= |g| && Filter(rows, OnKey(key)) == Remaining(p, upsert, g, key, from)
    ensures Filter(WithVote(p, upsert, rows, v), OnKey(key)) == Remaining(p, upsert, g + [v], key, from)
  {
    WithVoteOn(p, upsert, rows, v, key);
    RemainingSnoc(p, upsert, g, v, key, from);
  }

  lemma CountedRows(p: Policy, upsert: bool, rows: seq<VoteRecord>, g: seq<VoteRecord>, v: VoteRecord, from: nat)
    requires from <= |g| && Filter(rows, OnKey(v.key)) == Remaining(p, upsert, g, v.key, from)
    ensures Filter(WithVote(p, upsert, rows, v), OnKeySince(v.key, v.timestamp - p.Window())) == Counted(p, upsert, g + [v], from)
  {
    var after, cutoff := WithVote(p, upsert, rows, v), v.timestamp - p.Window();
    RowsStep(p, upsert, rows, g, v, v.key, from);
    FilterFilter(after, OnKey(v.key), FreshSince(cutoff), OnKeySince(v.key, cutoff));
  }

  lemma SameBag(rows: seq<VoteRecord>, key: Key, cutoff: int, counted: seq<VoteRecord>)
    requires Filter(rows, OnKeySince(key, cutoff)) == counted
    ensures multiset(GetVotes(rows, key, cutoff)) == multiset(counted)
  {
  }

  lemma DecidesOnCounted(p: Policy, upsert: bool, rows: seq<VoteRecord>, g: seq<VoteRecord>, v: VoteRecord, from: nat)
    requires from <= |g| && Filter(rows, OnKey(v.key)) == Remaining(p, upsert, g, v.key, from)
    ensures multiset(StoredVotes(p, upsert, rows, v)) == multiset(Counted(p, upsert, g + [v], from))
    ensures StoreElevates(p, upsert, rows, v) <==> Agreed(p, Counted(p, upsert, g + [v], from), v.regime)
  {
    var counted := Counted(p, upsert, g + [v], from);
    CountedRows(p, upsert, rows, g, v, from);
    SameBag(WithVote(p, upsert, rows, v), v.key, v.timestamp - p.Window(), counted);
    AgreedIgnoresOrder(p, StoredVotes(p, upsert, rows, v), counted, v.regime);
  }

  ghost predicate HoldsRemaining(p: Policy, upsert: bool, rows: seq<VoteRecord>, h: seq<VoteRecord>, key: Key) {
    Filter(rows, OnKey(key)) == Remaining(p, upsert, h, key, Cleared(p, upsert, h, key))
  }

  lemma RowsOneMore(p: Policy, upsert: bool, rows: seq<VoteRecord>, next: seq<VoteRecord>,
                    g: seq<VoteRecord>, v: VoteRecord, h: seq<VoteRecord>, key: Key)
    requires h == g + [v] && next == NextRows(p, upsert, rows, v)
    requires HoldsRemaining(p, upsert, rows, g, key) && HoldsRemaining(p, upsert, rows, g, v.key)
    ensures HoldsRemaining(p, upsert, next, h, key)
  {
    assert h[..|h|-1] == g && h[|h|-1] == v;
    DecidesOnCounted(p, upsert, rows, g, v, Cleared(p, upsert, g, v.key));
    assert StoreElevates(p, upsert, rows, v) <==> StoredConsensusNow(p, upsert, h);
    RowsStep(p, upsert, rows, g, v, key, Cleared(p, upsert, g, key));
    ClearingKeeps(WithVote(p, upsert, rows, v), v.key, key);
  }

  lemma NoRows(p: Policy, upsert: bool, key: Key)
    ensures HoldsRemaining(p, upsert, Rows(p, upsert, []), [], key)
  {
  }

  lemma RowsSnoc(p: Policy, upsert: bool, h: seq<VoteRecord>)
    requires h != []
    ensures Rows(p, upsert, h) == NextRows(p, upsert, Rows(p, upsert, h[..|h|-1]), h[|h|-1])
  {
  }

  /** On every run, under any clock and for either table, the rows of a key are its votes since its latest consensus
      that no arrival has swept away, and with one row per agent that their agent has not replaced. */
  lemma {:induction false} RowsRemain(p: Policy, upsert: bool, h: seq<VoteRecord>, key: Key)
    ensures HoldsRemaining(p, upsert, Rows(p, upsert, h), h, key)
  {
    if h == [] {
      NoRows(p, upsert, key);
    } else {
      RowsRemain(p, upsert, h[..|h|-1], key);
      RowsRemain(p, upsert, h[..|h|-1], h[|h|-1].key);
      RowsSnoc(p, upsert, h);
      RowsOneMore(p, upsert, Rows(p, upsert, h[..|h|-1]), Rows(p, upsert, h), h[..|h|-1], h[|h|-1], h, key);
    }
  }

  lemma ClearingKeeps(rows: seq<VoteRecord>, cleared: Key, key: Key)
    ensures Filter(Filter(rows, OffKey(cleared)), OnKey(key)) == if key == cleared then [] else Filter(rows, OnKey(key))
  {
    if key == cleared {
      FilterMembers(rows, OffKey(cleared));
      FilterNone(Filter(rows, OffKey(cleared)), OnKey(key));
    } else {
      FilterFilter(rows, OffKey(cleared), OnKey(key), OnKey(key));
    }
  }

  /** On every run the table elevates an arrival exactly when those rows agree. */
  lemma StoredElevatesIff(p: Policy, upsert: bool, g: seq<VoteRecord>, v: VoteRecord)
    ensures StoreElevates(p, upsert, Rows(p, upsert, g), v) <==> StoredConsensusNow(p, upsert, g + [v])
    ensures multiset(StoredVotes(p, upsert, Rows(p, upsert, g), v)) == multiset(Counted(p, upsert, g + [v], Cleared(p, upsert, g, v.key)))
  {
    assert (g + [v])[..|g|] == g;
    RowsRemain(p, upsert, g, v.key);
    DecidesOnCounted(p, upsert, Rows(p, upsert, g), g, v, Cleared(p, upsert, g, v.key));
  }

  lemma DecidedOnRun(p: Policy, upsert: bool, g: seq<VoteRecord>, v: VoteRecord)
    ensures var counted := Counted(p, upsert, g + [v], Cleared(p, upsert, g, v.key));
      |StoredVotes(p, upsert, Rows(p, upsert, g), v)| == |counted| &&
      (StoreElevates(p, upsert, Rows(p, upsert, g), v) <==> Agreed(p, counted, v.regime))
  {
    RowsRemain(p, upsert, g, v.key);
    DecidesOnCounted(p, upsert, Rows(p, upsert, g), g, v, Cleared(p, upsert, g, v.key));
    SameSize(StoredVotes(p, upsert, Rows(p, upsert, g), v), Counted(p, upsert, g + [v], Cleared(p, upsert, g, v.key)));
  }

  lemma SameSize(a: seq<VoteRecord>, b: seq<VoteRecord>)
    requires multiset(a) == multiset(b)
    ensures |a| == |b|
  {
    assert |multiset(a)| == |multiset(b)|;
  }

  // ---------------------------------------------------------------- exactly when table and memory decide alike

  /** How many arrivals, on any key, precede the end of the key's latest consensus in memory. */
  function UsedOn(p: Policy, h: seq<VoteRecord>, key: Key): (n: nat)
    ensures n <= |h|
  {
    if h == [] then 0
    else if h[|h|-1].key == key && ConsensusNow(p, Arrivals(h, key)) then |h|
    else UsedOn(p, h[..|h|-1], key)
  }

  /** On the newest arrival, the rows that remain since memory's latest consensus agree exactly when memory does. */
  predicate Alike(p: Policy, upsert: bool, h: seq<VoteRecord>)
    requires h != []
  {
    var v := h[|h|-1];
    Agreed(p, Counted(p, upsert, h, UsedOn(p, h[..|h|-1], v.key)), v.regime) == ConsensusNow(p, Arrivals(h, v.key))
  }

  /** Both forms decide the newest arrival alike. */
  predicate SameNow(p: Policy, upsert: bool, h: seq<VoteRecord>)
    requires h != []
  {
    StoredConsensusNow(p, upsert, h) == ConsensusNow(p, Arrivals(h, h[|h|-1].key))
  }

  predicate SameSoFar(p: Policy, upsert: bool, h: seq<VoteRecord>) {
    h == [] || (SameSoFar(p, upsert, h[..|h|-1]) && SameNow(p, upsert, h))
  }

  lemma {:induction false} SameUsed(p: Policy, upsert: bool, h: seq<VoteRecord>, key: Key)
    requires SameSoFar(p, upsert, h)
    ensures Cleared(p, upsert, h, key) == UsedOn(p, h, key)
  {
    if h != [] {
      SameUsed(p, upsert, h[..|h|-1], key);
    }
  }

  lemma SameIffAlike(p: Policy, upsert: bool, h: seq<VoteRecord>)
    requires h != [] && SameSoFar(p, upsert, h[..|h|-1])
    ensures SameNow(p, upsert, h) <==> Alike(p, upsert, h)
  {
    SameUsed(p, upsert, h[..|h|-1], h[|h|-1].key);
  }

  lemma {:induction false} OneDecisionEach(p: Policy, upsert: bool, h: seq<VoteRecord>)
    ensures |StoreElevations(p, upsert, h)| == |h| && |MemoryElevations(p, h)| == |h|
  {
    if h != [] { OneDecisionEach(p, upsert, h[..|h|-1]); }
  }

  /** The decisions of a run, one by one. */
  lemma {:induction false} ElevationsAreDecisions(p: Policy, upsert: bool, h: seq<VoteRecord>)
    ensures StoreElevations(p, upsert, h) == MemoryElevations(p, h) <==> SameSoFar(p, upsert, h)
  {
    if h != [] {
      ElevationsAreDecisions(p, upsert, h[..|h|-1]);
      NewestDecision(p, upsert, h);
    }
  }

  lemma NewestDecision(p: Policy, upsert: bool, h: seq<VoteRecord>)
    requires h != []
    ensures StoreElevations(p, upsert, h) == MemoryElevations(p, h) <==>
      StoreElevations(p, upsert, h[..|h|-1]) == MemoryElevations(p, h[..|h|-1]) && SameNow(p, upsert, h)
  {
    var g, v := h[..|h|-1], h[|h|-1];
    assert h == g + [v];
    StoredElevatesIff(p, upsert, g, v);
    ElevatedIsConsensus(p, g, v);
    OneDecisionEach(p, upsert, g);
    SnocEqual(StoreElevations(p, upsert, g), MemoryElevations(p, g),
              StoreElevates(p, upsert, Rows(p, upsert, g), v), Elevates(p, PendingOf(Memory(p, g), v.key), v));
  }

  lemma SnocEqual(a: seq<bool>, b: seq<bool>, x: bool, y: bool)
    requires |a| == |b|
    ensures a + [x] == b + [y] <==> a == b && x == y
  {
    if a + [x] == b + [y] {
      assert a == (a + [x])[..|a|] && b == (b + [y])[..|b|];
      assert x == (a + [x])[|a|] && y == (b + [y])[|b|];
    }
  }

  /** At every arrival of the run. */
  ghost predicate AlikeThroughout(p: Policy, upsert: bool, h: seq<VoteRecord>) {
    forall n :: 0 < n <= |h| ==> Alike(p, upsert, h[..n])
  }

  lemma AlikePrefix(p: Policy, upsert: bool, g: seq<VoteRecord>, v: VoteRecord)
    requires AlikeThroughout(p, upsert, g + [v])
    ensures AlikeThroughout(p, upsert, g) && Alike(p, upsert, g + [v])
  {
    var h := g + [v];
    assert h[..|h|] == h;
    forall n | 0 < n <= |g|
      ensures Alike(p, upsert, g[..n])
    {
      assert g[..n] == h[..n];
    }
  }

  lemma AlikeSnoc(p: Policy, upsert: bool, g: seq<VoteRecord>, v: VoteRecord)
    requires AlikeThroughout(p, upsert, g) && Alike(p, upsert, g + [v])
    ensures AlikeThroughout(p, upsert, g + [v])
  {
    var h := g + [v];
    forall n | 0 < n <= |h|
      ensures Alike(p, upsert, h[..n])
    {
      assert h[..n] == if n <= |g| then g[..n] else h;
    }
  }

  lemma {:induction false} SameIffAlikeThroughout(p: Policy, upsert: bool, h: seq<VoteRecord>)
    ensures SameSoFar(p, upsert, h) <==> AlikeThroughout(p, upsert, h)
  {
    if h != [] {
      var g := h[..|h|-1];
      assert h == g + [h[|h|-1]];
      SameIffAlikeThroughout(p, upsert, g);
      if SameSoFar(p, upsert, g) { SameIffAlike(p, upsert, h); }
      if AlikeThroughout(p, upsert, h) { AlikePrefix(p, upsert, g, h[|h|-1]); }
      if SameSoFar(p, upsert, h) { AlikeSnoc(p, upsert, g, h[|h|-1]); }
    }
  }

  /** Exactly when both forms elevate the same arrivals of a run, under any clock and either policy, for either table:
      when at every arrival the rows that remain since memory's latest consensus agree exactly if memory does. */
  lemma RunsAlikeIff(p: Policy, upsert: bool, h: seq<VoteRecord>)
    ensures StoreElevations(p, upsert, h) == MemoryElevations(p, h) <==> AlikeThroughout(p, upsert, h)
  {
    ElevationsAreDecisions(p, upsert, h);
    SameIffAlikeThroughout(p, upsert, h);
  }
}
