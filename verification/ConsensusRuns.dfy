/** Whole runs over many keys: the in-memory router, the stored router, and why they decide alike. */
module ConsensusRuns {
  import opened Seqs
  import opened Sorting
  import opened ConsensusVotes

  function OnKey(key: Key): VoteRecord -> bool {
    (x: VoteRecord) => x.key == key
  }

  function OffKey(key: Key): VoteRecord -> bool {
    (x: VoteRecord) => x.key != key
  }

  function OnKeySince(key: Key, cutoff: int): VoteRecord -> bool {
    (x: VoteRecord) => x.key == key && x.timestamp >= cutoff
  }

  function NotVoter(v: VoteRecord): VoteRecord -> bool {
    (x: VoteRecord) => !(x.key == v.key && x.agent == v.agent)
  }

  /** The arrivals on one key, in order. */
  function Arrivals(h: seq<VoteRecord>, key: Key): seq<VoteRecord> {
    Filter(h, OnKey(key))
  }

  // ---------------------------------------------------------------- in memory

  type PendingMap = map<Key, seq<VoteRecord>>

  /** The pending defaultdict: a missing key reads as no votes. */
  function PendingOf(m: PendingMap, key: Key): seq<VoteRecord> {
    if key in m then m[key] else []
  }

  function NextMemory(p: Policy, m: PendingMap, v: VoteRecord): PendingMap {
    m[v.key := NextPending(p, PendingOf(m, v.key), v)]
  }

  function Memory(p: Policy, h: seq<VoteRecord>): PendingMap {
    if h == [] then map[] else NextMemory(p, Memory(p, h[..|h|-1]), h[|h|-1])
  }

  /** For each arrival, whether the in-memory router elevates it. */
  function MemoryElevations(p: Policy, h: seq<VoteRecord>): seq<bool> {
    if h == [] then []
    else
      var g, v := h[..|h|-1], h[|h|-1];
      MemoryElevations(p, g) + [Elevates(p, PendingOf(Memory(p, g), v.key), v)]
  }

  lemma ArrivalsSnoc(g: seq<VoteRecord>, v: VoteRecord, key: Key)
    ensures Arrivals(g + [v], key) == Arrivals(g, key) + if v.key == key then [v] else []
  {
    FilterAppend(g, [v], OnKey(key));
    assert [v][1..] == [];
    assert Filter([v], OnKey(key)) == if v.key == key then [v] else [];
  }

  /** Keys do not disturb each other: what is pending on a key is a function of its own arrivals. */
  lemma {:induction false} MemoryPerKey(p: Policy, h: seq<VoteRecord>, key: Key)
    ensures PendingOf(Memory(p, h), key) == PendingAfter(p, Arrivals(h, key))
  {
    if h != [] {
      var g, v := h[..|h|-1], h[|h|-1];
      assert h == g + [v];
      MemoryPerKey(p, g, key);
      ArrivalsSnoc(g, v, key);
      if v.key == key {
        var mine := Arrivals(g, key) + [v];
        assert mine[..|mine|-1] == Arrivals(g, key);
      } else {
        assert Arrivals(h, key) == Arrivals(g, key);
      }
    }
  }

  /** On every run, under any clock, memory elevates an arrival exactly on a consensus of its key's history. */
  lemma ElevatedIsConsensus(p: Policy, g: seq<VoteRecord>, v: VoteRecord)
    ensures Elevates(p, PendingOf(Memory(p, g), v.key), v) <==> ConsensusNow(p, Arrivals(g + [v], v.key))
  {
    var mine := Arrivals(g + [v], v.key);
    ArrivalsSnoc(g, v, v.key);
    assert mine[..|mine|-1] == Arrivals(g, v.key);
    MemoryPerKey(p, g, v.key);
    ElevatesIsConsensus(p, mine);
  }

  lemma {:induction false} ArrivalsInOrder(h: seq<VoteRecord>, key: Key)
    requires InOrder(h)
    ensures InOrder(Arrivals(h, key))
  {
    if h != [] {
      ArrivalsInOrder(h[1..], key);
      FilterMembers(h[1..], OnKey(key));
      var rest := Arrivals(h[1..], key);
      forall i | 0 <= i < |rest|
        ensures h[0].timestamp <= rest[i].timestamp
      {
        assert rest[i] in rest;
      }
    }
  }

  // ---------------------------------------------------------------- stored votes

  /** SELECT ... WHERE symbol, side and timestamp >= cutoff ORDER BY timestamp DESC. */
  function GetVotes(rows: seq<VoteRecord>, key: Key, cutoff: int): (r: seq<VoteRecord>)
    ensures multiset(r) == multiset(Filter(rows, OnKeySince(key, cutoff)))
  {
    Sort(Filter(rows, OnKeySince(key, cutoff)), (v: VoteRecord) => -(v.timestamp as real))
  }

  /** The table after cleanup_expired and add_vote. The table of the weighted router is an append
      log; the table of the basic router has one row per (symbol, side, agent), replaced on insert. */
  function WithVote(p: Policy, upsert: bool, rows: seq<VoteRecord>, v: VoteRecord): seq<VoteRecord> {
    var kept := Filter(rows, FreshSince(v.timestamp - p.Window()));
    (if upsert then Filter(kept, NotVoter(v)) else kept) + [v]
  }

  function StoredVotes(p: Policy, upsert: bool, rows: seq<VoteRecord>, v: VoteRecord): seq<VoteRecord> {
    GetVotes(WithVote(p, upsert, rows, v), v.key, v.timestamp - p.Window())
  }

  predicate StoreElevates(p: Policy, upsert: bool, rows: seq<VoteRecord>, v: VoteRecord) {
    Agreed(p, StoredVotes(p, upsert, rows, v), v.regime)
  }

  function NextRows(p: Policy, upsert: bool, rows: seq<VoteRecord>, v: VoteRecord): seq<VoteRecord> {
    var after := WithVote(p, upsert, rows, v);
    if StoreElevates(p, upsert, rows, v) then Filter(after, OffKey(v.key)) else after
  }

  function Rows(p: Policy, upsert: bool, h: seq<VoteRecord>): seq<VoteRecord> {
    if h == [] then [] else NextRows(p, upsert, Rows(p, upsert, h[..|h|-1]), h[|h|-1])
  }

  function StoreElevations(p: Policy, upsert: bool, h: seq<VoteRecord>): seq<bool> {
    if h == [] then []
    else
      var g, v := h[..|h|-1], h[|h|-1];
      StoreElevations(p, upsert, g) + [StoreElevates(p, upsert, Rows(p, upsert, g), v)]
  }

  // ---------------------------------------------------------------- they decide alike

  /** v's agent has already voted on the key, inside v's window and with no consensus since. */
  predicate VotesAgain(p: Policy, g: seq<VoteRecord>, v: VoteRecord) {
    var mine := Arrivals(g, v.key);
    exists i :: UsedUp(p, mine) <= i < |mine| && mine[i].agent == v.agent && mine[i].timestamp >= v.timestamp - p.Window()
  }

  ghost predicate NobodyVotesAgain(p: Policy, h: seq<VoteRecord>) {
    forall n :: 0 <= n < |h| ==> !VotesAgain(p, h[..n], h[n])
  }

  /** From the cutoff `now - window` on, the table and the dict hold the same votes of the key. */
  ghost predicate SameVotes(p: Policy, rows: seq<VoteRecord>, m: PendingMap, key: Key, now: int) {
    forall c :: c >= now - p.Window() ==>
      multiset(Filter(rows, OnKeySince(key, c))) == multiset(Filter(PendingOf(m, key), FreshSince(c)))
  }

  ghost predicate StoreMirrors(p: Policy, rows: seq<VoteRecord>, m: PendingMap, now: int) {
    forall key :: SameVotes(p, rows, m, key, now)
  }

  /** Votes of v's own agent that are pending and inside v's window. */
  function OwnSince(v: VoteRecord, cutoff: int): VoteRecord -> bool {
    (x: VoteRecord) => x.agent == v.agent && x.timestamp >= cutoff
  }

  /** What is pending on a key is what stands in the key's history. */
  lemma PendingMembers(p: Policy, g: seq<VoteRecord>, key: Key)
    ensures var mine := Arrivals(g, key);
      forall x :: x in PendingOf(Memory(p, g), key) <==> x in Standing(p, mine, UsedUp(p, mine))
  {
    var mine := Arrivals(g, key);
    MemoryPerKey(p, g, key);
    PendingIsStanding(p, mine);
    var a, b := PendingOf(Memory(p, g), key), Standing(p, mine, UsedUp(p, mine));
    forall x
      ensures x in a <==> x in b
    {
      assert x in a <==> x in multiset(a);
      assert x in b <==> x in multiset(b);
    }
  }

  /** An unexpired pending vote of the arriving agent is a repeated vote in the history ... */
  lemma PendingIsRepeat(p: Policy, g: seq<VoteRecord>, v: VoteRecord, x: VoteRecord)
    requires x in PendingOf(Memory(p, g), v.key) && OwnSince(v, v.timestamp - p.Window())(x)
    ensures VotesAgain(p, g, v)
  {
    var mine := Arrivals(g, v.key);
    PendingMembers(p, g, v.key);
    StandingMembers(p, mine, UsedUp(p, mine));
  }

  /** ... and a repeated vote leaves its agent's last one pending. */
  lemma RepeatIsPending(p: Policy, g: seq<VoteRecord>, v: VoteRecord) returns (x: VoteRecord)
    requires InOrder(g + [v]) && InOrder(g) && VotesAgain(p, g, v)
    ensures x in PendingOf(Memory(p, g), v.key) && OwnSince(v, v.timestamp - p.Window())(x)
  {
    var mine := Arrivals(g, v.key);
    PendingMembers(p, g, v.key);
    var i :| UsedUp(p, mine) <= i < |mine| && mine[i].agent == v.agent && mine[i].timestamp >= v.timestamp - p.Window();
    ArrivalsInOrder(g, v.key);
    var k := LastBy(mine, i);
    x := mine[k];
    LastNotAfter(g, v);
    assert Current(p, mine, k);
    OrderedLosesNone(p, mine, k);
    assert Stands(p, mine, k);
    StandingMembers(p, mine, UsedUp(p, mine));
  }

  lemma LastNotAfter(g: seq<VoteRecord>, v: VoteRecord)
    requires InOrder(g + [v])
    ensures var mine := Arrivals(g, v.key); mine != [] ==> mine[|mine|-1].timestamp <= v.timestamp
  {
    var mine := Arrivals(g, v.key);
    FilterMembers(g, OnKey(v.key));
    NotAfter(g, v);
    if mine != [] { assert mine[|mine|-1] in mine; }
  }

  lemma PendingOwnVote(p: Policy, g: seq<VoteRecord>, v: VoteRecord)
    requires InOrder(g + [v]) && InOrder(g)
    ensures Filter(PendingOf(Memory(p, g), v.key), OwnSince(v, v.timestamp - p.Window())) != [] <==> VotesAgain(p, g, v)
  {
    var own := Filter(PendingOf(Memory(p, g), v.key), OwnSince(v, v.timestamp - p.Window()));
    FilterMembers(PendingOf(Memory(p, g), v.key), OwnSince(v, v.timestamp - p.Window()));
    if own != [] {
      assert own[0] in own;
      PendingIsRepeat(p, g, v, own[0]);
    }
    if VotesAgain(p, g, v) {
      var x := RepeatIsPending(p, g, v);
      assert x in own;
    }
  }

  lemma NotAfter(g: seq<VoteRecord>, v: VoteRecord)
    requires InOrder(g + [v])
    ensures forall x :: x in g ==> x.timestamp <= v.timestamp
  {
    forall x | x in g
      ensures x.timestamp <= v.timestamp
    {
      var i :| 0 <= i < |g| && g[i] == x;
      assert (g + [v])[i] == x && (g + [v])[|g|] == v;
    }
  }

  /** The last vote of the agent of vote i; in an ordered history it is no older. */
  lemma LastBy(h: seq<VoteRecord>, i: nat) returns (k: nat)
    requires i < |h| && InOrder(h)
    ensures i <= k < |h| && h[k].agent == h[i].agent && h[k].timestamp >= h[i].timestamp
    ensures forall j :: k < j < |h| ==> h[j].agent != h[k].agent
    decreases |h| - i
  {
    if j :| i < j < |h| && h[j].agent == h[i].agent {
      k := LastBy(h, j);
    } else {
      k := i;
    }
  }

  /** The rows of the key in the window that the arriving vote finds, by insert rule. */
  function Offered(p: Policy, upsert: bool, rows: seq<VoteRecord>, v: VoteRecord): seq<VoteRecord> {
    var found := Filter(rows, OnKeySince(v.key, v.timestamp - p.Window()));
    if upsert then Filter(found, NotVoter(v)) else found
  }

  lemma OfferedRows(p: Policy, upsert: bool, rows: seq<VoteRecord>, v: VoteRecord)
    ensures Filter(WithVote(p, upsert, rows, v), OnKeySince(v.key, v.timestamp - p.Window()))
         == Offered(p, upsert, rows, v) + Arriving(p, v)
  {
    var cutoff := v.timestamp - p.Window();
    var kept := Filter(rows, FreshSince(cutoff));
    var here := OnKeySince(v.key, cutoff);
    FilterAppend(if upsert then Filter(kept, NotVoter(v)) else kept, [v], here);
    assert [v][1..] == [] && Filter([v][1..], here) == [];
    assert Filter([v], here) == Arriving(p, v);
    FilterFilter(rows, FreshSince(cutoff), here, here);
    if upsert {
      var others := (x: VoteRecord) => here(x) && NotVoter(v)(x);
      FilterFilter(kept, NotVoter(v), here, others);
      FilterFilter(kept, here, NotVoter(v), others);
    }
  }

  /** Which pending votes the table offers back: with one row per agent, not the agent's own. */
  function Kept(upsert: bool, v: VoteRecord, cutoff: int): VoteRecord -> bool {
    if upsert then OthersSince(v.agent, cutoff) else FreshSince(cutoff)
  }

  lemma OfferedIsPending(p: Policy, upsert: bool, rows: seq<VoteRecord>, pending: seq<VoteRecord>, v: VoteRecord)
    requires multiset(Filter(rows, OnKeySince(v.key, v.timestamp - p.Window())))
          == multiset(Filter(pending, FreshSince(v.timestamp - p.Window())))
    ensures multiset(Offered(p, upsert, rows, v)) == multiset(Filter(pending, Kept(upsert, v, v.timestamp - p.Window())))
  {
    if upsert {
      OfferedToUpsert(pending, rows, v, v.timestamp - p.Window());
    } else {
      assert Offered(p, upsert, rows, v) == Filter(rows, OnKeySince(v.key, v.timestamp - p.Window()));
    }
  }

  lemma OfferedToUpsert(pending: seq<VoteRecord>, rows: seq<VoteRecord>, v: VoteRecord, cutoff: int)
    requires multiset(Filter(rows, OnKeySince(v.key, cutoff))) == multiset(Filter(pending, FreshSince(cutoff)))
    ensures multiset(Filter(Filter(rows, OnKeySince(v.key, cutoff)), NotVoter(v)))
         == multiset(Filter(pending, OthersSince(v.agent, cutoff)))
  {
    var others := (x: VoteRecord) => x.agent != v.agent;
    FilterMembers(rows, OnKeySince(v.key, cutoff));
    FilterAgree(Filter(rows, OnKeySince(v.key, cutoff)), NotVoter(v), others);
    FilterPermuted(Filter(rows, OnKeySince(v.key, cutoff)), Filter(pending, FreshSince(cutoff)), others);
    FilterFilter(pending, FreshSince(cutoff), others, OthersSince(v.agent, cutoff));
  }

  /** What the table offers for the arriving vote, in terms of what is pending. */
  lemma StoredVotesCount(p: Policy, upsert: bool, rows: seq<VoteRecord>, m: PendingMap, v: VoteRecord, now: int)
    requires SameVotes(p, rows, m, v.key, now) && now <= v.timestamp
    ensures multiset(StoredVotes(p, upsert, rows, v))
         == multiset(Filter(PendingOf(m, v.key), Kept(upsert, v, v.timestamp - p.Window()))) + multiset(Arriving(p, v))
  {
    StoredBag(p, upsert, rows, v);
    OfferedIsPending(p, upsert, rows, PendingOf(m, v.key), v);
  }

  lemma StoredBag(p: Policy, upsert: bool, rows: seq<VoteRecord>, v: VoteRecord)
    ensures multiset(StoredVotes(p, upsert, rows, v)) == multiset(Offered(p, upsert, rows, v) + Arriving(p, v))
  {
    OfferedRows(p, upsert, rows, v);
  }

  /** The table has the same votes for the arriving vote as memory has. */
  lemma SameHand(p: Policy, upsert: bool, rows: seq<VoteRecord>, m: PendingMap, v: VoteRecord, now: int)
    requires SameVotes(p, rows, m, v.key, now) && now <= v.timestamp
    requires OneVoteEach(PendingOf(m, v.key))
    requires upsert || Filter(PendingOf(m, v.key), OwnSince(v, v.timestamp - p.Window())) == []
    ensures multiset(StoredVotes(p, upsert, rows, v)) == multiset(InHand(p, PendingOf(m, v.key), v))
    ensures StoreElevates(p, upsert, rows, v) == Elevates(p, PendingOf(m, v.key), v)
  {
    var cutoff := v.timestamp - p.Window();
    var pending := PendingOf(m, v.key);
    StoredVotesCount(p, upsert, rows, m, v, now);
    InHandCount(p, pending, v);
    if !upsert {
      FilterMembers(pending, OwnSince(v, cutoff));
      forall x | x in pending
        ensures FreshSince(cutoff)(x) == OthersSince(v.agent, cutoff)(x)
      {
        assert x !in Filter(pending, OwnSince(v, cutoff));
      }
      FilterAgree(pending, FreshSince(cutoff), OthersSince(v.agent, cutoff));
    }
    AgreedIgnoresOrder(p, StoredVotes(p, upsert, rows, v), InHand(p, pending, v), v.regime);
  }

  /** The arrival leaves the same votes behind on its own key. */
  lemma SameAfterOwn(p: Policy, upsert: bool, rows: seq<VoteRecord>, m: PendingMap, v: VoteRecord)
    requires multiset(StoredVotes(p, upsert, rows, v)) == multiset(InHand(p, PendingOf(m, v.key), v))
    requires StoreElevates(p, upsert, rows, v) == Elevates(p, PendingOf(m, v.key), v)
    ensures SameVotes(p, NextRows(p, upsert, rows, v), NextMemory(p, m, v), v.key, v.timestamp)
  {
    var cutoff := v.timestamp - p.Window();
    var after := WithVote(p, upsert, rows, v);
    var hand := InHand(p, PendingOf(m, v.key), v);
    forall c | c >= cutoff
      ensures multiset(Filter(NextRows(p, upsert, rows, v), OnKeySince(v.key, c)))
           == multiset(Filter(PendingOf(NextMemory(p, m, v), v.key), FreshSince(c)))
    {
      if StoreElevates(p, upsert, rows, v) {
        FilterMembers(after, OffKey(v.key));
        FilterNone(Filter(after, OffKey(v.key)), OnKeySince(v.key, c));
      } else {
        FilterFilter(after, OnKeySince(v.key, cutoff), FreshSince(c), OnKeySince(v.key, c));
        FilterPermuted(Filter(after, OnKeySince(v.key, cutoff)), hand, FreshSince(c));
      }
    }
  }

  /** Another key's rows are touched only where they had expired anyway. */
  lemma OtherRowsKept(p: Policy, upsert: bool, rows: seq<VoteRecord>, v: VoteRecord, key: Key, c: int)
    requires key != v.key && c >= v.timestamp - p.Window()
    ensures Filter(NextRows(p, upsert, rows, v), OnKeySince(key, c)) == Filter(rows, OnKeySince(key, c))
  {
    OtherRowsInserted(p, upsert, rows, v, key, c);
    FilterFilter(WithVote(p, upsert, rows, v), OffKey(v.key), OnKeySince(key, c), OnKeySince(key, c));
  }

  lemma OtherRowsInserted(p: Policy, upsert: bool, rows: seq<VoteRecord>, v: VoteRecord, key: Key, c: int)
    requires key != v.key && c >= v.timestamp - p.Window()
    ensures Filter(WithVote(p, upsert, rows, v), OnKeySince(key, c)) == Filter(rows, OnKeySince(key, c))
  {
    var kept := Filter(rows, FreshSince(v.timestamp - p.Window()));
    var here := OnKeySince(key, c);
    FilterNone([v], here);
    FilterFilter(rows, FreshSince(v.timestamp - p.Window()), here, here);
    if upsert {
      FilterAppend(Filter(kept, NotVoter(v)), [v], here);
      FilterFilter(kept, NotVoter(v), here, here);
    } else {
      FilterAppend(kept, [v], here);
    }
  }

  lemma SameAfterOther(p: Policy, upsert: bool, rows: seq<VoteRecord>, m: PendingMap, v: VoteRecord, key: Key, now: int)
    requires SameVotes(p, rows, m, key, now) && now <= v.timestamp && key != v.key
    ensures SameVotes(p, NextRows(p, upsert, rows, v), NextMemory(p, m, v), key, v.timestamp)
  {
    forall c | c >= v.timestamp - p.Window()
      ensures Filter(NextRows(p, upsert, rows, v), OnKeySince(key, c)) == Filter(rows, OnKeySince(key, c))
    {
      OtherRowsKept(p, upsert, rows, v, key, c);
    }
    assert PendingOf(NextMemory(p, m, v), key) == PendingOf(m, key);
  }

  /** One arrival: the same decision, and the same votes left behind on every key. */
  lemma MirrorsStep(p: Policy, upsert: bool, rows: seq<VoteRecord>, g: seq<VoteRecord>, v: VoteRecord, now: int)
    requires InOrder(g + [v]) && InOrder(g) && StoreMirrors(p, rows, Memory(p, g), now) && now <= v.timestamp
    requires upsert || !VotesAgain(p, g, v)
    ensures StoreElevates(p, upsert, rows, v) == Elevates(p, PendingOf(Memory(p, g), v.key), v)
    ensures StoreMirrors(p, NextRows(p, upsert, rows, v), NextMemory(p, Memory(p, g), v), v.timestamp)
  {
    var m := Memory(p, g);
    assert SameVotes(p, rows, m, v.key, now);
    MemoryPerKey(p, g, v.key);
    PendingOneEach(p, Arrivals(g, v.key));
    PendingOwnVote(p, g, v);
    SameHand(p, upsert, rows, m, v, now);
    SameAfterOwn(p, upsert, rows, m, v);
    forall key | key != v.key
      ensures SameVotes(p, NextRows(p, upsert, rows, v), NextMemory(p, m, v), key, v.timestamp)
    {
      assert SameVotes(p, rows, m, key, now);
      SameAfterOther(p, upsert, rows, m, v, key, now);
    }
  }

  lemma InOrderPrefix(g: seq<VoteRecord>, v: VoteRecord)
    requires InOrder(g + [v])
    ensures InOrder(g) && (g != [] ==> g[|g|-1].timestamp <= v.timestamp)
  {
    assert forall i :: 0 <= i < |g| ==> (g + [v])[i] == g[i];
    if g != [] { assert (g + [v])[|g|-1] == g[|g|-1] && (g + [v])[|g|] == v; }
  }

  lemma NobodyVotesAgainPrefix(p: Policy, g: seq<VoteRecord>, v: VoteRecord)
    requires NobodyVotesAgain(p, g + [v])
    ensures NobodyVotesAgain(p, g) && !VotesAgain(p, g, v)
  {
    var h := g + [v];
    assert h[..|g|] == g && h[|g|] == v;
    forall n | 0 <= n < |g|
      ensures !VotesAgain(p, g[..n], g[n])
    {
      assert g[..n] == h[..n] && g[n] == h[n];
    }
  }

  /** The clock after the run g, as far as the arrival v can tell. */
  function Clock(g: seq<VoteRecord>, v: VoteRecord): int {
    if g == [] then v.timestamp else g[|g|-1].timestamp
  }

  lemma {:induction false} MirrorsThroughout(p: Policy, upsert: bool, h: seq<VoteRecord>, v: VoteRecord)
    requires InOrder(h + [v]) && (upsert || NobodyVotesAgain(p, h))
    ensures StoreMirrors(p, Rows(p, upsert, h), Memory(p, h), Clock(h, v))
    ensures StoreElevations(p, upsert, h) == MemoryElevations(p, h)
  {
    if h == [] {
      assert StoreMirrors(p, [], map[], Clock(h, v));
    } else {
      var g, w := h[..|h|-1], h[|h|-1];
      assert h == g + [w];
      InOrderPrefix(h, v);
      if !upsert { NobodyVotesAgainPrefix(p, g, w); }
      MirrorsThroughout(p, upsert, g, w);
      MirrorsOneMore(p, upsert, g, w);
    }
  }

  lemma MirrorsOneMore(p: Policy, upsert: bool, g: seq<VoteRecord>, w: VoteRecord)
    requires InOrder(g + [w]) && (upsert || !VotesAgain(p, g, w))
    requires StoreMirrors(p, Rows(p, upsert, g), Memory(p, g), Clock(g, w))
    ensures StoreMirrors(p, Rows(p, upsert, g + [w]), Memory(p, g + [w]), w.timestamp)
    ensures StoreElevates(p, upsert, Rows(p, upsert, g), w) == Elevates(p, PendingOf(Memory(p, g), w.key), w)
  {
    var h := g + [w];
    assert h[..|h|-1] == g && h[|h|-1] == w;
    InOrderPrefix(g, w);
    MirrorsStep(p, upsert, Rows(p, upsert, g), g, w, Clock(g, w));
  }

  lemma SameElevations(p: Policy, upsert: bool, h: seq<VoteRecord>)
    requires InOrder(h) && (upsert || NobodyVotesAgain(p, h))
    ensures StoreElevations(p, upsert, h) == MemoryElevations(p, h)
  {
    if h != [] {
      var last := h[|h|-1];
      assert InOrder(h + [last]);
      MirrorsThroughout(p, upsert, h, last);
    }
  }

  /** The weighted router sends every opportunity at the same level from its append log as from
      memory, on any run with ordered timestamps in which no agent repeats a live vote. */
  lemma StoreDecidesLikeMemory(p: Policy, h: seq<VoteRecord>)
    requires InOrder(h) && NobodyVotesAgain(p, h)
    ensures StoreElevations(p, false, h) == MemoryElevations(p, h)
  {
    SameElevations(p, false, h);
  }

  /** A table with one row per agent needs no such condition. */
  lemma ReplacingStoreDecidesLikeMemory(p: Policy, h: seq<VoteRecord>)
    requires InOrder(h)
    ensures StoreElevations(p, true, h) == MemoryElevations(p, h)
  {
    SameElevations(p, true, h);
  }
}
