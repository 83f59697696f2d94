/** Parameter search: the genetic optimiser and the grid search. */
module Tuning {
  import opened Options
  import opened Reals
  import opened Sorting

  /** One value per parameter, in the order of the parameter names. */
  type Individual = seq<real>

  type Bounds = seq<(real, real)>

  /** What a backtest gives back: an exception, or metrics that may lack a Sharpe ratio. */
  datatype Trial = Raised | Metrics(sharpe: Option<real>)

  /** Between the two ends of a bound, in whichever order they are given. */
  predicate Between(x: real, bound: (real, real)) {
    bound.0 <= x <= bound.1 || bound.1 <= x <= bound.0
  }

  ghost predicate InBounds(x: Individual, bounds: Bounds) {
    |x| == |bounds| && forall i :: 0 <= i < |x| ==> Between(x[i], bounds[i])
  }

  // ---------------------------------------------------------------- genetic search

  function Fitness(t: Trial): real {
    if t.Metrics? && t.sharpe.Some? then t.sharpe.value else -999.0
  }

  type Scored = seq<(Individual, real)>

  function Falling(): ((Individual, real)) -> real {
    (s: (Individual, real)) => -s.1
  }

  /** Python's s[:k]. */
  function Front<T>(s: seq<T>, k: int): (r: seq<T>)
    ensures r <= s && |r| == if k >= |s| then |s| else if k >= 0 then k else if |s| + k > 0 then |s| + k else 0
  {
    if k >= 0 then s[..if k < |s| then k else |s|]
    else s[..if |s| + k > 0 then |s| + k else 0]
  }

  function Lesser(a: int, b: int): int { if a < b then a else b }

  datatype Outcome = Error | Best(params: Individual, sharpe: real, history: seq<real>)

  /** A population that generations of in-bounds individuals of one size can come from. */
  ghost predicate Fit(population: seq<Individual>, size: int, bounds: Bounds) {
    |population| == size && forall x :: x in population ==> InBounds(x, bounds)
  }

  /** `best` is the top score of the population. */
  ghost predicate TopScore(population: seq<Individual>, f: Individual -> Trial, best: real) {
    (exists x :: x in population && Fitness(f(x)) == best) && forall x :: x in population ==> Fitness(f(x)) <= best
  }

  /** The highest Sharpe ratio of the population, where a backtest that raised or gave none counts as -999. */
  ghost predicate HighestRatio(population: seq<Individual>, f: Individual -> Trial, best: real) {
    (exists x :: x in population && best == match f(x) case Metrics(Some(ratio)) => ratio case _ => -999.0) &&
    (forall x, ratio :: x in population && f(x) == Metrics(Some(ratio)) ==> ratio <= best) &&
    forall x :: x in population && (f(x).Raised? || f(x).sharpe.None?) ==> -999.0 <= best
  }

  lemma TopIsHighest(evaluated: seq<seq<Individual>>, f: Individual -> Trial, history: seq<real>)
    requires |evaluated| == |history| && forall g :: 0 <= g < |history| ==> TopScore(evaluated[g], f, history[g])
    ensures forall g :: 0 <= g < |history| ==> HighestRatio(evaluated[g], f, history[g])
  {
    forall g | 0 <= g < |history|
      ensures HighestRatio(evaluated[g], f, history[g])
    {
      assert TopScore(evaluated[g], f, history[g]);
      var x :| x in evaluated[g] && Fitness(f(x)) == history[g];
      assert history[g] == match f(x) case Metrics(Some(ratio)) => ratio case _ => -999.0;
      forall y, ratio | y in evaluated[g] && f(y) == Metrics(Some(ratio))
        ensures ratio <= history[g]
      {
        assert Fitness(f(y)) == ratio;
      }
    }
  }

  /** random.random() */
  method Draw() returns (u: real)
    ensures 0.0 <= u < 1.0
  {
    u := *;
    if !(0.0 <= u < 1.0) {
      u := 0.0;
    }
  }

  function Part(width: real, u: real): real { width * u }

  lemma Fraction(width: real, u: real)
    requires 0.0 <= u < 1.0
    ensures if width >= 0.0 then 0.0 <= Part(width, u) <= width else width <= Part(width, u) <= 0.0
  {
    var size := if width >= 0.0 then width else -width;
    NonNegative(size, u);
    NonNegative(size, 1.0 - u);
    assert size * (1.0 - u) == size - size * u;
    assert width * u == if width >= 0.0 then size * u else -(size * u);
  }

  method Uniform(lo: real, hi: real) returns (x: real)
    ensures Between(x, (lo, hi))
  {
    var u := Draw();
    Fraction(hi - lo, u);
    x := lo + Part(hi - lo, u);
  }

  method RandomIndividual(bounds: Bounds) returns (x: Individual)
    ensures InBounds(x, bounds)
  {
    x := [];
    for i := 0 to |bounds|
      invariant |x| == i && forall j :: 0 <= j < i ==> Between(x[j], bounds[j])
    {
      var gene := Uniform(bounds[i].0, bounds[i].1);
      x := x + [gene];
    }
  }

  /** Each gene comes from one of the parents. */
  method Crossover(a: Individual, b: Individual) returns (child: Individual)
    requires |a| == |b|
    ensures |child| == |a| && forall i :: 0 <= i < |a| ==> child[i] == a[i] || child[i] == b[i]
  {
    child := [];
    for i := 0 to |a|
      invariant |child| == i && forall j :: 0 <= j < i ==> child[j] == a[j] || child[j] == b[j]
    {
      var heads: bool := *;
      child := child + [if heads then a[i] else b[i]];
    }
  }

  /** Any gene may drift, but never out of its bounds. */
  method Mutate(x: Individual, bounds: Bounds) returns (mutated: Individual)
    requires InBounds(x, bounds)
    ensures InBounds(mutated, bounds)
  {
    mutated := x;
    for i := 0 to |bounds|
      invariant InBounds(mutated, bounds)
    {
      var drifts: bool := *;
      if drifts {
        var delta: real := *;
        var (lo, hi) := bounds[i];
        var moved := if x[i] + delta < hi then x[i] + delta else hi;
        mutated := mutated[i := if moved > lo then moved else lo];
      }
    }
  }

  method Choice(xs: seq<Individual>) returns (x: Individual)
    requires xs != []
    ensures x in xs
  {
    assert xs[0] in xs;
    x :| x in xs;
  }

  method Populate(size: int, bounds: Bounds) returns (population: seq<Individual>)
    ensures Fit(population, if size > 0 then size else 0, bounds)
  {
    population := [];
    while |population| < size
      invariant Fit(population, |population|, bounds) && |population| <= if size > 0 then size else 0
    {
      var x := RandomIndividual(bounds);
      population := population + [x];
    }
  }

  /** The scored population, best first. */
  method Rank(population: seq<Individual>, f: Individual -> Trial) returns (scored: Scored)
    ensures |scored| == |population|
    ensures forall s :: s in scored ==> s.0 in population && s.1 == Fitness(f(s.0))
    // scored by its Sharpe ratio, or -999 where the backtest raised or gave none; highest first
    ensures forall s :: s in scored ==> s.1 == match f(s.0) case Metrics(Some(ratio)) => ratio case _ => -999.0
    ensures BestFirst(scored)
    ensures scored != [] ==> TopScore(population, f, scored[0].1)
  {
    var unsorted: Scored := [];
    for i := 0 to |population|
      invariant |unsorted| == i
      invariant forall j :: 0 <= j < i ==> unsorted[j] == (population[j], Fitness(f(population[j])))
    {
      unsorted := unsorted + [(population[i], Fitness(f(population[i])))];
    }
    scored := Sort(unsorted, Falling());
    RankedScores(population, f, unsorted, scored);
    FirstIsBest(unsorted);
    RankedTop(population, f, unsorted, scored);
  }

  ghost predicate ScoresOf(population: seq<Individual>, f: Individual -> Trial, unsorted: Scored) {
    |unsorted| == |population| && forall j :: 0 <= j < |population| ==> unsorted[j] == (population[j], Fitness(f(population[j])))
  }

  lemma RankedScores(population: seq<Individual>, f: Individual -> Trial, unsorted: Scored, scored: Scored)
    requires ScoresOf(population, f, unsorted) && multiset(scored) == multiset(unsorted)
    ensures forall s :: s in scored ==> s.0 in population && s.1 == Fitness(f(s.0))
    ensures forall s :: s in scored ==> s.1 == match f(s.0) case Metrics(Some(ratio)) => ratio case _ => -999.0
  {
    ScoresKept(unsorted, scored);
    forall s | s in scored
      ensures s.0 in population && s.1 == Fitness(f(s.0))
    {
      var j :| 0 <= j < |unsorted| && unsorted[j] == s;
      assert population[j] in population;
    }
  }

  lemma RankedTop(population: seq<Individual>, f: Individual -> Trial, unsorted: Scored, scored: Scored)
    requires ScoresOf(population, f, unsorted) && multiset(scored) == multiset(unsorted) && BestFirst(scored)
    requires forall s :: s in scored ==> s.0 in population && s.1 == Fitness(f(s.0))
    ensures scored != [] ==> TopScore(population, f, scored[0].1)
  {
    ScoresKept(unsorted, scored);
    forall x | x in population && scored != []
      ensures Fitness(f(x)) <= scored[0].1
    {
      var j :| 0 <= j < |population| && population[j] == x;
      assert unsorted[j] in scored;
      var k :| 0 <= k < |scored| && scored[k] == unsorted[j];
      assert k > 0 ==> scored[0].1 >= scored[k].1;
    }
    if scored != [] { assert scored[0] in scored; }
  }

  lemma ScoresKept(a: Scored, b: Scored)
    requires multiset(a) == multiset(b)
    ensures forall s :: s in a <==> s in b
  {
    forall s
      ensures s in a <==> s in b
    {
      assert s in a <==> s in multiset(a);
      assert s in b <==> s in multiset(b);
    }
  }

  /** The next generation: the elites, and children of elites up to the population size. */
  method Breed(elites: seq<Individual>, size: int, bounds: Bounds) returns (population: seq<Individual>)
    requires elites != [] && |elites| <= size && Fit(elites, |elites|, bounds)
    ensures Fit(population, size, bounds) && elites <= population
  {
    population := elites;
    while |population| < size
      invariant Fit(population, |population|, bounds) && |population| <= size && elites <= population
    {
      var a := Choice(elites);
      var b := Choice(elites);
      var crossed := Crossover(a, b);
      var child := Mutate(crossed, bounds);
      population := population + [child];
    }
  }

  /** The record of the generations evaluated so far: every individual in bounds, every population of
      full size, and a history of top scores that never falls. */
  ghost predicate Progress(evaluated: seq<seq<Individual>>, history: seq<real>, f: Individual -> Trial, size: int, bounds: Bounds) {
    |evaluated| == |history| &&
    (forall g :: 0 <= g < |history| ==> Fit(evaluated[g], size, bounds) && TopScore(evaluated[g], f, history[g])) &&
    forall g, h :: 0 <= g <= h < |history| ==> history[g] <= history[h]
  }

  lemma ProgressSnoc(evaluated: seq<seq<Individual>>, history: seq<real>, f: Individual -> Trial, size: int, bounds: Bounds,
                     population: seq<Individual>, best: real)
    requires Progress(evaluated, history, f, size, bounds) && Fit(population, size, bounds) && TopScore(population, f, best)
    requires history != [] ==> history[|history|-1] <= best
    ensures Progress(evaluated + [population], history + [best], f, size, bounds)
  {
    var h := history + [best];
    forall i, j | 0 <= i <= j < |h|
      ensures h[i] <= h[j]
    {
      if j == |history| && i < j { assert history[i] <= history[|history|-1]; }
    }
  }

  /** The champion of the latest generation: it opens the next population. */
  ghost predicate Champion(x: Individual, evaluated: seq<seq<Individual>>, history: seq<real>, f: Individual -> Trial, next: seq<Individual>)
    requires |evaluated| == |history|
  {
    history != [] ==> x in evaluated[|evaluated|-1] && x in next && Fitness(f(x)) == history[|history|-1]
  }

  /** Evaluate a generation and breed the next one; without an individual or an elite there is none. */
  method Generation(bounds: Bounds, f: Individual -> Trial, size: int, eliteCount: int, population: seq<Individual>)
    returns (scored: Scored, next: seq<Individual>)
    requires Fit(population, if size > 0 then size else 0, bounds)
    ensures next == [] <==> size <= 0 || eliteCount == 0 || eliteCount <= -size
    ensures next != [] ==> Fit(next, size, bounds) && scored != [] && TopScore(population, f, scored[0].1)
    ensures next != [] ==> scored[0].0 in population && scored[0].0 in next && scored[0].1 == Fitness(f(scored[0].0))
    ensures next != [] ==> HighestRatio(population, f, scored[0].1)
    // the next generation opens with the best of this one, as many as are elite
    ensures next != [] ==> |scored| == size && BestFirst(scored)
    ensures next != [] ==>
      forall j :: 0 <= j < (if eliteCount >= 0 then Lesser(eliteCount, size) else size + eliteCount) ==> next[j] == scored[j].0
  {
    scored := Rank(population, f);
    var elites := Unscored(Front(scored, eliteCount));
    if elites == [] {
      return scored, [];
    }
    EliteFit(Front(scored, eliteCount), scored, population, f, bounds);
    next := Breed(elites, size, bounds);
    assert scored[0] in scored;
    assert elites[0] == scored[0].0 && next[0] == elites[0];
    assert forall j :: 0 <= j < |elites| ==> next[j] == elites[j] == scored[j].0;
    TopIsHighest([population], f, [scored[0].1]);
    assert [population][0] == population;
  }

  /** genetic_optimize. It fails exactly when there is no generation, no individual or no elite. Otherwise,
      whatever the random draws: every individual ever created, those bred after the last generation included, is in
      bounds, every generation has the population size, the best score of a generation is its top score and never falls, and the
      returned individual is at least as good as every individual evaluated in the whole run. */
  method GeneticOptimize(bounds: Bounds, f: Individual -> Trial, size: int, generations: int, eliteCount: int)
    returns (outcome: Outcome, ghost evaluated: seq<seq<Individual>>, ghost bred: seq<Individual>)
    ensures outcome.Error? <==> generations <= 0 || size <= 0 || eliteCount == 0 || eliteCount <= -size
    ensures outcome.Best? ==> Fit(bred, size, bounds) && |evaluated| == generations && Progress(evaluated, outcome.history, f, size, bounds)
    ensures outcome.Best? ==> outcome.params in evaluated[generations-1] && outcome.sharpe == Fitness(f(outcome.params))
    ensures outcome.Best? ==> forall g, x :: 0 <= g < generations && x in evaluated[g] ==> Fitness(f(x)) <= outcome.sharpe
    // in terms of the backtests: the reported score is the Sharpe ratio of the returned individual, or -999 where it has
    // none, no individual of the run has a higher ratio, and the history holds the highest of each generation
    ensures outcome.Best? ==> outcome.sharpe == match f(outcome.params) case Metrics(Some(ratio)) => ratio case _ => -999.0
    ensures outcome.Best? ==>
      forall g, x, ratio :: 0 <= g < generations && x in evaluated[g] && f(x) == Metrics(Some(ratio)) ==> ratio <= outcome.sharpe
    ensures outcome.Best? ==> |outcome.history| == generations && forall g :: 0 <= g < generations ==>
      HighestRatio(evaluated[g], f, outcome.history[g])
  {
    evaluated := [];
    var population := Populate(size, bounds);
    bred := population;
    var history: seq<real> := [];
    var scored: Scored := [];
    for gen := 0 to if generations > 0 then generations else 0
      invariant |history| == gen && Progress(evaluated, history, f, size, bounds)
      invariant Fit(population, if size > 0 then size else 0, bounds)
      invariant gen > 0 ==> scored != [] && scored[0].1 == Fitness(f(scored[0].0)) && size > 0 && eliteCount != 0 && eliteCount > -size
      invariant gen > 0 ==> Champion(scored[0].0, evaluated, history, f, population)
    {
      var scored', next := Generation(bounds, f, size, eliteCount, population);
      if next == [] {
        return Error, evaluated, population;
      }
      ProgressSnoc(evaluated, history, f, size, bounds, population, scored'[0].1);
      history, evaluated := history + [scored'[0].1], evaluated + [population];
      scored, population := scored', next;
    }
    if generations <= 0 {
      return Error, evaluated, population;
    }
    BestOfAll(evaluated, f, history, generations);
    TopIsHighest(evaluated, f, history);
    outcome, bred := Best(scored[0].0, scored[0].1, history), population;
  }

  function Unscored(s: Scored): (r: seq<Individual>)
    ensures |r| == |s| && forall i :: 0 <= i < |s| ==> r[i] == s[i].0
  {
    seq(|s|, i requires 0 <= i < |s| => s[i].0)
  }

  lemma EliteFit(front: Scored, scored: Scored, population: seq<Individual>, f: Individual -> Trial, bounds: Bounds)
    requires front <= scored && |scored| == |population| && Fit(population, |population|, bounds)
    requires forall s :: s in scored ==> s.0 in population
    ensures Fit(Unscored(front), |front|, bounds)
  {
    forall x | x in Unscored(front)
      ensures InBounds(x, bounds)
    {
      var i :| 0 <= i < |front| && front[i].0 == x;
      assert scored[i] in scored;
    }
  }

  lemma BestOfAll(evaluated: seq<seq<Individual>>, f: Individual -> Trial, history: seq<real>, n: int)
    requires 0 < n == |evaluated| == |history|
    requires forall g :: 0 <= g < n ==> TopScore(evaluated[g], f, history[g])
    requires forall g, h :: 0 <= g <= h < n ==> history[g] <= history[h]
    ensures forall g, x :: 0 <= g < n && x in evaluated[g] ==> Fitness(f(x)) <= history[n-1]
  {
    forall g, x | 0 <= g < n && x in evaluated[g]
      ensures Fitness(f(x)) <= history[n-1]
    {
      assert TopScore(evaluated[g], f, history[g]);
    }
  }

  // ---------------------------------------------------------------- grid search

  function Prepend<T>(x: T, tails: seq<seq<T>>): seq<seq<T>> {
    seq(|tails|, i requires 0 <= i < |tails| => [x] + tails[i])
  }

  function PrependEach<T>(xs: seq<T>, tails: seq<seq<T>>): seq<seq<T>> {
    if xs == [] then [] else Prepend(xs[0], tails) + PrependEach(xs[1..], tails)
  }

  /** itertools.product: the last parameter varies fastest. */
  function Product<T>(values: seq<seq<T>>): seq<seq<T>> {
    if values == [] then [[]] else PrependEach(values[0], Product(values[1..]))
  }

  lemma {:induction false} PrependEachMembers<T>(xs: seq<T>, tails: seq<seq<T>>, c: seq<T>)
    ensures c in PrependEach(xs, tails) <==> c != [] && c[0] in xs && c[1..] in tails
  {
    if xs != [] {
      PrependEachMembers(xs[1..], tails, c);
      var first := Prepend(xs[0], tails);
      assert c in first <==> c != [] && c[0] == xs[0] && c[1..] in tails by {
        if c in first {
          var i :| 0 <= i < |first| && first[i] == c;
          assert c[1..] == tails[i];
        }
        if c != [] && c[0] == xs[0] && c[1..] in tails {
          var i :| 0 <= i < |tails| && tails[i] == c[1..];
          assert first[i] == [xs[0]] + tails[i] == c;
        }
      }
    }
  }

  /** The grid is exactly the set of choices of one value per parameter. */
  lemma {:induction false} ProductMembers<T>(values: seq<seq<T>>, c: seq<T>)
    ensures c in Product(values) <==> |c| == |values| && forall i :: 0 <= i < |c| ==> c[i] in values[i]
  {
    if values != [] {
      PrependEachMembers(values[0], Product(values[1..]), c);
      if c != [] {
        ProductMembers(values[1..], c[1..]);
        assert forall i :: 0 < i < |c| && |c| == |values| ==> c[i] == c[1..][i-1] && values[i] == values[1..][i-1];
      }
    }
  }

  function GridScore(t: Trial): real {
    if t.Metrics? && t.sharpe.Some? then t.sharpe.value else 0.0
  }

  function Row(f: Individual -> Trial): Individual -> (Individual, real) {
    (x: Individual) => (x, GridScore(f(x)))
  }

  /** The rows of the combinations that did not raise, in grid order. */
  function Rows(grid: seq<Individual>, f: Individual -> Trial): Scored {
    if grid == [] then []
    else (if f(grid[0]).Raised? then [] else [Row(f)(grid[0])]) + Rows(grid[1..], f)
  }

  lemma {:induction false} RowsMembers(grid: seq<Individual>, f: Individual -> Trial)
    ensures forall s :: s in Rows(grid, f) <==> s.0 in grid && !f(s.0).Raised? && s == Row(f)(s.0)
  {
    if grid != [] { RowsMembers(grid[1..], f); }
  }

  method RunGrid(grid: seq<Individual>, f: Individual -> Trial) returns (rows: Scored)
    ensures rows == Rows(grid, f)
  {
    rows := [];
    for n := 0 to |grid|
      invariant rows + Rows(grid[n..], f) == Rows(grid, f)
    {
      assert grid[n..][1..] == grid[n+1..];
      if !f(grid[n]).Raised? {
        rows := rows + [(grid[n], GridScore(f(grid[n])))];
      }
    }
    assert grid[|grid|..] == [];
  }

  ghost predicate BestFirst(s: Scored) {
    forall i, j :: 0 <= i < j < |s| ==> s[i].1 >= s[j].1
  }

  /** A row of the result: one choice of values whose backtest did not raise, with its score. */
  predicate InGrid(values: seq<seq<real>>, f: Individual -> Trial, x: Individual, y: real) {
    |x| == |values| && (forall i :: 0 <= i < |x| ==> x[i] in values[i]) && f(x).Metrics? && y == GridScore(f(x))
  }

  /** grid_search: one row per choice of values that did not raise, the best Sharpe ratio first. */
  method GridSearch(values: seq<seq<real>>, f: Individual -> Trial) returns (results: Scored)
    ensures forall x, y :: (x, y) in results <==> InGrid(values, f, x, y)
    ensures multiset(results) == multiset(Rows(Product(values), f))
    ensures BestFirst(results)
    // the score is the Sharpe ratio, or 0 where the backtest gave none
    ensures forall x, y :: (x, y) in results ==> y == match f(x) case Metrics(Some(ratio)) => ratio case _ => 0.0
  {
    var rows := RunGrid(Product(values), f);
    results := Sort(rows, Falling());
    FirstIsBest(rows);
    GridRows(values, f, results);
  }

  lemma FirstIsBest(unsorted: Scored)
    ensures BestFirst(Sort(unsorted, Falling()))
  {
    var r := Sort(unsorted, Falling());
    SortAscending(unsorted, Falling());
    forall i, j | 0 <= i < j < |r|
      ensures r[i].1 >= r[j].1
    {
      assert Falling()(r[i]) <= Falling()(r[j]);
    }
  }

  lemma GridRows(values: seq<seq<real>>, f: Individual -> Trial, results: Scored)
    requires multiset(results) == multiset(Rows(Product(values), f))
    ensures forall x, y :: (x, y) in results <==> InGrid(values, f, x, y)
  {
    ScoresKept(results, Rows(Product(values), f));
    RowsMembers(Product(values), f);
    forall x, y
      ensures (x, y) in results <==> InGrid(values, f, x, y)
    {
      ProductMembers(values, x);
      assert (x, y) == Row(f)(x) <==> y == GridScore(f(x));
    }
  }
}
