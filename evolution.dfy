/** Steady-state evolution of a rule pool (project/learning/evolution.py): choosing
    the active rule, and replacing the weakest rule by a crossover child, a mutant
    or an immigrant. The engine's random generator is an oracle: its draws are the
    `EvolveDraws` parameter. */
module Evolution {
  import opened Wrappers
  import GpTree
  import opened Forecasting

  const ParentMean: string := "parent_mean"
  const DefaultStrategy: string := "default"

  /** The engine's configuration keys; a missing key is None. `rule` holds the
      rule keys the same configuration passes on to immigrants. */
  datatype EvolutionConfig = EvolutionConfig(
    pCross: Option<real>,
    pMut: Option<real>,
    tournamentSize: Option<int>,
    newRuleInit: Option<string>,
    rule: RuleConfig)

  datatype Engine = Engine(
    factory: GpTree.Factory,
    pCross: real,
    pMut: real,
    tournSize: int,
    initStrategy: string,
    ruleConfig: RuleConfig)

  /** The engine's settings, with the defaults for missing keys. */
  function NewEngine(factory: GpTree.Factory, cfg: EvolutionConfig): (e: Engine)
    ensures cfg.pCross.None? ==> e.pCross == 0.7
    ensures cfg.pMut.None? ==> e.pMut == 0.2
    ensures cfg.tournamentSize.None? ==> e.tournSize == 2
    ensures cfg.newRuleInit.None? ==> e.initStrategy == DefaultStrategy
    ensures e.factory == factory && e.ruleConfig == cfg.rule
  {
    Engine(factory, GetOr(cfg.pCross, 0.7), GetOr(cfg.pMut, 0.2), GetOr(cfg.tournamentSize, 2),
           GetOr(cfg.newRuleInit, DefaultStrategy), cfg.rule)
  }

  /** The random draws of one evolution step: the uniform draw that picks the
      operator, the two tournaments' index draws, the two crossover points (as
      positions in the pre-order listing) and the draws of the tree generator. */
  datatype EvolveDraws = EvolveDraws(
    r: real,
    tourn1: nat -> nat,
    tourn2: nat -> nat,
    node1: nat,
    node2: nat,
    tree: GpTree.Draws)

  /** The first position of a largest element: Python's `max` keeps the first of equals. */
  function FirstMaxIndex(s: seq<real>): (i: nat)
    requires |s| > 0
    ensures i < |s|
    ensures forall j :: 0 <= j < |s| ==> s[j] <= s[i]
    ensures forall j :: 0 <= j < i ==> s[j] < s[i]
  {
    if |s| == 1 then 0
    else
      var k := FirstMaxIndex(s[..|s| - 1]);
      if s[|s| - 1] > s[k] then |s| - 1 else k
  }

  /** The first position of a smallest element: the head of a stable ascending sort. */
  function FirstMinIndex(s: seq<real>): (i: nat)
    requires |s| > 0
    ensures i < |s|
    ensures forall j :: 0 <= j < |s| ==> s[i] <= s[j]
    ensures forall j :: 0 <= j < i ==> s[i] < s[j]
  {
    if |s| == 1 then 0
    else
      var k := FirstMinIndex(s[..|s| - 1]);
      if s[|s| - 1] < s[k] then |s| - 1 else k
  }

  function Strengths(vs: seq<RuleValue>): (s: seq<real>)
    ensures |s| == |vs|
  {
    seq(|vs|, i requires 0 <= i < |vs| => StrengthOf(vs[i].state))
  }

  /** `select_active_rule`: the first rule of greatest strength; ValueError for an
      empty pool. */
  function SelectActiveRule(rules: seq<ForecastingRule>): (r: Result<ForecastingRule>)
    reads rules
    ensures r.Err? <==> |rules| == 0
    ensures r.Err? ==> r.error == ValueError
    ensures r.Ok? ==> r.value in rules && forall x :: x in rules ==> x.Strength() <= r.value.Strength()
    ensures r.Ok? ==> exists i :: 0 <= i < |rules| && rules[i] == r.value
                                  && forall j :: 0 <= j < i ==> rules[j].Strength() < r.value.Strength()
  {
    if |rules| == 0 then Err(ValueError)
    else
      var s := Strengths(Values(rules));
      var i := FirstMaxIndex(s);
      assert forall j :: 0 <= j < |rules| ==> s[j] == rules[j].Strength();
      assert forall j :: 0 <= j < i ==> rules[j].Strength() < rules[i].Strength();
      Ok(rules[i])
  }

  /** The pool positions a tournament draws, with replacement. */
  function Candidates(poolSize: nat, size: nat, pick: nat -> nat): (c: seq<nat>)
    requires poolSize > 0
    ensures |c| == size && forall j :: 0 <= j < size ==> c[j] < poolSize
  {
    seq(size, j requires 0 <= j < size => pick(j) % poolSize)
  }

  function Min(a: int, b: int): int
  {
    if a <= b then a else b
  }

  /** `_tournament_select`: min(pool size, tournament size) draws, the first
      strongest of them wins. No draw at all (an empty pool or a tournament size
      that is not positive) is a ValueError. */
  function TournamentIndex(s: seq<real>, tournSize: int, pick: nat -> nat): (r: Result<nat>)
    ensures r.Err? <==> Min(|s|, tournSize) <= 0
    ensures r.Err? ==> r.error == ValueError
    ensures r.Ok? ==> r.value < |s| && r.value in Candidates(|s|, Min(|s|, tournSize), pick)
    ensures r.Ok? ==> var cands := Candidates(|s|, Min(|s|, tournSize), pick);
                      forall j :: 0 <= j < |cands| ==> s[cands[j]] <= s[r.value]
    ensures r.Ok? ==> var cands := Candidates(|s|, Min(|s|, tournSize), pick);
                      exists k :: 0 <= k < |cands| && cands[k] == r.value
                                  && forall j :: 0 <= j < k ==> s[cands[j]] < s[r.value]
  {
    var size := Min(|s|, tournSize);
    if size <= 0 then Err(ValueError)
    else
      var cands := Candidates(|s|, size, pick);
      var drawn := seq(size, j requires 0 <= j < size => s[cands[j]]);
      var k := FirstMaxIndex(drawn);
      assert forall j :: 0 <= j < size ==> drawn[j] == s[cands[j]];
      assert forall j :: 0 <= j < k ==> s[cands[j]] < s[cands[k]];
      Ok(cands[k])
  }

  /** `_do_swap`: the root itself is replaced by returning the new node; any other
      position is replaced under its parent and the same root is returned. A
      position that is not in the tree (the source's node without a parent) is a
      ValueError. */
  function DoSwap(root: GpTree.Node, path: GpTree.Path, newNode: GpTree.Node): (r: Result<GpTree.Node>)
    ensures path == [] ==> r == Ok(newNode)
    ensures r.Ok? <==> GpTree.SubtreeAt(root, path).Some?
    ensures r.Err? ==> r.error == ValueError
    ensures r.Ok? ==> GpTree.SubtreeAt(r.value, path) == Some(newNode)
    ensures r.Ok? ==> GpTree.Size(r.value) == GpTree.Size(root) - GpTree.Size(GpTree.SubtreeAt(root, path).value) + GpTree.Size(newNode)
  {
    if path == [] then Ok(newNode)
    else
      if GpTree.SubtreeAt(root, path).Some? then
        GpTree.ReplaceAtSize(root, path, newNode);
        GpTree.ReplaceAt(root, path, newNode)
      else
        Err(ValueError)
  }

  /** The crossover point of a tree: the node drawn from its pre-order listing. */
  function PointOf(t: GpTree.Node, k: nat): (p: GpTree.Path)
    ensures GpTree.SubtreeAt(t, p).Some?
  {
    GpTree.NodePath(t, k % GpTree.Size(t))
  }

  /** The first child of `_crossover`: a clone of the first parent with the subtree
      at its crossover point replaced by a copy of the second parent's subtree at
      its point. (The second child is the same with the parents exchanged.) */
  function Crossover(v1: RuleValue, v2: RuleValue, k1: nat, k2: nat): (c: RuleValue)
    ensures c.params == v1.params && c.state == CloneValue(v1).state
    ensures GpTree.SubtreeAt(c.tree, PointOf(v1.tree, k1)) == GpTree.SubtreeAt(v2.tree, PointOf(v2.tree, k2))
    ensures GpTree.Size(c.tree) == GpTree.Size(v1.tree) - GpTree.Size(GpTree.SubtreeAt(v1.tree, PointOf(v1.tree, k1)).value)
                                   + GpTree.Size(GpTree.SubtreeAt(v2.tree, PointOf(v2.tree, k2)).value)
  {
    var c1 := CloneValue(v1);
    var c2 := CloneValue(v2);
    var pt2 := GpTree.SubtreeAt(c2.tree, PointOf(c2.tree, k2)).value;
    GpTree.CloneIsEqual(pt2);
    c1.(tree := DoSwap(c1.tree, PointOf(c1.tree, k1), GpTree.Clone(pt2)).value)
  }

  /** `_mutation`: a clone of the parent with the subtree at the drawn point replaced
      by a fresh random tree of depth at most 3. */
  function Mutation(f: GpTree.Factory, v: RuleValue, k: nat, d: GpTree.Draws): (c: RuleValue)
    requires |f.funcs| > 0 && |f.terminals| > 0
    ensures c.params == v.params && c.state == CloneValue(v).state
    ensures GpTree.SubtreeAt(c.tree, PointOf(v.tree, k)) == Some(GpTree.CreateRandomTree(f, d, 2, "grow"))
    ensures GpTree.Depth(GpTree.CreateRandomTree(f, d, 2, "grow")) <= 3
  {
    var c := CloneValue(v);
    var sub := GpTree.CreateRandomTree(f, d, 2, "grow");
    GpTree.RandomTreeDepth(f, d, 2, "grow");
    c.(tree := DoSwap(c.tree, PointOf(c.tree, k), sub).value)
  }

  /** `_immigration`: a new rule on a random tree of depth at most 5, with the
      engine's rule configuration and the default initial statistics. */
  function Immigrant(e: Engine, d: GpTree.Draws): (c: RuleValue)
    requires |e.factory.funcs| > 0 && |e.factory.terminals| > 0
    ensures GpTree.Depth(c.tree) <= 5
    ensures c.params == ParamsOf(e.ruleConfig)
    ensures c.state == RuleState(DefaultInitPD, DefaultInitVariance, None, 0.0)
  {
    GpTree.RandomTreeDepth(e.factory, d, 4, "grow");
    RuleValue(GpTree.CreateRandomTree(e.factory, d, 4, "grow"), ParamsOf(e.ruleConfig),
              RuleState(DefaultInitPD, DefaultInitVariance, None, 0.0))
  }

  /** The new rule and the survivor positions of its parents. */
  datatype Offspring = Offspring(rule: RuleValue, parents: seq<nat>)

  /** The kept crossover child with the variance strategy applied: the parents'
      mean under "parent_mean", otherwise the first parent's, inherited by the clone. */
  function CrossoverChild(e: Engine, v1: RuleValue, v2: RuleValue, d: EvolveDraws): (c: RuleValue)
    ensures c.tree == Crossover(v1, v2, d.node1, d.node2).tree
    ensures e.initStrategy == ParentMean ==> c.state.estVariance == (v1.state.estVariance + v2.state.estVariance) / 2.0
    ensures e.initStrategy != ParentMean ==> c.state.estVariance == v1.state.estVariance
  {
    var child := Crossover(v1, v2, d.node1, d.node2);
    if e.initStrategy == ParentMean
    then child.(state := child.state.(estVariance := (v1.state.estVariance + v2.state.estVariance) / 2.0))
    else child
  }

  /** The mutant with the variance strategy applied; either way it has its parent's variance. */
  function MutantChild(e: Engine, v: RuleValue, d: EvolveDraws): (c: RuleValue)
    requires |e.factory.funcs| > 0 && |e.factory.terminals| > 0
    ensures c.tree == Mutation(e.factory, v, d.node1, d.tree).tree
    ensures c.state.estVariance == v.state.estVariance
  {
    var child := Mutation(e.factory, v, d.node1, d.tree);
    if e.initStrategy == ParentMean
    then child.(state := child.state.(estVariance := v.state.estVariance))
    else child
  }

  /** The crossover branch: two tournaments, the first child of the two winners,
      and under "parent_mean" the mean of the parents' variances. */
  function CrossoverOffspring(e: Engine, survivors: seq<RuleValue>, d: EvolveDraws): (r: Result<Offspring>)
    ensures r.Err? <==> Min(|survivors|, e.tournSize) <= 0
    ensures r.Ok? ==> |r.value.parents| == 2 && r.value.parents[0] < |survivors| && r.value.parents[1] < |survivors|
    ensures r.Ok? ==> TournamentIndex(Strengths(survivors), e.tournSize, d.tourn1) == Ok(r.value.parents[0])
                      && TournamentIndex(Strengths(survivors), e.tournSize, d.tourn2) == Ok(r.value.parents[1])
    ensures r.Ok? ==> r.value.rule.tree == Crossover(survivors[r.value.parents[0]], survivors[r.value.parents[1]], d.node1, d.node2).tree
    ensures r.Ok? && e.initStrategy == ParentMean ==>
              r.value.rule.state.estVariance
                == (survivors[r.value.parents[0]].state.estVariance + survivors[r.value.parents[1]].state.estVariance) / 2.0
    ensures r.Ok? && e.initStrategy != ParentMean ==>
              r.value.rule.state.estVariance == survivors[r.value.parents[0]].state.estVariance
  {
    var s := Strengths(survivors);
    match TournamentIndex(s, e.tournSize, d.tourn1)
    case Err(err) => Err(err)
    case Ok(i1) =>
      // The second tournament draws from the same pool with the same size, so it
      // cannot fail once the first has succeeded.
      var i2 := TournamentIndex(s, e.tournSize, d.tourn2).value;
      Ok(Offspring(CrossoverChild(e, survivors[i1], survivors[i2], d), [i1, i2]))
  }

  /** The mutation branch: one tournament and a mutant of the winner, which keeps
      the winner's variance under either strategy. */
  function MutationOffspring(e: Engine, survivors: seq<RuleValue>, d: EvolveDraws): (r: Result<Offspring>)
    requires |e.factory.funcs| > 0 && |e.factory.terminals| > 0
    ensures r.Err? <==> Min(|survivors|, e.tournSize) <= 0
    ensures r.Ok? ==> |r.value.parents| == 1 && r.value.parents[0] < |survivors|
    ensures r.Ok? ==> TournamentIndex(Strengths(survivors), e.tournSize, d.tourn1) == Ok(r.value.parents[0])
    ensures r.Ok? ==> r.value.rule.tree == Mutation(e.factory, survivors[r.value.parents[0]], d.node1, d.tree).tree
    ensures r.Ok? ==> r.value.rule.state.estVariance == survivors[r.value.parents[0]].state.estVariance
  {
    match TournamentIndex(Strengths(survivors), e.tournSize, d.tourn1)
    case Err(err) => Err(err)
    case Ok(i1) =>
      Ok(Offspring(MutantChild(e, survivors[i1], d), [i1]))
  }

  /** The operator the uniform draw selects: crossover below pCross, mutation below
      pCross + pMut, immigration otherwise. */
  function Breed(e: Engine, survivors: seq<RuleValue>, d: EvolveDraws): (r: Result<Offspring>)
    requires |e.factory.funcs| > 0 && |e.factory.terminals| > 0
    ensures r.Ok? ==> forall j :: 0 <= j < |r.value.parents| ==> r.value.parents[j] < |survivors|
    ensures r.Err? <==> (d.r < e.pCross || d.r < e.pCross + e.pMut) && Min(|survivors|, e.tournSize) <= 0
    ensures r.Err? ==> r.error == ValueError
    ensures d.r < e.pCross ==> r == CrossoverOffspring(e, survivors, d)
    ensures e.pCross <= d.r < e.pCross + e.pMut ==> r == MutationOffspring(e, survivors, d)
    ensures r.Ok? && e.pCross <= d.r && e.pCross + e.pMut <= d.r ==> r.value.parents == [] && r.value.rule == Immigrant(e, d.tree)
  {
    if d.r < e.pCross then CrossoverOffspring(e, survivors, d)
    else if d.r < e.pCross + e.pMut then MutationOffspring(e, survivors, d)
    else Ok(Offspring(Immigrant(e, d.tree), []))
  }

  /** All rules but the one at position w, in their original order. */
  function Without<T>(s: seq<T>, w: nat): (r: seq<T>)
    requires w < |s|
    ensures |r| == |s| - 1
    ensures forall j :: 0 <= j < |r| ==> r[j] == s[if j < w then j else j + 1]
  {
    s[..w] + s[w + 1..]
  }

  /** The position `evolve_rules` overwrites: the first rule of least strength. */
  function WorstIndex(vs: seq<RuleValue>): (w: nat)
    requires |vs| > 0
    ensures w < |vs|
    ensures forall j :: 0 <= j < |vs| ==> vs[w].state.estVariance >= vs[j].state.estVariance
    ensures forall j :: 0 <= j < w ==> vs[w].state.estVariance > vs[j].state.estVariance
  {
    var s := Strengths(vs);
    var w := FirstMinIndex(s);
    assert forall j :: 0 <= j < |vs| ==> s[j] == -vs[j].state.estVariance;
    w
  }

  /** Builds the two children of `_crossover` as new rule objects. */
  method CrossoverRules(p1: ForecastingRule, p2: ForecastingRule, k1: nat, k2: nat)
    returns (c1: ForecastingRule, c2: ForecastingRule)
    ensures fresh(c1) && fresh(c2)
    ensures c1.Value() == Crossover(old(p1.Value()), old(p2.Value()), k1, k2)
    ensures c2.Value() == Crossover(old(p2.Value()), old(p1.Value()), k2, k1)
  {
    c1 := p1.Clone();
    c2 := p2.Clone();
    var pt1 := PointOf(c1.gpTree, k1);
    var pt2 := PointOf(c2.gpTree, k2);
    var sub1 := GpTree.SubtreeAt(c1.gpTree, pt1).value;
    var sub2 := GpTree.SubtreeAt(c2.gpTree, pt2).value;
    var swapped1 := DoSwap(c1.gpTree, pt1, GpTree.Clone(sub2));
    c1.gpTree := swapped1.value;
    var swapped2 := DoSwap(c2.gpTree, pt2, GpTree.Clone(sub1));
    c2.gpTree := swapped2.value;
  }

  /** `_mutation` on rule objects. */
  method MutateRule(f: GpTree.Factory, p: ForecastingRule, k: nat, d: GpTree.Draws) returns (c: ForecastingRule)
    requires |f.funcs| > 0 && |f.terminals| > 0
    ensures fresh(c)
    ensures c.Value() == Mutation(f, old(p.Value()), k, d)
  {
    c := p.Clone();
    var pt := PointOf(c.gpTree, k);
    var newSub := GpTree.CreateRandomTree(f, d, 2, "grow");
    var swapped := DoSwap(c.gpTree, pt, newSub);
    c.gpTree := swapped.value;
  }

  /** The kept crossover child as a new rule object. */
  method MakeCrossoverChild(e: Engine, p1: ForecastingRule, p2: ForecastingRule, d: EvolveDraws) returns (c: ForecastingRule)
    ensures fresh(c)
    ensures c.Value() == CrossoverChild(e, old(p1.Value()), old(p2.Value()), d)
  {
    var c2;
    c, c2 := CrossoverRules(p1, p2, d.node1, d.node2);
    if e.initStrategy == ParentMean {
      c.estVariance := (p1.estVariance + p2.estVariance) / 2.0;
    }
  }

  /** The mutant as a new rule object. */
  method MakeMutantChild(e: Engine, p: ForecastingRule, d: EvolveDraws) returns (c: ForecastingRule)
    requires |e.factory.funcs| > 0 && |e.factory.terminals| > 0
    ensures fresh(c)
    ensures c.Value() == MutantChild(e, old(p.Value()), d)
  {
    c := MutateRule(e.factory, p, d.node1, d.tree);
    if e.initStrategy == ParentMean {
      c.estVariance := p.estVariance;
    }
  }

  /** The crossover branch on rule objects. */
  method BreedByCrossover(e: Engine, pool: seq<ForecastingRule>, d: EvolveDraws) returns (r: Result<ForecastingRule>)
    ensures match CrossoverOffspring(e, old(Values(pool)), d)
            case Err(err) => r == Err(err)
            case Ok(o) => r.Ok? && fresh(r.value) && r.value.Value() == o.rule
  {
    ghost var vs := Values(pool);
    var s := Strengths(Values(pool));
    var t1 := TournamentIndex(s, e.tournSize, d.tourn1);
    if t1.Err? {
      return Err(t1.error);
    }
    var t2 := TournamentIndex(s, e.tournSize, d.tourn2);
    var p1 := pool[t1.value];
    var p2 := pool[t2.value];
    assert vs[t1.value] == p1.Value() && vs[t2.value] == p2.Value();
    var c := MakeCrossoverChild(e, p1, p2, d);
    return Ok(c);
  }

  /** The mutation branch on rule objects. */
  method BreedByMutation(e: Engine, pool: seq<ForecastingRule>, d: EvolveDraws) returns (r: Result<ForecastingRule>)
    requires |e.factory.funcs| > 0 && |e.factory.terminals| > 0
    ensures match MutationOffspring(e, old(Values(pool)), d)
            case Err(err) => r == Err(err)
            case Ok(o) => r.Ok? && fresh(r.value) && r.value.Value() == o.rule
  {
    ghost var vs := Values(pool);
    var t1 := TournamentIndex(Strengths(Values(pool)), e.tournSize, d.tourn1);
    if t1.Err? {
      return Err(t1.error);
    }
    var p1 := pool[t1.value];
    assert vs[t1.value] == p1.Value();
    var c := MakeMutantChild(e, p1, d);
    return Ok(c);
  }

  /** The new rule of one evolution step, as a new object. */
  method BreedNewRule(e: Engine, pool: seq<ForecastingRule>, d: EvolveDraws) returns (r: Result<ForecastingRule>)
    requires |e.factory.funcs| > 0 && |e.factory.terminals| > 0
    ensures match Breed(e, old(Values(pool)), d)
            case Err(err) => r == Err(err)
            case Ok(o) => r.Ok? && fresh(r.value) && r.value.Value() == o.rule
  {
    if d.r < e.pCross {
      r := BreedByCrossover(e, pool, d);
    } else if d.r < e.pCross + e.pMut {
      r := BreedByMutation(e, pool, d);
    } else {
      var tree := GpTree.CreateRandomTree(e.factory, d.tree, 4, "grow");
      var immigrant := new ForecastingRule(tree, e.ruleConfig, DefaultInitPD, DefaultInitVariance);
      r := Ok(immigrant);
    }
  }

  /** `evolve_rules`: with fewer than two rules nothing happens; otherwise the first
      rule of least strength is replaced in place by a new rule bred from the
      others, and every other position keeps its rule. A failing tournament leaves
      the pool as it was. */
  method EvolveRules(e: Engine, rules: array<ForecastingRule>, d: EvolveDraws) returns (res: Result<()>)
    requires |e.factory.funcs| > 0 && |e.factory.terminals| > 0
    modifies rules
    ensures rules.Length < 2 ==> res == Ok(()) && rules[..] == old(rules[..])
    ensures rules.Length >= 2 ==>
              var vs := old(Values(rules[..]));
              var w := WorstIndex(vs);
              match Breed(e, Without(vs, w), d)
              case Err(err) => res == Err(err) && rules[..] == old(rules[..])
              case Ok(o) => res == Ok(()) && fresh(rules[w]) && rules[w].Value() == o.rule
                            && rules[..] == old(rules[..])[w := rules[w]]
  {
    if rules.Length < 2 {
      return Ok(());
    }
    var vs := Values(rules[..]);
    var w := WorstIndex(vs);
    var pool := Without(rules[..], w);
    assert Values(pool) == Without(vs, w);
    var bred := BreedNewRule(e, pool, d);
    if bred.Err? {
      return Err(bred.error);
    }
    rules[w] := bred.value;
    res := Ok(());
  }
}
