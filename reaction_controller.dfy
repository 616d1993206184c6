/**
 * The competitive reaction rule of the discrete reaction automaton. For one
 * site it lists a scored candidate per neighbor cell and per open species,
 * then (with the random draws given as parameters) picks a candidate, tests
 * the stoichiometric acceptance gate and picks a product phase.
 */
module ReactionControllers {
  import opened Results
  import PhaseMaps

  type Phase = string

  /** A reaction as the reaction set stores it. */
  datatype Reaction = Reaction(
    reactants: seq<Phase>,
    products: seq<Phase>,
    reactantStoich: map<Phase, real>,
    productStoich: map<Phase, real>,
    competitiveness: real)

  /**
   * The reaction set: reactions keyed by the set of phases that react,
   * the open (ambient) species, the free species (products that leave the
   * lattice) and a reference volume per species.
   */
  datatype ReactionSet = ReactionSet(
    reactions: map<set<Phase>, Reaction>,
    openSpecies: seq<Phase>,
    freeSpecies: set<Phase>,
    volumes: map<Phase, real>)

  /** `get_reaction(phases)`: the reaction of that set of phases, if there is one. */
  function GetReaction(rs: ReactionSet, phases: seq<Phase>): Option<Reaction> {
    var key := set p | p in phases;
    if key in rs.reactions then Some(rs.reactions[key]) else None
  }

  /** A candidate reaction (`None` for "nothing happens") and its unnormalised score. */
  datatype Candidate = Candidate(rxn: Option<Reaction>, score: real)

  /** The exceptions the rule can raise. */
  datatype Error =
    | UnknownCode(code: int)            // the phase map has no name for a cell's code
    | UnknownPhase(name: Phase)         // the phase map has no code for a phase name
    | MissingSelfReaction(phase: Phase) // no reaction, and no reaction of the phase alone either
    | MissingStoich(species: Phase)     // a species without a stoichiometric coefficient
    | MissingVolume(species: Phase)     // a species without a reference volume
    | ZeroTotalVolume                   // the acceptance likelihood divides by zero

  /** One cell of a neighborhood view, center excluded: its phase code and distance. */
  datatype Cell = Cell(code: int, distance: real)

  /**
   * What the neighborhood gives the rule about one site: the center code,
   * the cells of the configured neighborhood in view order, and the codes of
   * the radius-1 Moore view at the same coordinates.
   */
  datatype View = View(center: int, cells: seq<Cell>, ring: seq<int>)

  /**
   * The three random draws of one update: the index of the chosen candidate,
   * the uniform draw of the acceptance gate and the index of the chosen product.
   */
  datatype Draws = Draws(reaction: nat, uniform: real, product: nat)

  /** The effective distance given to every open species, a stand-in for its partial pressure. */
  const OpenDistance: real := 5.0

  /** `distance ** 2.2` is positive for every positive distance. */
  ghost predicate PositiveDecay(decay: real -> real) {
    forall d :: d > 0.0 ==> decay(d) > 0.0
  }

  /** Every cell of a view lies at a positive distance from its center. */
  predicate PositiveDistances(cells: seq<Cell>) {
    forall i :: 0 <= i < |cells| ==> cells[i].distance > 0.0
  }

  // ---------------------------------------------------------------------
  // Neighborhood radius
  // ---------------------------------------------------------------------

  /**
   * The radius of the square filter for a stage of side `size`: half the
   * width covering the stage, `(size - 1) * 2 + 1`, capped at 21, rounded
   * down. It is `size - 1` up to the cap of 10.
   */
  function NbRadiusFromSize(size: int): (r: int)
    ensures r == if size - 1 <= 10 then size - 1 else 10
    ensures r <= 10
  {
    var width := (size - 1) * 2 + 1;
    (if width <= 21 then width else 21) / 2
  }

  // ---------------------------------------------------------------------
  // Scores
  // ---------------------------------------------------------------------

  /** A weight scaled down by `distance ** 2.2`. */
  function ScoreContribution(weight: real, distance: real, decay: real -> real): (r: real)
    requires decay(distance) > 0.0
    ensures r * decay(distance) == weight
    ensures weight >= 0.0 ==> r >= 0.0
    ensures weight > 0.0 ==> r > 0.0
  {
    weight * 1.0 / decay(distance)
  }

  /** `score` multiplied by 0.9, `k` times. */
  function Damped(score: real, k: nat): real {
    if k == 0 then score else Damped(score, k - 1) * 0.9
  }

  /** Damping a non-negative score keeps it in [0, score]. */
  lemma {:induction false} DampedBounds(score: real, k: nat)
    requires score >= 0.0
    ensures 0.0 <= Damped(score, k) <= score
  {
    if k > 0 {
      DampedBounds(score, k - 1);
    }
  }

  /** How many of `ns` are not among `products`. */
  function CountNotIn(ns: seq<Phase>, products: seq<Phase>): nat {
    if ns == [] then 0
    else CountNotIn(ns[..|ns| - 1], products) + (if ns[|ns| - 1] !in products then 1 else 0)
  }

  /** How many of `ns` are neither reactants nor products. */
  function CountUnfriendly(ns: seq<Phase>, products: seq<Phase>, reactants: seq<Phase>): nat {
    if ns == [] then 0
    else
      var n := ns[|ns| - 1];
      CountUnfriendly(ns[..|ns| - 1], products, reactants) + (if n !in reactants && n !in products then 1 else 0)
  }

  /** Some neighbor is a reactant or a product of the reaction. */
  predicate HasFriendlyNeighbor(ns: seq<Phase>, products: seq<Phase>, reactants: seq<Phase>) {
    exists i :: 0 <= i < |ns| && (ns[i] in reactants || ns[i] in products)
  }

  /**
   * The nucleation adjustment: 0 when no immediate neighbor is a reactant
   * or a product, otherwise the score times 0.9 per neighbor that is not a
   * product.
   */
  function NucleationAdjusted(score: real, ns: seq<Phase>, products: seq<Phase>, reactants: seq<Phase>): real {
    if !HasFriendlyNeighbor(ns, products, reactants) then 0.0
    else Damped(score, CountNotIn(ns, products))
  }

  /** Every neighbor is unfriendly exactly when no neighbor is friendly. */
  lemma {:induction false} AllUnfriendly(ns: seq<Phase>, products: seq<Phase>, reactants: seq<Phase>)
    ensures CountUnfriendly(ns, products, reactants) <= |ns|
    ensures CountUnfriendly(ns, products, reactants) == |ns| <==> !HasFriendlyNeighbor(ns, products, reactants)
  {
    if ns != [] {
      var init := ns[..|ns| - 1];
      AllUnfriendly(init, products, reactants);
      if HasFriendlyNeighbor(init, products, reactants) {
        var i :| 0 <= i < |init| && (init[i] in reactants || init[i] in products);
        assert ns[i] == init[i];
      }
      if !HasFriendlyNeighbor(ns, products, reactants) {
        assert !(ns[|ns| - 1] in reactants || ns[|ns| - 1] in products);
      }
    }
  }

  /** For a non-negative score the adjustment only scales the score down, to no less than 0. */
  lemma NucleationBounds(score: real, ns: seq<Phase>, products: seq<Phase>, reactants: seq<Phase>)
    requires score >= 0.0
    ensures 0.0 <= NucleationAdjusted(score, ns, products, reactants) <= score
  {
    DampedBounds(score, CountNotIn(ns, products));
  }

  /** When every neighbor is a product the score is left as it is. */
  lemma {:induction false} AllProductsKeepScore(score: real, ns: seq<Phase>, products: seq<Phase>, reactants: seq<Phase>)
    requires |ns| > 0 && forall i :: 0 <= i < |ns| ==> ns[i] in products
    ensures NucleationAdjusted(score, ns, products, reactants) == score
  {
    assert ns[0] in products;
    CountNotInNone(ns, products);
  }

  lemma {:induction false} CountNotInNone(ns: seq<Phase>, products: seq<Phase>)
    requires forall i :: 0 <= i < |ns| ==> ns[i] in products
    ensures CountNotIn(ns, products) == 0
  {
    if ns != [] {
      CountNotInNone(ns[..|ns| - 1], products);
    }
  }

  /**
   * `get_rxn_and_score`: a found reaction is scored by competitiveness and
   * distance, then adjusted for nucleation; with none found, free space
   * gives the no-op candidate of score 1, and any other phase its
   * self-reaction, scored by distance alone. A phase without a
   * self-reaction raises (an attribute read on `None`).
   */
  function RxnAndScore(rs: ReactionSet, decay: real -> real, reactants: seq<Phase>, distance: real,
                       neighborPhases: seq<Phase>, replaced: Phase): (r: Result<Candidate, Error>)
    requires decay(distance) > 0.0
    ensures GetReaction(rs, reactants).Some? ==> r.Ok? && r.value.rxn == GetReaction(rs, reactants)
    ensures r.Ok? && r.value.rxn.None? ==> replaced == PhaseMaps.FreeSpace && r.value.score == 1.0
    ensures r.Err? <==>
      GetReaction(rs, reactants).None? && replaced != PhaseMaps.FreeSpace && GetReaction(rs, [replaced]).None?
    ensures r.Err? ==> r.error == MissingSelfReaction(replaced)
  {
    match GetReaction(rs, reactants)
    case Some(rx) =>
      var score := ScoreContribution(rx.competitiveness, distance, decay);
      Ok(Candidate(Some(rx), NucleationAdjusted(score, neighborPhases, rx.products, rx.reactants)))
    case None =>
      if replaced == PhaseMaps.FreeSpace then Ok(Candidate(None, 1.0))
      else
        match GetReaction(rs, [replaced])
        case None => Err(MissingSelfReaction(replaced))
        case Some(own) => Ok(Candidate(Some(own), ScoreContribution(own.competitiveness, distance, decay)))
  }

  /** Every reaction of the set has a non-negative competitiveness. */
  predicate NonNegativeCompetitiveness(rs: ReactionSet) {
    forall key :: key in rs.reactions ==> rs.reactions[key].competitiveness >= 0.0
  }

  /**
   * With non-negative competitiveness every candidate score is
   * non-negative, and a found reaction that no immediate neighbor supports
   * scores 0 whatever its distance.
   */
  lemma RxnAndScoreBounds(rs: ReactionSet, decay: real -> real, reactants: seq<Phase>, distance: real,
                          neighborPhases: seq<Phase>, replaced: Phase)
    requires decay(distance) > 0.0
    requires NonNegativeCompetitiveness(rs)
    ensures var r := RxnAndScore(rs, decay, reactants, distance, neighborPhases, replaced);
      r.Ok? ==> r.value.score >= 0.0
    ensures var r := RxnAndScore(rs, decay, reactants, distance, neighborPhases, replaced);
      match GetReaction(rs, reactants)
      case Some(rx) => !HasFriendlyNeighbor(neighborPhases, rx.products, rx.reactants) ==> r == Ok(Candidate(Some(rx), 0.0))
      case None => true
  {
    match GetReaction(rs, reactants)
    case Some(rx) =>
      NucleationBounds(ScoreContribution(rx.competitiveness, distance, decay), neighborPhases, rx.products, rx.reactants);
    case None =>
  }

  // ---------------------------------------------------------------------
  // Candidate lists
  // ---------------------------------------------------------------------

  /** The names of `codes`, in order; the first unknown code raises. */
  function DecodeNames(names: map<int, Phase>, codes: seq<int>): Result<seq<Phase>, Error> {
    if codes == [] then Ok([])
    else
      match DecodeNames(names, codes[..|codes| - 1])
      case Err(e) => Err(e)
      case Ok(prev) =>
        var c := codes[|codes| - 1];
        if c in names then Ok(prev + [names[c]]) else Err(UnknownCode(c))
  }

  /** Decoding succeeds exactly when every code is known, and then names every code. */
  lemma {:induction false} DecodeNamesShape(names: map<int, Phase>, codes: seq<int>)
    ensures DecodeNames(names, codes).Ok? <==> forall i :: 0 <= i < |codes| ==> codes[i] in names
    ensures DecodeNames(names, codes).Ok? ==>
      |DecodeNames(names, codes).value| == |codes| &&
      forall i :: 0 <= i < |codes| ==> DecodeNames(names, codes).value[i] == names[codes[i]]
  {
    if codes != [] {
      var init := codes[..|codes| - 1];
      DecodeNamesShape(names, init);
      assert forall i :: 0 <= i < |init| ==> init[i] == codes[i];
    }
  }

  /** One candidate per cell: the reaction of the cell's phase with the center phase. */
  function NeighborCandidates(rs: ReactionSet, names: map<int, Phase>, decay: real -> real,
                              cells: seq<Cell>, center: Phase, ring: seq<Phase>): Result<seq<Candidate>, Error>
    requires PositiveDecay(decay) && PositiveDistances(cells)
  {
    if cells == [] then Ok([])
    else
      match NeighborCandidates(rs, names, decay, cells[..|cells| - 1], center, ring)
      case Err(e) => Err(e)
      case Ok(prev) =>
        var c := cells[|cells| - 1];
        if c.code !in names then Err(UnknownCode(c.code))
        else
          match RxnAndScore(rs, decay, [names[c.code], center], c.distance, ring, center)
          case Err(e) => Err(e)
          case Ok(cand) => Ok(prev + [cand])
  }

  /** One candidate per open species: its reaction with the center phase at the effective distance. */
  function OpenCandidates(rs: ReactionSet, decay: real -> real, open: seq<Phase>,
                          center: Phase, ring: seq<Phase>): Result<seq<Candidate>, Error>
    requires PositiveDecay(decay)
  {
    if open == [] then Ok([])
    else
      match OpenCandidates(rs, decay, open[..|open| - 1], center, ring)
      case Err(e) => Err(e)
      case Ok(prev) =>
        match RxnAndScore(rs, decay, [center, open[|open| - 1]], OpenDistance, ring, center)
        case Err(e) => Err(e)
        case Ok(cand) => Ok(prev + [cand])
  }

  /** `rxns_from_view`: the neighbor candidates followed by the open-species candidates. */
  function ViewCandidates(rs: ReactionSet, names: map<int, Phase>, decay: real -> real, view: View): Result<seq<Candidate>, Error>
    requires PositiveDecay(decay) && PositiveDistances(view.cells)
  {
    if view.center !in names then Err(UnknownCode(view.center))
    else
      var center := names[view.center];
      match DecodeNames(names, view.ring)
      case Err(e) => Err(e)
      case Ok(ring) =>
        match NeighborCandidates(rs, names, decay, view.cells, center, ring)
        case Err(e) => Err(e)
        case Ok(near) =>
          match OpenCandidates(rs, decay, rs.openSpecies, center, ring)
          case Err(e) => Err(e)
          case Ok(open) => Ok(near + open)
  }

  lemma {:induction false} NeighborCandidatesShape(rs: ReactionSet, names: map<int, Phase>, decay: real -> real,
                                                   cells: seq<Cell>, center: Phase, ring: seq<Phase>)
    requires PositiveDecay(decay) && PositiveDistances(cells)
    ensures var r := NeighborCandidates(rs, names, decay, cells, center, ring);
      r.Ok? ==> (|r.value| == |cells| &&
        forall i :: 0 <= i < |cells| ==>
          (cells[i].code in names &&
           RxnAndScore(rs, decay, [names[cells[i].code], center], cells[i].distance, ring, center) == Ok(r.value[i])))
  {
    if cells != [] {
      var init := cells[..|cells| - 1];
      NeighborCandidatesShape(rs, names, decay, init, center, ring);
      assert forall i :: 0 <= i < |init| ==> init[i] == cells[i];
    }
  }

  lemma {:induction false} OpenCandidatesShape(rs: ReactionSet, decay: real -> real, open: seq<Phase>, center: Phase, ring: seq<Phase>)
    requires PositiveDecay(decay)
    ensures var r := OpenCandidates(rs, decay, open, center, ring);
      r.Ok? ==> (|r.value| == |open| &&
        forall j :: 0 <= j < |open| ==> RxnAndScore(rs, decay, [center, open[j]], OpenDistance, ring, center) == Ok(r.value[j]))
  {
    if open != [] {
      var init := open[..|open| - 1];
      OpenCandidatesShape(rs, decay, init, center, ring);
      assert forall j :: 0 <= j < |init| ==> init[j] == open[j];
    }
  }

  /**
   * A view yields one candidate per neighbor cell, in view order, scored
   * for the cell's phase and distance, then one per open species at the
   * effective distance: neighbor count plus open-species count in all.
   */
  lemma ViewCandidatesShape(rs: ReactionSet, names: map<int, Phase>, decay: real -> real, view: View)
    requires PositiveDecay(decay) && PositiveDistances(view.cells)
    ensures var r := ViewCandidates(rs, names, decay, view);
      r.Ok? ==>
        (view.center in names && DecodeNames(names, view.ring).Ok? &&
         |r.value| == |view.cells| + |rs.openSpecies| &&
         (forall i :: 0 <= i < |view.cells| ==>
            (view.cells[i].code in names &&
             RxnAndScore(rs, decay, [names[view.cells[i].code], names[view.center]], view.cells[i].distance,
                         DecodeNames(names, view.ring).value, names[view.center]) == Ok(r.value[i]))) &&
         (forall j :: 0 <= j < |rs.openSpecies| ==>
            RxnAndScore(rs, decay, [names[view.center], rs.openSpecies[j]], OpenDistance,
                        DecodeNames(names, view.ring).value, names[view.center]) == Ok(r.value[|view.cells| + j])))
  {
    if view.center in names && DecodeNames(names, view.ring).Ok? {
      var center := names[view.center];
      var ring := DecodeNames(names, view.ring).value;
      NeighborCandidatesShape(rs, names, decay, view.cells, center, ring);
      OpenCandidatesShape(rs, decay, rs.openSpecies, center, ring);
    }
  }

  /** With non-negative competitiveness every candidate of a view has a non-negative score. */
  lemma ViewCandidatesNonNegative(rs: ReactionSet, names: map<int, Phase>, decay: real -> real, view: View)
    requires PositiveDecay(decay) && PositiveDistances(view.cells)
    requires NonNegativeCompetitiveness(rs)
    ensures var r := ViewCandidates(rs, names, decay, view);
      r.Ok? ==> forall i :: 0 <= i < |r.value| ==> r.value[i].score >= 0.0
  {
    var r := ViewCandidates(rs, names, decay, view);
    if r.Ok? {
      ViewCandidatesShape(rs, names, decay, view);
      var center := names[view.center];
      var ring := DecodeNames(names, view.ring).value;
      var n := |view.cells|;
      forall i | 0 <= i < |r.value| ensures r.value[i].score >= 0.0 {
        if i < n {
          RxnAndScoreBounds(rs, decay, [names[view.cells[i].code], center], view.cells[i].distance, ring, center);
        } else {
          RxnAndScoreBounds(rs, decay, [center, rs.openSpecies[i - n]], OpenDistance, ring, center);
        }
      }
    }
  }

  // ---------------------------------------------------------------------
  // Acceptance gate and product
  // ---------------------------------------------------------------------

  /** The volume-weighted coefficient `stoich(s) * volumes[s]`; a missing entry raises. */
  function StoichVolume(stoich: map<Phase, real>, volumes: map<Phase, real>, s: Phase): Result<real, Error> {
    if s !in stoich then Err(MissingStoich(s))
    else if s !in volumes then Err(MissingVolume(s))
    else Ok(stoich[s] * volumes[s])
  }

  /** The list `[stoich(s) * volumes[s] for s in species]`; the first missing entry raises. */
  function WeightedTerms(stoich: map<Phase, real>, volumes: map<Phase, real>, species: seq<Phase>): (r: Result<seq<real>, Error>)
    ensures r.Ok? <==> forall s :: s in species ==> s in stoich && s in volumes
    ensures r.Ok? ==> |r.value| == |species|
    ensures r.Ok? ==> forall i :: 0 <= i < |species| ==> r.value[i] == stoich[species[i]] * volumes[species[i]]
  {
    if species == [] then Ok([])
    else
      match WeightedTerms(stoich, volumes, species[..|species| - 1])
      case Err(e) => Err(e)
      case Ok(prev) =>
        match StoichVolume(stoich, volumes, species[|species| - 1])
        case Err(e) => Err(e)
        case Ok(t) => Ok(prev + [t])
  }

  function Sum(xs: seq<real>): real {
    if xs == [] then 0.0 else Sum(xs[..|xs| - 1]) + xs[|xs| - 1]
  }

  /**
   * The acceptance likelihood: the reacting species' volume-weighted
   * coefficient over the sum of those of all reactants.
   */
  function AcceptanceLikelihood(r: Reaction, volumes: map<Phase, real>, reacting: Phase): (l: Result<real, Error>)
    ensures l.Ok? <==>
      StoichVolume(r.reactantStoich, volumes, reacting).Ok? &&
      WeightedTerms(r.reactantStoich, volumes, r.reactants).Ok? &&
      Sum(WeightedTerms(r.reactantStoich, volumes, r.reactants).value) != 0.0
    ensures l.Ok? ==>
      l.value * Sum(WeightedTerms(r.reactantStoich, volumes, r.reactants).value) ==
      StoichVolume(r.reactantStoich, volumes, reacting).value
  {
    match StoichVolume(r.reactantStoich, volumes, reacting)
    case Err(e) => Err(e)
    case Ok(own) =>
      match WeightedTerms(r.reactantStoich, volumes, r.reactants)
      case Err(e) => Err(e)
      case Ok(terms) => if Sum(terms) == 0.0 then Err(ZeroTotalVolume) else Ok(own / Sum(terms))
  }

  /** Every species has a positive coefficient and a positive reference volume. */
  predicate PositiveWeights(stoich: map<Phase, real>, volumes: map<Phase, real>, species: seq<Phase>) {
    forall s :: s in species ==> s in stoich && s in volumes && stoich[s] > 0.0 && volumes[s] > 0.0
  }

  /** With positive coefficients and volumes every species has a term, and every term is positive. */
  lemma {:induction false} WeightedTermsPositive(stoich: map<Phase, real>, volumes: map<Phase, real>, species: seq<Phase>)
    requires PositiveWeights(stoich, volumes, species)
    ensures var w := WeightedTerms(stoich, volumes, species);
      w.Ok? && forall i :: 0 <= i < |species| ==>
        (w.value[i] > 0.0 && StoichVolume(stoich, volumes, species[i]) == Ok(w.value[i]))
  {
    if species != [] {
      var init := species[..|species| - 1];
      assert forall s :: s in init ==> s in species;
      WeightedTermsPositive(stoich, volumes, init);
      var last := species[|species| - 1];
      assert last in species;
      var t := StoichVolumePositive(stoich, volumes, last);
      var prev := WeightedTerms(stoich, volumes, init).value;
      var w := WeightedTerms(stoich, volumes, species).value;
      assert w == prev + [t];
      forall i | 0 <= i < |species|
        ensures w[i] > 0.0 && StoichVolume(stoich, volumes, species[i]) == Ok(w[i])
      {
        if i < |init| {
          assert species[i] == init[i];
        }
      }
    }
  }

  /** A positive coefficient and a positive volume give a positive term. */
  lemma StoichVolumePositive(stoich: map<Phase, real>, volumes: map<Phase, real>, s: Phase) returns (t: real)
    requires s in stoich && s in volumes && stoich[s] > 0.0 && volumes[s] > 0.0
    ensures StoichVolume(stoich, volumes, s) == Ok(t) && t > 0.0
  {
    t := stoich[s] * volumes[s];
    assert t > 0.0;
  }

  /** A sum of positive terms is at least each of its terms. */
  lemma {:induction false} SumAtLeastTerm(xs: seq<real>, i: int)
    requires 0 <= i < |xs|
    requires forall j :: 0 <= j < |xs| ==> xs[j] > 0.0
    ensures Sum(xs) >= xs[i]
  {
    var init := xs[..|xs| - 1];
    SumNonNegative(init);
    if i < |xs| - 1 {
      SumAtLeastTerm(init, i);
    }
  }

  lemma {:induction false} SumNonNegative(xs: seq<real>)
    requires forall j :: 0 <= j < |xs| ==> xs[j] > 0.0
    ensures Sum(xs) >= 0.0
  {
    if xs != [] {
      SumNonNegative(xs[..|xs| - 1]);
    }
  }

  /**
   * With positive coefficients and volumes, the likelihood of a species
   * that is one of the reactants is a probability in (0, 1].
   */
  lemma LikelihoodIsProbability(r: Reaction, volumes: map<Phase, real>, reacting: Phase)
    requires reacting in r.reactants
    requires PositiveWeights(r.reactantStoich, volumes, r.reactants)
    ensures AcceptanceLikelihood(r, volumes, reacting).Ok?
    ensures 0.0 < AcceptanceLikelihood(r, volumes, reacting).value <= 1.0
  {
    WeightedTermsPositive(r.reactantStoich, volumes, r.reactants);
    var terms := WeightedTerms(r.reactantStoich, volumes, r.reactants).value;
    var i :| 0 <= i < |r.reactants| && r.reactants[i] == reacting;
    var own := terms[i];
    assert StoichVolume(r.reactantStoich, volumes, reacting) == Ok(own);
    SumAtLeastTerm(terms, i);
    var total := Sum(terms);
    assert AcceptanceLikelihood(r, volumes, reacting) == Ok(own / total);
    RatioInUnitInterval(own, total);
  }

  lemma RatioInUnitInterval(part: real, whole: real)
    requires 0.0 < part <= whole
    ensures 0.0 < part / whole <= 1.0
  {
    assert part / whole * whole == part;
  }

  /** A draw from `weights` that numpy's weighted choice can return: a positive-weight index. */
  predicate ValidPick(weights: seq<real>, k: nat) {
    k < |weights| && weights[k] > 0.0 && forall i :: 0 <= i < |weights| ==> weights[i] >= 0.0
  }

  /**
   * When the gate is passed, the product draw is a valid pick of the
   * product weights (when those weights exist at all).
   */
  predicate ProductDrawDefined(rs: ReactionSet, cands: seq<Candidate>, reacting: Phase, d: Draws)
    requires d.reaction < |cands|
  {
    match cands[d.reaction].rxn
    case None => true
    case Some(r) =>
      match AcceptanceLikelihood(r, rs.volumes, reacting)
      case Err(_) => true
      case Ok(l) =>
        d.uniform < l ==>
          match WeightedTerms(r.productStoich, rs.volumes, r.products)
          case Err(_) => true
          case Ok(w) => ValidPick(w, d.product)
  }

  /**
   * The draws are possible outcomes of the samplers: the candidate scores
   * form a distribution and the chosen one has positive score, the uniform
   * draw lies in [0, 1), and the product draw is a valid pick.
   */
  predicate DrawsValid(rs: ReactionSet, cands: seq<Candidate>, reacting: Phase, d: Draws) {
    (forall i :: 0 <= i < |cands| ==> cands[i].score >= 0.0) &&
    d.reaction < |cands| && cands[d.reaction].score > 0.0 &&
    0.0 <= d.uniform < 1.0 &&
    ProductDrawDefined(rs, cands, reacting, d)
  }

  /** A product as it lands on the lattice: a free species becomes free space. */
  function Landed(rs: ReactionSet, p: Phase): (q: Phase)
    ensures q == PhaseMaps.FreeSpace || q == p
    ensures p in rs.freeSpecies ==> q == PhaseMaps.FreeSpace
    ensures p !in rs.freeSpecies ==> q == p
  {
    if p in rs.freeSpecies then PhaseMaps.FreeSpace else p
  }

  /** `get_product_from_scores`, for the given draws: the new code and the chosen reaction. */
  function ProductOutcome(rs: ReactionSet, codes: map<Phase, int>, freeSpaceId: int,
                          cands: seq<Candidate>, reacting: Phase, d: Draws): (r: Result<(int, Option<Reaction>), Error>)
    requires d.reaction < |cands|
    requires ProductDrawDefined(rs, cands, reacting, d)
    ensures r.Ok? ==> r.value.0 == freeSpaceId || r.value.0 in codes.Values
  {
    match cands[d.reaction].rxn
    case None => Ok((freeSpaceId, None))
    case Some(r) =>
      match AcceptanceLikelihood(r, rs.volumes, reacting)
      case Err(e) => Err(e)
      case Ok(l) =>
        if d.uniform < l then
          match WeightedTerms(r.productStoich, rs.volumes, r.products)
          case Err(e) => Err(e)
          case Ok(w) =>
            var name := Landed(rs, r.products[d.product]);
            if name in codes then Ok((codes[name], Some(r))) else Err(UnknownPhase(name))
        else if reacting in codes then Ok((codes[reacting], Some(r)))
        else Err(UnknownPhase(reacting))
  }

  /**
   * The outcome: a chosen no-op gives free space and no reaction; a chosen
   * reaction is always returned, with the reacting species' own code when
   * the uniform draw is at or above the likelihood, and otherwise the code
   * of the drawn product (free species landing as free space).
   */
  lemma OutcomeCases(rs: ReactionSet, codes: map<Phase, int>, freeSpaceId: int,
                     cands: seq<Candidate>, reacting: Phase, d: Draws)
    requires DrawsValid(rs, cands, reacting, d)
    ensures var out := ProductOutcome(rs, codes, freeSpaceId, cands, reacting, d);
      match cands[d.reaction].rxn
      case None => out == Ok((freeSpaceId, None))
      case Some(r) =>
        (out.Ok? ==> out.value.1 == Some(r)) &&
        ((AcceptanceLikelihood(r, rs.volumes, reacting).Ok? && reacting in codes &&
          d.uniform >= AcceptanceLikelihood(r, rs.volumes, reacting).value) ==>
           out == Ok((codes[reacting], Some(r)))) &&
        ((out.Ok? && AcceptanceLikelihood(r, rs.volumes, reacting).Ok? &&
          d.uniform < AcceptanceLikelihood(r, rs.volumes, reacting).value) ==>
           (d.product < |r.products| && Landed(rs, r.products[d.product]) in codes &&
            out.value.0 == codes[Landed(rs, r.products[d.product])]))
  {
  }

  /** The draws fit the candidates of the view, whenever there are candidates. */
  predicate DrawsFitView(rs: ReactionSet, names: map<int, Phase>, decay: real -> real, view: View, d: Draws)
    requires PositiveDecay(decay) && PositiveDistances(view.cells)
  {
    var c := ViewCandidates(rs, names, decay, view);
    view.center in names && c.Ok? ==> DrawsValid(rs, c.value, names[view.center], d)
  }

  /**
   * `get_new_state`: the candidates of the view, then the outcome for the
   * center's phase. The new code is free space or a code of the phase map.
   */
  function NewState(rs: ReactionSet, names: map<int, Phase>, codes: map<Phase, int>, freeSpaceId: int,
                    decay: real -> real, view: View, d: Draws): (r: Result<(int, Option<Reaction>), Error>)
    requires PositiveDecay(decay) && PositiveDistances(view.cells)
    requires DrawsFitView(rs, names, decay, view, d)
    ensures r.Ok? ==> r.value.0 == freeSpaceId || r.value.0 in codes.Values
    ensures r.Ok? ==> ViewCandidates(rs, names, decay, view).Ok?
  {
    if view.center !in names then Err(UnknownCode(view.center))
    else
      match ViewCandidates(rs, names, decay, view)
      case Err(e) => Err(e)
      case Ok(c) => ProductOutcome(rs, codes, freeSpaceId, c, names[view.center], d)
  }

  // ---------------------------------------------------------------------
  // The controller
  // ---------------------------------------------------------------------

  class ReactionController {
    /** Code to name and name to code, as the phase map held them when the controller was built. */
    const phaseNames: map<int, Phase>
    const phaseCodes: map<Phase, int>
    const freeSpaceId: int
    const rxnSet: ReactionSet
    /** `distance ** 2.2`. */
    const decay: real -> real
    const effectiveOpenDistances: map<Phase, real>

    ghost predicate Valid() {
      PositiveDecay(decay) &&
      (forall s :: s in effectiveOpenDistances <==> s in rxnSet.openSpecies) &&
      (forall s :: s in effectiveOpenDistances ==> effectiveOpenDistances[s] == OpenDistance)
    }

    /** Keeps the tables and the reaction set, and gives every open species the effective distance. */
    constructor (phaseMap: PhaseMaps.PhaseMap, reactionSet: ReactionSet, decay: real -> real)
      requires PositiveDecay(decay)
      ensures phaseNames == phaseMap.intToPhase && phaseCodes == phaseMap.phaseToInt
      ensures freeSpaceId == phaseMap.freeSpaceId
      ensures rxnSet == reactionSet && this.decay == decay
      ensures Valid()
    {
      var open := reactionSet.openSpecies;
      var distances: map<Phase, real> := map[];
      for i := 0 to |open|
        invariant forall s :: s in distances <==> s in open[..i]
        invariant forall s :: s in distances ==> distances[s] == OpenDistance
      {
        assert open[..i + 1] == open[..i] + [open[i]];
        distances := distances[open[i] := OpenDistance];
      }
      assert open[..|open|] == open;
      phaseNames := phaseMap.intToPhase;
      phaseCodes := phaseMap.phaseToInt;
      freeSpaceId := phaseMap.freeSpaceId;
      rxnSet := reactionSet;
      this.decay := decay;
      effectiveOpenDistances := distances;
    }

    /** The names of the immediate (radius-1) neighbors. */
    method ImmediateNeighbors(ring: seq<int>) returns (r: Result<seq<Phase>, Error>)
      ensures r == DecodeNames(phaseNames, ring)
    {
      var names: seq<Phase> := [];
      for i := 0 to |ring|
        invariant DecodeNames(phaseNames, ring[..i]) == Ok(names)
      {
        assert ring[..i + 1][..i] == ring[..i];
        if ring[i] !in phaseNames {
          DecodeNamesFailsOnward(phaseNames, ring, i + 1);
          return Err(UnknownCode(ring[i]));
        }
        names := names + [phaseNames[ring[i]]];
      }
      assert ring[..|ring|] == ring;
      r := Ok(names);
    }

    /** The nucleation adjustment, as the source computes it: one neighbor at a time. */
    method AdjustScoreForNucleation(score: real, neighbors: seq<Phase>, products: seq<Phase>, reactants: seq<Phase>)
      returns (r: real)
      ensures r == NucleationAdjusted(score, neighbors, products, reactants)
      ensures !HasFriendlyNeighbor(neighbors, products, reactants) ==> r == 0.0
      ensures score >= 0.0 ==> 0.0 <= r <= score
    {
      var s := score;
      var totalFriendly: int := |neighbors|;
      for i := 0 to |neighbors|
        invariant s == Damped(score, CountNotIn(neighbors[..i], products))
        invariant totalFriendly == |neighbors| - CountUnfriendly(neighbors[..i], products, reactants)
      {
        assert neighbors[..i + 1][..i] == neighbors[..i];
        var n := neighbors[i];
        if n !in products {
          s := s * 0.9;
        }
        if n !in reactants && n !in products {
          totalFriendly := totalFriendly - 1;
        }
      }
      assert neighbors[..|neighbors|] == neighbors;
      AllUnfriendly(neighbors, products, reactants);
      if score >= 0.0 {
        NucleationBounds(score, neighbors, products, reactants);
      }
      if totalFriendly == 0 {
        r := 0.0;
      } else {
        r := s;
      }
    }

    /** Scores the reaction of `reactants` at `distance`, from the site held by `replaced`. */
    method GetRxnAndScore(reactants: seq<Phase>, distance: real, neighborPhases: seq<Phase>, replaced: Phase)
      returns (r: Result<Candidate, Error>)
      requires Valid() && distance > 0.0
      ensures r == RxnAndScore(rxnSet, decay, reactants, distance, neighborPhases, replaced)
    {
      var found := GetReaction(rxnSet, reactants);
      if found.Some? {
        var score := ScoreContribution(found.value.competitiveness, distance, decay);
        score := AdjustScoreForNucleation(score, neighborPhases, found.value.products, found.value.reactants);
        return Ok(Candidate(found, score));
      } else if replaced == PhaseMaps.FreeSpace {
        return Ok(Candidate(None, 1.0));
      }
      var own := GetReaction(rxnSet, [replaced]);
      if own.None? {
        return Err(MissingSelfReaction(replaced));
      }
      r := Ok(Candidate(own, ScoreContribution(own.value.competitiveness, distance, decay)));
    }

    /** One candidate per open species, in the reaction set's order. */
    method RxnsWithOpenSpecies(center: Phase, neighborPhases: seq<Phase>) returns (r: Result<seq<Candidate>, Error>)
      requires Valid()
      ensures r == OpenCandidates(rxnSet, decay, rxnSet.openSpecies, center, neighborPhases)
    {
      var open := rxnSet.openSpecies;
      var rxns: seq<Candidate> := [];
      for i := 0 to |open|
        invariant OpenCandidates(rxnSet, decay, open[..i], center, neighborPhases) == Ok(rxns)
      {
        assert open[..i + 1][..i] == open[..i];
        assert open[i] in open;
        var distEff := effectiveOpenDistances[open[i]];
        assert distEff == OpenDistance;
        var cand := GetRxnAndScore([center, open[i]], distEff, neighborPhases, center);
        if cand.Err? {
          OpenCandidatesFailOnward(rxnSet, decay, open, center, neighborPhases, i + 1);
          return Err(cand.error);
        }
        OpenCandidatesExtend(rxnSet, decay, open, i, center, neighborPhases);
        rxns := rxns + [cand.value];
      }
      assert open[..|open|] == open;
      r := Ok(rxns);
    }

    /** Every candidate for the center of `view`: one per neighbor cell, then one per open species. */
    method RxnsFromView(view: View) returns (r: Result<seq<Candidate>, Error>)
      requires Valid() && PositiveDistances(view.cells)
      ensures r == ViewCandidates(rxnSet, phaseNames, decay, view)
    {
      if view.center !in phaseNames {
        return Err(UnknownCode(view.center));
      }
      var center := phaseNames[view.center];
      var ring := ImmediateNeighbors(view.ring);
      if ring.Err? {
        return Err(ring.error);
      }
      var cells := view.cells;
      var possible: seq<Candidate> := [];
      for i := 0 to |cells|
        invariant NeighborCandidates(rxnSet, phaseNames, decay, cells[..i], center, ring.value) == Ok(possible)
      {
        assert cells[..i + 1][..i] == cells[..i];
        var other := cells[i];
        if other.code !in phaseNames {
          NeighborCandidatesFailOnward(rxnSet, phaseNames, decay, cells, center, ring.value, i + 1);
          return Err(UnknownCode(other.code));
        }
        var cand := GetRxnAndScore([phaseNames[other.code], center], other.distance, ring.value, center);
        if cand.Err? {
          NeighborCandidatesFailOnward(rxnSet, phaseNames, decay, cells, center, ring.value, i + 1);
          return Err(cand.error);
        }
        possible := possible + [cand.value];
      }
      assert cells[..|cells|] == cells;
      var open := RxnsWithOpenSpecies(center, ring.value);
      if open.Err? {
        return Err(open.error);
      }
      r := Ok(possible + open.value);
    }

    /**
     * Picks the candidate the draw names, tests the acceptance gate and
     * picks the product: the new phase code of the site and the reaction.
     */
    method GetProductFromScores(cands: seq<Candidate>, reacting: Phase, d: Draws)
      returns (r: Result<(int, Option<Reaction>), Error>)
      requires DrawsValid(rxnSet, cands, reacting, d)
      ensures r == ProductOutcome(rxnSet, phaseCodes, freeSpaceId, cands, reacting, d)
    {
      var rxns: seq<Option<Reaction>> := [];
      var scores: seq<real> := [];
      for i := 0 to |cands|
        invariant |rxns| == i && |scores| == i
        invariant forall j :: 0 <= j < i ==> rxns[j] == cands[j].rxn && scores[j] == cands[j].score
      {
        rxns := rxns + [cands[i].rxn];
        scores := scores + [cands[i].score];
      }
      var chosen := rxns[d.reaction];
      if chosen.None? {
        return Ok((freeSpaceId, None));
      }
      var rx := chosen.value;
      var likelihood := AcceptanceLikelihood(rx, rxnSet.volumes, reacting);
      if likelihood.Err? {
        return Err(likelihood.error);
      }
      if d.uniform < likelihood.value {
        var weights := WeightedTerms(rx.productStoich, rxnSet.volumes, rx.products);
        if weights.Err? {
          return Err(weights.error);
        }
        var name := rx.products[d.product];
        if name in rxnSet.freeSpecies {
          name := PhaseMaps.FreeSpace;
        }
        if name !in phaseCodes {
          return Err(UnknownPhase(name));
        }
        return Ok((phaseCodes[name], chosen));
      } else {
        if reacting !in phaseCodes {
          return Err(UnknownPhase(reacting));
        }
        return Ok((phaseCodes[reacting], chosen));
      }
    }

    /** The new phase code of the center of `view` and the reaction that produced it. */
    method GetNewState(view: View, d: Draws) returns (r: Result<(int, Option<Reaction>), Error>)
      requires Valid() && PositiveDistances(view.cells)
      requires DrawsFitView(rxnSet, phaseNames, decay, view, d)
      ensures r == NewState(rxnSet, phaseNames, phaseCodes, freeSpaceId, decay, view, d)
    {
      if view.center !in phaseNames {
        return Err(UnknownCode(view.center));
      }
      var current := phaseNames[view.center];
      var possible := RxnsFromView(view);
      if possible.Err? {
        return Err(possible.error);
      }
      r := GetProductFromScores(possible.value, current, d);
    }
  }

  // ---------------------------------------------------------------------
  // Early exits of the loops
  // ---------------------------------------------------------------------

  lemma {:induction false} DecodeNamesFailsOnward(names: map<int, Phase>, codes: seq<int>, k: nat)
    requires 0 < k <= |codes| && DecodeNames(names, codes[..k]).Err?
    ensures DecodeNames(names, codes) == DecodeNames(names, codes[..k])
    decreases |codes| - k
  {
    if k < |codes| {
      assert codes[..k + 1][..k] == codes[..k];
      DecodeNamesFailsOnward(names, codes, k + 1);
    } else {
      assert codes[..k] == codes;
    }
  }

  lemma {:induction false} NeighborCandidatesFailOnward(rs: ReactionSet, names: map<int, Phase>, decay: real -> real,
                                                        cells: seq<Cell>, center: Phase, ring: seq<Phase>, k: nat)
    requires PositiveDecay(decay) && PositiveDistances(cells)
    requires 0 < k <= |cells| && NeighborCandidates(rs, names, decay, cells[..k], center, ring).Err?
    ensures NeighborCandidates(rs, names, decay, cells, center, ring) == NeighborCandidates(rs, names, decay, cells[..k], center, ring)
    decreases |cells| - k
  {
    if k < |cells| {
      assert cells[..k + 1][..k] == cells[..k];
      NeighborCandidatesFailOnward(rs, names, decay, cells, center, ring, k + 1);
    } else {
      assert cells[..k] == cells;
    }
  }

  lemma OpenCandidatesExtend(rs: ReactionSet, decay: real -> real, open: seq<Phase>, k: nat,
                             center: Phase, ring: seq<Phase>)
    requires PositiveDecay(decay) && k < |open|
    requires OpenCandidates(rs, decay, open[..k], center, ring).Ok?
    requires RxnAndScore(rs, decay, [center, open[k]], OpenDistance, ring, center).Ok?
    ensures OpenCandidates(rs, decay, open[..k + 1], center, ring) ==
      Ok(OpenCandidates(rs, decay, open[..k], center, ring).value +
         [RxnAndScore(rs, decay, [center, open[k]], OpenDistance, ring, center).value])
  {
    assert open[..k + 1][..k] == open[..k];
  }

  lemma {:induction false} OpenCandidatesFailOnward(rs: ReactionSet, decay: real -> real, open: seq<Phase>,
                                                    center: Phase, ring: seq<Phase>, k: nat)
    requires PositiveDecay(decay)
    requires 0 < k <= |open| && OpenCandidates(rs, decay, open[..k], center, ring).Err?
    ensures OpenCandidates(rs, decay, open, center, ring) == OpenCandidates(rs, decay, open[..k], center, ring)
    decreases |open| - k
  {
    if k < |open| {
      assert open[..k + 1][..k] == open[..k];
      OpenCandidatesFailOnward(rs, decay, open, center, ring, k + 1);
    } else {
      assert open[..k] == open;
    }
  }
}
