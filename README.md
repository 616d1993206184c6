# pylattica / rxn_ca core, modelled in Dafny

pylattica is a lattice-simulation framework. rxn_ca is the
reaction cellular automaton built on it. This project models four of
their components and proves properties of each:

- **Phase map** (`PhaseMaps`, `PyInts`). This is the table between phase names and the
  integer codes the lattice stores. The table lists free space first and the
  given phases after it, in order. Free space has code 0 when the given
  names do not include it. It also covers the dictionary form of the
  table and its reconstruction from a dictionary whose integer keys may have
  become strings. It also covers decoding a whole state array into names.
- **Neighborhood builders** (`NeighborhoodBuilders`). These build the
  neighbor graph of a structure in one of two ways. The first joins every
  ordered pair of distinct sites closer than a cutoff. The second adds, for
  each site, one edge per offset vector listed for the site's class,
  weighted by the length of the offset.
- **Base controller** (`Controllers`). This is the synchronous default, the
  empty setup hook, the random-site helper and the creation of a result
  object.
- **Reaction controller** (`ReactionControllers`). This is the update rule of the
  automaton:
  - It lists one scored candidate reaction per neighbor cell, then one per
    open (ambient) species.
  - Scores fall off with `distance ** 2.2` and are adjusted for nucleation.
  - Given the draws of the random samplers, it picks a candidate and passes it
    through the stoichiometric acceptance gate.
  - It then picks the product phase, and a free-species product lands as free space.

Python exceptions become `Result` or `Option` values: a missing key, a bad
`int(k)` key, an attribute read on `None`, division by zero.
Randomness, geometry and the real power are parameters:
- `pick` draws and a `Draws` record stand for the random draws;
- a `dist` function, a `siteAt` function and a `norm` function stand for the geometry;
- a positive `decay` function stands for `distance ** 2.2`.

Floats are modelled as `real`.

The code is followed where the
design notes differ from it:
- `nb_radius_from_size` gives `min(size - 1, 10)`, whereas its docstring
  speaks of a filter of 25 and 12 squares.
- The distance builder does not reject a zero
  or negative cutoff. When distances are never negative, such a cutoff
  yields no edges.
- `ReactionController.__init__` does not call the base constructor, so the
  reaction controller here keeps no structure.

## Model

| member | source | states |
|---|---|---|
| PhaseMaps.PhaseMap.constructor | rxn_ca/discrete/phase_map.py:20-37 | `phases` is free space followed by the given names in order. Both tables are the ones the enumerate loop writes. `padding_id` is -1 and `free_space_id` is the code of free space. |
| PhaseMaps.IntToPhaseContents | rxn_ca/discrete/phase_map.py:32-33 | `int_to_phase` has exactly the keys `0..len(phases)-1` and maps `i` to `phases[i]`, repeated names or not. |
| PhaseMaps.PhaseToIntContents | rxn_ca/discrete/phase_map.py:32-34 | The keys of `phase_to_int` are exactly the names in `phases`. Each name maps to the last position it occupies. |
| PhaseMaps.DecodeEncode | rxn_ca/discrete/phase_map.py:32-34 | Encoding a name and decoding its code gives the name back, for every table. |
| PhaseMaps.EncodeDecode | rxn_ca/discrete/phase_map.py:32-34 | With distinct names, decoding a code and encoding the name gives the code back. |
| PhaseMaps.TablesAreInverse | rxn_ca/discrete/phase_map.py:32-34 | With distinct names, the values of each table are the keys of the other. Together with the two round trips, this makes the tables inverse bijections. |
| PhaseMaps.RepeatedNameKeepsLastCode | rxn_ca/discrete/phase_map.py:34 | With a repeated name, `phase_to_int` keeps the last index written. Code 1 still decodes to the name but does not encode back to 1. |
| PhaseMaps.EncodingDistinct | rxn_ca/discrete/phase_map.py:28 | Distinct given names that avoid the sentinel give a table whose names are distinct, sentinel included. |
| PhaseMaps.FreeSpaceIdIsZero | rxn_ca/discrete/phase_map.py:28-37 | When the sentinel is not among the given names, free space is encoded as 0. |
| PhaseMaps.PhaseMap.ToDict | rxn_ca/discrete/phase_map.py:50-56 | The dictionary carries `phases`, `phase_to_int` and `free_space_id` unchanged, plus `int_to_phase` keyed by the same integers, each key holding its code's name. |
| PhaseMaps.PhaseMap.Empty | rxn_ca/discrete/phase_map.py:12 | `cls([])` is a fresh table holding free space alone: `phases` is `[FREE_SPACE]`, the tables map 0 and free space to each other, `free_space_id` is 0 and `padding_id` is -1. |
| PhaseMaps.PhaseMap.FromDict | rxn_ca/discrete/phase_map.py:11-17 | This is a fresh map whose fields are the dictionary's, with `int_to_phase` keys converted by `int(k)` and `padding_id` -1. It fails exactly when some key does not convert. |
| PhaseMaps.IntKeyedRoundTrip | rxn_ca/discrete/phase_map.py:14 | Converting the integer keys of `to_dict`'s output gives `int_to_phase` back. |
| PhaseMaps.JsonKeyAt | rxn_ca/discrete/phase_map.py:14 | The decimal-string key written for a code holds that code's name and converts back to the same code. |
| PhaseMaps.JsonKeyedRoundTrip | rxn_ca/discrete/phase_map.py:14 | After the keys have become decimal strings (a JSON round trip), converting them with `int(k)` still gives `int_to_phase` back. |
| PhaseMaps.Reload | rxn_ca/discrete/phase_map.py:11-17 | `from_dict(to_dict(pm))` succeeds and restores `phases`, both tables and `free_space_id`. |
| PhaseMaps.ReloadFromJson | rxn_ca/discrete/phase_map.py:11-17 | The same restoration holds when the dictionary's integer keys were stringified on the way. |
| PyInts.ParseShow | rxn_ca/discrete/phase_map.py:14 | `int(str(i)) == i` for every integer. This is what `int(k)` relies on for stringified keys. |
| PyInts.ShowIsInjective | rxn_ca/discrete/phase_map.py:14 | Distinct integers have distinct decimal strings, so stringified keys never collide. |
| PhaseMaps.Fit | rxn_ca/discrete/phase_map.py:44 | A cell of dtype `U100` holds the whole name when it has at most 100 characters, and exactly its first 100 characters otherwise. |
| PhaseMaps.PhaseMap.AsPhaseNameArray | rxn_ca/discrete/phase_map.py:43-48 | The result is a new array of the input's length. Every cell whose code is a key of `int_to_phase` holds that code's name. |
| NeighborhoodBuilders.Ids | src/pylattica/core/neighborhood_builders.py:54-55 | There is one node per site, in site order, carrying the site's id. |
| NeighborhoodBuilders.DistanceNeighborhoodBuilder.constructor | src/pylattica/core/neighborhood_builders.py:26-34 | The builder keeps the cutoff it is given. |
| NeighborhoodBuilders.DistanceNeighborhoodBuilder.Get | src/pylattica/core/neighborhood_builders.py:50-68 | The nodes are the site ids, all added before any edge. The edges are exactly those of the pass over ordered site pairs. |
| NeighborhoodBuilders.PassEdgesMembers | src/pylattica/core/neighborhood_builders.py:58-66 | The pass of one site emits an edge exactly when it joins that site to a distinct-id site strictly closer than the cutoff, weighted by that distance. |
| NeighborhoodBuilders.CutoffEdgesMembers | src/pylattica/core/neighborhood_builders.py:57-66 | An edge is in the graph exactly when some site's pass emits it. |
| NeighborhoodBuilders.CutoffEdgesProper | src/pylattica/core/neighborhood_builders.py:59-66 | There are no self-loops, and every weight is below the cutoff. |
| NeighborhoodBuilders.CutoffEdgesSymmetric | src/pylattica/core/neighborhood_builders.py:57-66 | With a symmetric distance, every edge has its reverse in the graph with the same weight. |
| NeighborhoodBuilders.NonPositiveCutoffNoEdges | src/pylattica/core/neighborhood_builders.py:57-66 | The cutoff is not checked. A cutoff of 0 or less gives no edges whenever distances are non-negative. |
| NeighborhoodBuilders.Shift | src/pylattica/core/neighborhood_builders.py:138 | The shifted location adds the offset coordinate by coordinate, over the shorter of the two lengths, as `zip` does. |
| NeighborhoodBuilders.StructureNeighborhoodBuilder.constructor | src/pylattica/core/neighborhood_builders.py:98-110 | The builder keeps the spec. Its length table has exactly the offsets of all classes as keys, each mapped to its length. |
| NeighborhoodBuilders.SiteEdgesShape | src/pylattica/core/neighborhood_builders.py:136-147 | A site's edges plus the offsets that land back on the site add up to the class's offset count, so there are at most that many edges. Each edge is `(site_at(loc + v), s, length(v))` for an offset `v` whose target is another site. |
| NeighborhoodBuilders.StructureNeighborhoodBuilder.SiteEdgeList | src/pylattica/core/neighborhood_builders.py:136-147 | The per-site loop builds exactly that site's offset edges, in offset order. |
| NeighborhoodBuilders.OffsetEdgesMembers | src/pylattica/core/neighborhood_builders.py:132-148 | An edge is in the graph exactly when some site and some offset of its class produce it. The graph has no self-loops. |
| NeighborhoodBuilders.StructureNeighborhoodBuilder.Get | src/pylattica/core/neighborhood_builders.py:126-150 | The build fails exactly when some site's class is missing from the spec, and the error names the first such class. Otherwise the nodes are the site ids and the edges are the per-site offset edges, in site order. |
| Controllers.RandInt | src/pylattica/core/basic_controller.py:36 | `randint(lo, hi)` succeeds exactly when `lo <= hi`, and its value lies in `[lo, hi]`. |
| Controllers.RandIntReachesAll | src/pylattica/core/basic_controller.py:36 | Every value in a non-empty range is produced by some draw. |
| Controllers.BasicController.constructor | src/pylattica/core/basic_controller.py:21-24 | The controller stores the structure unaltered and is not asynchronous. |
| Controllers.BasicController.PreRun | src/pylattica/core/basic_controller.py:30-33 | The default hook leaves the initial state unchanged. |
| Controllers.BasicController.GetRandomSite | src/pylattica/core/basic_controller.py:35-36 | It gives an index in `[0, len(site_ids) - 1]`, and fails exactly when there are no sites. |
| Controllers.BasicController.InstantiateResult | src/pylattica/core/basic_controller.py:38-39 | The result's starting state is the argument itself. |
| ReactionControllers.NbRadiusFromSize | rxn_ca/rxn/reaction_controller.py:44 | The radius is `min(size - 1, 10)` for every integer size, so it never exceeds 10. |
| ReactionControllers.ReactionController.constructor | rxn_ca/rxn/reaction_controller.py:46-55 | The controller keeps the phase tables and the reaction set. The effective-distance table has exactly the open species as keys, each at distance 5. |
| ReactionControllers.ScoreContribution | rxn_ca/rxn/reaction_controller.py:178-179 | The contribution times `distance ** 2.2` is the weight, so a positive weight gives a positive contribution and a non-negative weight a non-negative one. |
| ReactionControllers.AllUnfriendly | rxn_ca/rxn/reaction_controller.py:165-173 | The friendly count reaches 0 exactly when no neighbor is a reactant or a product, including an empty neighbor list. |
| ReactionControllers.DampedBounds | rxn_ca/rxn/reaction_controller.py:167-168 | Multiplying a non-negative score by 0.9 any number of times keeps it in `[0, score]`. |
| ReactionControllers.NucleationBounds | rxn_ca/rxn/reaction_controller.py:165-175 | For a non-negative score, the adjusted score lies in `[0, score]`. |
| ReactionControllers.AllProductsKeepScore | rxn_ca/rxn/reaction_controller.py:166-175 | When every neighbor is a product, the score is not reduced. |
| ReactionControllers.ReactionController.AdjustScoreForNucleation | rxn_ca/rxn/reaction_controller.py:164-175 | The loop gives 0 when no neighbor is friendly, and otherwise the score times 0.9 per neighbor that is not a product. For a non-negative score the result lies in `[0, score]`. |
| ReactionControllers.RxnAndScore | rxn_ca/rxn/reaction_controller.py:149-161 | A found reaction is always the candidate. A no-op candidate arises only on free space, with score 1. The rule fails exactly when no reaction is found, the replaced phase is not free space and it has no self-reaction; the error names that phase. |
| ReactionControllers.ReactionController.GetRxnAndScore | rxn_ca/rxn/reaction_controller.py:149-161 | The three outcomes are: a found reaction, scored by competitiveness over distance and then adjusted; `(None, 1)` on free space; otherwise the phase's self-reaction, scored by distance only. A missing self-reaction is an error. |
| ReactionControllers.RxnAndScoreBounds | rxn_ca/rxn/reaction_controller.py:149-161 | With non-negative competitiveness every score is non-negative. A found reaction that no immediate neighbor supports scores 0. |
| ReactionControllers.ReactionController.ImmediateNeighbors | rxn_ca/rxn/reaction_controller.py:66-72 | The loop gives the names of the radius-1 view's codes, in order. The first unknown code is an error. |
| ReactionControllers.DecodeNamesShape | rxn_ca/rxn/reaction_controller.py:66-72 | Decoding succeeds exactly when every code is known, and then gives one name per code. |
| ReactionControllers.ReactionController.RxnsWithOpenSpecies | rxn_ca/rxn/reaction_controller.py:93-99 | The loop gives the open-species candidates, each taken at its effective distance. |
| ReactionControllers.OpenCandidatesShape | rxn_ca/rxn/reaction_controller.py:95-98 | There is one candidate per open species, in the reaction set's order. Each is the scored reaction of the center phase with that species at distance 5. |
| ReactionControllers.NeighborCandidatesShape | rxn_ca/rxn/reaction_controller.py:84-87 | There is one candidate per non-center cell, in view order. Each is the scored reaction of the cell's phase with the center phase at the cell's distance. |
| ReactionControllers.ReactionController.RxnsFromView | rxn_ca/rxn/reaction_controller.py:78-91 | The loop gives the neighbor candidates followed by the open-species candidates, or the first lookup error. |
| ReactionControllers.ViewCandidatesShape | rxn_ca/rxn/reaction_controller.py:78-91 | A view gives `|cells| + |open species|` candidates. The first part comes from the cells in view order and the rest from the open species, each element as scored above. |
| ReactionControllers.ViewCandidatesNonNegative | rxn_ca/rxn/reaction_controller.py:78-91 | With non-negative competitiveness, every candidate of a view has a non-negative score, so the scores can feed the weighted draw. |
| ReactionControllers.WeightedTerms | rxn_ca/rxn/reaction_controller.py:130 | The list exists exactly when every species has a coefficient and a volume. It then has one term per species, and term `i` is `stoich(s_i) * volumes[s_i]`. |
| ReactionControllers.AcceptanceLikelihood | rxn_ca/rxn/reaction_controller.py:129-131 | The likelihood exists exactly when the reacting species' term and all reactant terms exist and the total is non-zero. The likelihood times the total is the reacting species' term. |
| ReactionControllers.WeightedTermsPositive | rxn_ca/rxn/reaction_controller.py:130 | With positive coefficients and volumes, every term exists, equals `stoich(s) * volumes[s]` and is positive. |
| ReactionControllers.LikelihoodIsProbability | rxn_ca/rxn/reaction_controller.py:129-131 | With positive coefficients and volumes, the acceptance likelihood of a reactant is defined and lies in `(0, 1]`. |
| ReactionControllers.ProductOutcome | rxn_ca/rxn/reaction_controller.py:128-147 | The new code is free space or a code of the phase map. |
| ReactionControllers.Landed | rxn_ca/rxn/reaction_controller.py:140-141 | A free-species product lands as free space, and any other product as itself. |
| ReactionControllers.OutcomeCases | rxn_ca/rxn/reaction_controller.py:128-147 | A chosen no-op gives `(free_space_id, None)`. A chosen reaction is always returned. A draw at or above the likelihood keeps the reacting species' code. A draw below it gives the code of the drawn product, with a free species landing as free space. |
| ReactionControllers.ReactionController.GetProductFromScores | rxn_ca/rxn/reaction_controller.py:101-147 | The list loop and the branches give exactly the outcome above for the given draws. |
| ReactionControllers.NewState | rxn_ca/rxn/reaction_controller.py:60-64 | The new state of a site is free space or a code of the phase map, and exists only when the view's candidates do. |
| ReactionControllers.ReactionController.GetNewState | rxn_ca/rxn/reaction_controller.py:60-64 | The method gives the candidates of the view, then the outcome for the center's phase. |

## Left out

- Randomness. `random.randint`, `np.random.choice`, `random.random` and
  `normalize` are not modelled. Their results come in as draws: a `pick`
  for `randint`, and a `Draws` record holding the candidate index, the
  uniform value and the product index.
- ReactionControllers.ReactionController.GetProductFromScores: requires
  draws that the samplers could return. That means non-negative scores, a
  chosen candidate of positive score, a uniform value in `[0, 1)` and a
  product of positive weight. An all-zero or negative score list, and
  product weights that do not sum to a positive value, are undefined in the
  source. Here they are excluded by the precondition rather than modelled.
- Floating point. IEEE rounding is not modelled: the arithmetic is over `real`.
  `distance ** 2.2` is an uninterpreted function, assumed positive for
  positive distances.
- ReactionControllers.ReactionController.RxnsFromView: requires positive cell distances.
  A zero distance would be a division by zero in the source, and the view never yields one
  because the center cell is excluded.
- The phase-map, reaction-set and reaction internals are not modelled; their
  classes are not part of this model. `get_state_name` and `get_state_value` are
  lookups in the two tables, and raise on a missing key.
  `get_reaction(phases)` looks the reactions up by the set of the given
  phases. So the pair `[A, A]` and the single phase `[A]` hit the same key.
- The reaction's `reactant_stoich` and `product_stoich` are lookups in coefficient maps.
  A missing coefficient is an error.
- The neighborhood view and its geometry are not modelled. The configured view is given as
  its non-center cells (code and distance, in view order). The radius-1
  view used by `immediate_neighbors` is given as the list of codes it
  iterates. `get_neighborhood_from_size`, `get_neighborhood_from_step` and
  `get_rxns_from_step` only build views and are left out.
- The reaction controller's `instantiate_result` override builds a
  `ReactionResult`, a class that is not part of this model.
- `PhaseMap.as_phase_name_array` works on a flattened state. numpy's
  multi-dimensional shape is not modelled. Cells whose code has no name
  stay whatever `np.empty` left there, so the model says nothing about them
  (it fills them with the empty string). `step_as_phase_name_array` is not modelled.
- PhaseMaps.PhaseMap.FromDict: requires that no two keys of `int_to_phase`
  convert to the same integer (for example `"1"` and `"01"`). Which of
  them wins depends on dictionary order, which is not modelled. The
  dictionaries that `to_dict` writes, and their JSON round trips, always meet
  this requirement.
- `int(k)` is modelled as an optional sign followed by ASCII digits. Python's
  surrounding whitespace, `_` digit separators and non-ASCII digits are not
  accepted here.
- Aliasing is not modelled. `to_dict` returns the map's own lists and
  dictionaries, so a later mutation of the dictionary would show in the map;
  here both are values.
- Graph internals are not modelled. A graph is its node list and its edge list in insertion
  order. rustworkx node indices, and the identification of node index with
  site id, are not modelled. Parallel edges are kept, as a `PyGraph` keeps
  them.
- Geometry is not modelled. `pbc_diff_cart` is a distance function parameter,
  `PeriodicStructure.site_at` a site-lookup function parameter, and
  `EuclideanDistanceMap` is a norm function parameter tabulated per offset.
  Locations and offsets have integer coordinates.
- `tqdm` progress bars, logging, visualization, pymatgen conversion, the
  runner and its parallel execution are not modelled. None of them takes part
  in the update rule.
- `BasicController.get_state_update` is abstract in the source and has no behaviour to model.
- `SimulationState` and `SimulationResult` are only as deep as the base
  controller touches them. A state is a map of site attribute records, and a
  result holds its starting state.
