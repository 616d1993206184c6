/**
 * The base of every controller: it keeps the structure it was built for,
 * declares itself synchronous, has an empty setup hook, picks random sites
 * and creates the result object a run appends to.
 */
module Controllers {
  import opened Results
  import NeighborhoodBuilders

  type SiteId = NeighborhoodBuilders.SiteId

  /** The structure a controller runs over: its site ids and sites. */
  datatype Structure = Structure(siteIds: seq<SiteId>, sites: seq<NeighborhoodBuilders.Site>)

  /** The attribute record of each site, updated in place while a step is built. */
  class SimulationState {
    var siteStates: map<SiteId, map<string, int>>

    constructor ()
      ensures siteStates == map[]
    {
      siteStates := map[];
    }
  }

  /** The record of a run, created around its starting state. */
  datatype SimulationResult = SimulationResult(startingState: SimulationState)

  /** Python's `random.randint(lo, hi)` fed with a raw draw `pick`; an empty range raises ValueError. */
  datatype RandomError = EmptyRange

  function RandInt(lo: int, hi: int, pick: nat): (r: Result<int, RandomError>)
    ensures r.Ok? <==> lo <= hi
    ensures r.Ok? ==> lo <= r.value <= hi
  {
    if lo > hi then Err(EmptyRange) else Ok(lo + pick % (hi - lo + 1))
  }

  /** Every value of a non-empty range is drawn by some pick. */
  lemma RandIntReachesAll(lo: int, hi: int, x: int)
    requires lo <= x <= hi
    ensures RandInt(lo, hi, (x - lo) as nat) == Ok(x)
  {
  }

  class BasicController {
    /** Controllers update every site each step unless they say otherwise. */
    const isAsync: bool := false
    const structure: Structure

    constructor (struct: Structure)
      ensures structure == struct && !isAsync
    {
      structure := struct;
    }

    /** The setup hook run before the first step; by default it does nothing. */
    method PreRun(initialState: SimulationState, structure: Option<Structure>)
      ensures initialState.siteStates == old(initialState.siteStates)
    {
    }

    /** A uniformly drawn site index, 0 to the number of sites minus one. */
    function GetRandomSite(pick: nat): (r: Result<int, RandomError>)
      ensures r.Ok? <==> |structure.siteIds| > 0
      ensures r.Ok? ==> 0 <= r.value < |structure.siteIds|
    {
      RandInt(0, |structure.siteIds| - 1, pick)
    }

    /** A result object whose starting state is the given state. */
    function InstantiateResult(startingState: SimulationState): (r: SimulationResult)
      ensures r.startingState == startingState
    {
      SimulationResult(startingState)
    }
  }
}
