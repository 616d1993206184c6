/**
 * The two neighborhood builders: each turns the sites of a structure into
 * the node and edge lists of an undirected weighted neighbor graph.
 * Geometry belongs to the structure and is given as functions: the
 * periodic distance between two locations, the site at a location (with
 * periodic wraparound), and the length of an offset vector.
 */
module NeighborhoodBuilders {
  import opened Results

  type SiteId = nat
  type Location = seq<int>
  type Offset = seq<int>

  /** One site of a structure: its identifier, lattice location and site class. */
  datatype Site = Site(id: SiteId, location: Location, siteClass: string)

  /** An edge between two site ids, weighted by their distance. */
  datatype Edge = Edge(a: SiteId, b: SiteId, weight: real)

  /** A neighbor graph: node payloads and edges, each in insertion order. */
  datatype Graph = Graph(nodes: seq<SiteId>, edges: seq<Edge>)

  /** The site ids, one per site, in the structure's order. */
  function Ids(sites: seq<Site>): (r: seq<SiteId>)
    ensures |r| == |sites|
    ensures forall i :: 0 <= i < |sites| ==> r[i] == sites[i].id
  {
    seq(|sites|, i requires 0 <= i < |sites| => sites[i].id)
  }

  // ---------------------------------------------------------------------
  // Distance-cutoff builder
  // ---------------------------------------------------------------------

  /** `e` is the edge the distance builder adds on `curr`'s pass for `other`. */
  predicate CutoffEdge(curr: Site, other: Site, cutoff: real, dist: (Location, Location) -> real, e: Edge) {
    curr.id != other.id && dist(other.location, curr.location) < cutoff &&
    e == Edge(curr.id, other.id, dist(other.location, curr.location))
  }

  /** The edges of `curr`'s pass over `others`, in the order the inner loop adds them. */
  function PassEdges(curr: Site, others: seq<Site>, cutoff: real, dist: (Location, Location) -> real): seq<Edge> {
    if others == [] then []
    else
      var other := others[|others| - 1];
      var d := dist(other.location, curr.location);
      PassEdges(curr, others[..|others| - 1], cutoff, dist) +
      (if curr.id != other.id && d < cutoff then [Edge(curr.id, other.id, d)] else [])
  }

  /** The edges of the passes of every site of `currs` over `all`, in order. */
  function CutoffEdges(currs: seq<Site>, all: seq<Site>, cutoff: real, dist: (Location, Location) -> real): seq<Edge> {
    if currs == [] then []
    else CutoffEdges(currs[..|currs| - 1], all, cutoff, dist) + PassEdges(currs[|currs| - 1], all, cutoff, dist)
  }

  lemma {:induction false} PassEdgesMembers(curr: Site, others: seq<Site>, cutoff: real, dist: (Location, Location) -> real)
    ensures forall e :: e in PassEdges(curr, others, cutoff, dist) <==>
      exists o :: o in others && CutoffEdge(curr, o, cutoff, dist, e)
  {
    if others != [] {
      var init, last := others[..|others| - 1], others[|others| - 1];
      PassEdgesMembers(curr, init, cutoff, dist);
      assert others == init + [last];
      forall e ensures e in PassEdges(curr, others, cutoff, dist) <==> exists o :: o in others && CutoffEdge(curr, o, cutoff, dist, e) {
        if CutoffEdge(curr, last, cutoff, dist, e) {
          assert last in others;
        }
        if o :| o in others && CutoffEdge(curr, o, cutoff, dist, e) {
          if o in init {
            assert e in PassEdges(curr, init, cutoff, dist);
          }
        }
      }
    }
  }

  /** An edge is added exactly when some ordered pair of distinct sites lies closer than the cutoff. */
  lemma {:induction false} CutoffEdgesMembers(currs: seq<Site>, all: seq<Site>, cutoff: real, dist: (Location, Location) -> real)
    ensures forall e :: e in CutoffEdges(currs, all, cutoff, dist) <==>
      exists c, o :: c in currs && o in all && CutoffEdge(c, o, cutoff, dist, e)
  {
    if currs != [] {
      var init := currs[..|currs| - 1];
      var last := currs[|currs| - 1];
      CutoffEdgesMembers(init, all, cutoff, dist);
      PassEdgesMembers(last, all, cutoff, dist);
      assert currs == init + [last];
    }
  }

  /** No self-loops, and every weight lies below the cutoff. */
  lemma CutoffEdgesProper(sites: seq<Site>, cutoff: real, dist: (Location, Location) -> real)
    ensures forall e :: e in CutoffEdges(sites, sites, cutoff, dist) ==> e.a != e.b && e.weight < cutoff
  {
    CutoffEdgesMembers(sites, sites, cutoff, dist);
  }

  /** With a symmetric distance, every edge has its reverse, with the same weight. */
  lemma CutoffEdgesSymmetric(sites: seq<Site>, cutoff: real, dist: (Location, Location) -> real)
    requires forall x, y :: dist(x, y) == dist(y, x)
    ensures forall e :: e in CutoffEdges(sites, sites, cutoff, dist) ==> Edge(e.b, e.a, e.weight) in CutoffEdges(sites, sites, cutoff, dist)
  {
    CutoffEdgesMembers(sites, sites, cutoff, dist);
    forall e | e in CutoffEdges(sites, sites, cutoff, dist)
      ensures Edge(e.b, e.a, e.weight) in CutoffEdges(sites, sites, cutoff, dist)
    {
      var c, o :| c in sites && o in sites && CutoffEdge(c, o, cutoff, dist, e);
      assert CutoffEdge(o, c, cutoff, dist, Edge(e.b, e.a, e.weight));
    }
  }

  /** The cutoff is not checked: with non-negative distances, a cutoff of 0 or less gives no edges. */
  lemma NonPositiveCutoffNoEdges(sites: seq<Site>, cutoff: real, dist: (Location, Location) -> real)
    requires cutoff <= 0.0
    requires forall x, y :: dist(x, y) >= 0.0
    ensures CutoffEdges(sites, sites, cutoff, dist) == []
  {
    NoPassesBelowZero(sites, sites, cutoff, dist);
  }

  lemma {:induction false} NoPassesBelowZero(currs: seq<Site>, all: seq<Site>, cutoff: real, dist: (Location, Location) -> real)
    requires cutoff <= 0.0
    requires forall x, y :: dist(x, y) >= 0.0
    ensures CutoffEdges(currs, all, cutoff, dist) == []
  {
    if currs != [] {
      NoPassesBelowZero(currs[..|currs| - 1], all, cutoff, dist);
      NoPassBelowZero(currs[|currs| - 1], all, cutoff, dist);
    }
  }

  lemma {:induction false} NoPassBelowZero(curr: Site, others: seq<Site>, cutoff: real, dist: (Location, Location) -> real)
    requires cutoff <= 0.0
    requires forall x, y :: dist(x, y) >= 0.0
    ensures PassEdges(curr, others, cutoff, dist) == []
  {
    if others != [] {
      NoPassBelowZero(curr, others[..|others| - 1], cutoff, dist);
    }
  }

  /** Connects every two sites that lie closer than a cutoff distance. */
  class DistanceNeighborhoodBuilder {
    const cutoff: real

    constructor (cutoff: real)
      ensures this.cutoff == cutoff
    {
      this.cutoff := cutoff;
    }

    /** Adds one node per site, then scans every ordered pair of sites. */
    method Get(sites: seq<Site>, dist: (Location, Location) -> real) returns (g: Graph)
      ensures g.nodes == Ids(sites)
      ensures g.edges == CutoffEdges(sites, sites, cutoff, dist)
    {
      var nodes: seq<SiteId> := [];
      for i := 0 to |sites|
        invariant nodes == Ids(sites[..i])
      {
        nodes := nodes + [sites[i].id];
      }
      var edges: seq<Edge> := [];
      for i := 0 to |sites|
        invariant edges == CutoffEdges(sites[..i], sites, cutoff, dist)
      {
        var curr := sites[i];
        for j := 0 to |sites|
          invariant edges == CutoffEdges(sites[..i], sites, cutoff, dist) + PassEdges(curr, sites[..j], cutoff, dist)
        {
          var other := sites[j];
          assert sites[..j + 1][..j] == sites[..j];
          if curr.id != other.id {
            var d := dist(other.location, curr.location);
            if d < cutoff {
              edges := edges + [Edge(curr.id, other.id, d)];
            }
          }
        }
        assert sites[..i + 1][..i] == sites[..i];
        assert sites[..|sites|] == sites;
      }
      assert sites[..|sites|] == sites;
      g := Graph(nodes, edges);
    }
  }

  // ---------------------------------------------------------------------
  // Offset-vector builder
  // ---------------------------------------------------------------------

  /** The neighbor offsets of each site class. */
  type NeighborSpec = map<string, seq<Offset>>

  /** The configuration error of a site whose class the spec does not list. */
  datatype BuildError = UnknownSiteClass(siteClass: string)

  /** `location + offset` component by component, over the shorter of the two (as `zip` pairs them). */
  function Shift(location: Location, offset: Offset): (r: Location)
    ensures |r| == if |location| <= |offset| then |location| else |offset|
    ensures forall i :: 0 <= i < |r| ==> r[i] == location[i] + offset[i]
  {
    var n := if |location| <= |offset| then |location| else |offset|;
    seq(n, i requires 0 <= i < n => location[i] + offset[i])
  }

  /** Every offset of every class of the spec. */
  function AllOffsets(spec: NeighborSpec): set<Offset> {
    set c, v | c in spec && v in spec[c] :: v
  }

  /** The length table has an entry for every offset the spec lists. */
  predicate CoversSpec(spec: NeighborSpec, lengths: map<Offset, real>) {
    forall c, v :: c in spec && v in spec[c] ==> v in lengths
  }

  /** `e` is the edge the offset builder adds for site `s` and offset `v`. */
  predicate OffsetEdge(s: Site, v: Offset, siteAt: Location -> SiteId, lengths: map<Offset, real>, e: Edge)
    requires v in lengths
  {
    var nb := siteAt(Shift(s.location, v));
    nb != s.id && e == Edge(nb, s.id, lengths[v])
  }

  /** The edges of one site, in the order of its class's offsets. */
  function SiteEdges(s: Site, offsets: seq<Offset>, siteAt: Location -> SiteId, lengths: map<Offset, real>): seq<Edge>
    requires forall v :: v in offsets ==> v in lengths
  {
    if offsets == [] then []
    else
      var v := offsets[|offsets| - 1];
      var nb := siteAt(Shift(s.location, v));
      SiteEdges(s, offsets[..|offsets| - 1], siteAt, lengths) +
      (if nb != s.id then [Edge(nb, s.id, lengths[v])] else [])
  }

  /** How many of `offsets` lead from `s` back to `s` itself. */
  function SelfHits(s: Site, offsets: seq<Offset>, siteAt: Location -> SiteId): nat {
    if offsets == [] then 0
    else
      var hit := siteAt(Shift(s.location, offsets[|offsets| - 1])) == s.id;
      SelfHits(s, offsets[..|offsets| - 1], siteAt) + (if hit then 1 else 0)
  }

  /** The edges of every site, site after site. */
  function OffsetEdges(sites: seq<Site>, spec: NeighborSpec, siteAt: Location -> SiteId, lengths: map<Offset, real>): seq<Edge>
    requires forall s :: s in sites ==> s.siteClass in spec
    requires CoversSpec(spec, lengths)
  {
    if sites == [] then []
    else
      var s := sites[|sites| - 1];
      OffsetEdges(sites[..|sites| - 1], spec, siteAt, lengths) + SiteEdges(s, spec[s.siteClass], siteAt, lengths)
  }

  /**
   * A site emits one edge per offset whose resolved site is another site,
   * and none for an offset that wraps back onto itself; so at most as many
   * edges as its class has offsets. Each edge runs from the resolved site
   * to `s` and weighs the length of its offset.
   */
  lemma {:induction false} SiteEdgesShape(s: Site, offsets: seq<Offset>, siteAt: Location -> SiteId, lengths: map<Offset, real>)
    requires forall v :: v in offsets ==> v in lengths
    ensures |SiteEdges(s, offsets, siteAt, lengths)| + SelfHits(s, offsets, siteAt) == |offsets|
    ensures |SiteEdges(s, offsets, siteAt, lengths)| <= |offsets|
    ensures forall e :: e in SiteEdges(s, offsets, siteAt, lengths) <==>
      exists v :: v in offsets && OffsetEdge(s, v, siteAt, lengths, e)
  {
    if offsets != [] {
      var init, last := offsets[..|offsets| - 1], offsets[|offsets| - 1];
      SiteEdgesShape(s, init, siteAt, lengths);
      assert offsets == init + [last];
      forall e ensures e in SiteEdges(s, offsets, siteAt, lengths) <==> exists v :: v in offsets && OffsetEdge(s, v, siteAt, lengths, e) {
        if OffsetEdge(s, last, siteAt, lengths, e) {
          assert last in offsets;
        }
        if v :| v in offsets && OffsetEdge(s, v, siteAt, lengths, e) {
          if v in init {
            assert e in SiteEdges(s, init, siteAt, lengths);
          }
        }
      }
    }
  }

  /**
   * The offset builder's edges are exactly the edges of some site and some
   * offset of its class; none is a self-loop and each weighs the length of
   * its offset, whichever site the offset resolves to.
   */
  lemma {:induction false} OffsetEdgesMembers(sites: seq<Site>, spec: NeighborSpec, siteAt: Location -> SiteId, lengths: map<Offset, real>)
    requires forall s :: s in sites ==> s.siteClass in spec
    requires CoversSpec(spec, lengths)
    ensures forall e :: e in OffsetEdges(sites, spec, siteAt, lengths) <==>
      exists s, v :: s in sites && v in spec[s.siteClass] && OffsetEdge(s, v, siteAt, lengths, e)
    ensures forall e :: e in OffsetEdges(sites, spec, siteAt, lengths) ==> e.a != e.b
  {
    if sites != [] {
      var init := sites[..|sites| - 1];
      var last := sites[|sites| - 1];
      OffsetEdgesMembers(init, spec, siteAt, lengths);
      SiteEdgesShape(last, spec[last.siteClass], siteAt, lengths);
      assert sites == init + [last];
    }
  }

  /** Site `i` is the first whose class the spec does not list. */
  predicate FirstUnknownClass(sites: seq<Site>, i: int, spec: NeighborSpec) {
    0 <= i < |sites| && sites[i].siteClass !in spec && forall j :: 0 <= j < i ==> sites[j].siteClass in spec
  }

  /** Connects each site to the sites at its class's offset vectors. */
  class StructureNeighborhoodBuilder {
    const spec: NeighborSpec
    /** The length of every offset the spec lists. */
    const distances: map<Offset, real>

    /** Keeps the spec and tabulates the length (`norm`) of all its offsets. */
    constructor (spec: NeighborSpec, norm: Offset -> real)
      ensures this.spec == spec
      ensures distances.Keys == AllOffsets(spec)
      ensures forall v :: v in distances ==> distances[v] == norm(v)
      ensures Valid()
    {
      this.spec := spec;
      distances := map v | v in AllOffsets(spec) :: norm(v);
    }

    ghost predicate Valid() {
      CoversSpec(spec, distances)
    }

    /**
     * Adds one node per site, then for each site the edges to the sites at
     * its offsets. A site class missing from the spec is a configuration
     * error, raised on the first such site.
     */
    method Get(sites: seq<Site>, siteAt: Location -> SiteId) returns (r: Result<Graph, BuildError>)
      requires Valid()
      ensures r.Err? <==> exists i :: 0 <= i < |sites| && sites[i].siteClass !in spec
      ensures r.Err? ==> exists i :: FirstUnknownClass(sites, i, spec) && r.error == UnknownSiteClass(sites[i].siteClass)
      ensures r.Ok? ==> r.value.nodes == Ids(sites) && r.value.edges == OffsetEdges(sites, spec, siteAt, distances)
    {
      var nodes: seq<SiteId> := [];
      for i := 0 to |sites|
        invariant nodes == Ids(sites[..i])
      {
        nodes := nodes + [sites[i].id];
      }
      var graphEdges: seq<Edge> := [];
      for i := 0 to |sites|
        invariant forall j :: 0 <= j < i ==> sites[j].siteClass in spec
        invariant graphEdges == OffsetEdges(sites[..i], spec, siteAt, distances)
      {
        var site := sites[i];
        if site.siteClass !in spec {
          return Err(UnknownSiteClass(site.siteClass));
        }
        var edges := SiteEdgeList(site, spec[site.siteClass], siteAt);
        assert sites[..i + 1][..i] == sites[..i];
        graphEdges := graphEdges + edges;
      }
      assert sites[..|sites|] == sites;
      r := Ok(Graph(nodes, graphEdges));
    }

    /** The local `edges` list of one site: one edge per offset that resolves to another site. */
    method SiteEdgeList(site: Site, offsets: seq<Offset>, siteAt: Location -> SiteId) returns (edges: seq<Edge>)
      requires forall v :: v in offsets ==> v in distances
      ensures edges == SiteEdges(site, offsets, siteAt, distances)
    {
      edges := [];
      for k := 0 to |offsets|
        invariant edges == SiteEdges(site, offsets[..k], siteAt, distances)
      {
        assert offsets[..k + 1][..k] == offsets[..k];
        var nb := siteAt(Shift(site.location, offsets[k]));
        if nb != site.id {
          edges := edges + [Edge(nb, site.id, distances[offsets[k]])];
        }
      }
      assert offsets[..|offsets|] == offsets;
    }
  }
}
