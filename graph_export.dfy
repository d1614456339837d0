/**
 * The reshaping of downloaded records into a graph of nodes and edges
 * (sample_data/reformat_for_nodes.py, with the same code in
 * sample_data/to_single_json.py). Committee-to-committee donations come
 * first, then candidates with their principal committees, then individual
 * donations; every record appends its nodes and edges in input order, and
 * nothing is merged or removed.
 *
 * Reading the three JSON files and writing the two results is not modelled.
 * `uuid.uuid4()` is a supply of ids: the `k`-th id drawn in a run is
 * `newId(k)`.
 */
module GraphExport {
  import opened Values

  /** `{"type": ..., "id": ..., "name": ...}` */
  datatype Node = Node(kind: string, id: Value, name: Value)

  /** `{"source": ..., "quantity": ..., "date": ..., "target": ...}` */
  datatype Edge = Edge(source: Value, quantity: Value, date: Value, target: Value)

  /** A record naming a committee: a principal committee of a candidate,
      the committee an individual gave to, or a contributing committee. */
  datatype CommitteeRef = CommitteeRef(committeeId: Value, name: Value)

  datatype CommitteeDonation =
    CommitteeDonation(committeeId: Value, committeeName: Value, recipientId: Value, recipientName: Value, total: Value)

  datatype CandidateRecord = CandidateRecord(candidateId: Value, name: Value, principalCommittees: seq<CommitteeRef>)

  /** `contributor` is `None` when the key is missing or holds `None`. */
  datatype IndividualDonation = IndividualDonation(committee: CommitteeRef, contributor: Option<CommitteeRef>,
                                                   contributorId: Value, contributorName: Value,
                                                   amount: Value, loadDate: Value)

  /** The lists built so far and how many ids have been drawn. */
  datatype Graph = Graph(nodes: seq<Node>, edges: seq<Edge>, drawn: nat)

  const Empty := Graph([], [], 0)

  /** `str(uuid.uuid4()) if v is None else v` */
  function IdOrFresh(v: Value, newId: nat -> string, drawn: nat): (r: (Value, nat))
    ensures v != Null ==> r == (v, drawn)
    ensures v == Null ==> r == (Str(newId(drawn)), drawn + 1)
  {
    if v == Null then (Str(newId(drawn)), drawn + 1) else (v, drawn)
  }

  /** An id taken verbatim when the record has one, and otherwise one of
      the ids drawn between `lo` and `hi`. */
  ghost predicate VerbatimOrFresh(id: Value, v: Value, newId: nat -> string, lo: nat, hi: nat) {
    if v != Null then id == v else exists m :: lo <= m < hi && id == Str(newId(m))
  }

  /** `G` is `g` with nodes and edges appended and possibly more ids drawn. */
  predicate Extends(g: Graph, G: Graph) {
    g.nodes <= G.nodes && g.edges <= G.edges && g.drawn <= G.drawn
  }

  // ---------------------------------------------------------------------
  // One record

  /** The body of the first loop (sample_data/reformat_for_nodes.py:35-70). */
  function AddCommitteeDonation(g: Graph, d: CommitteeDonation, newId: nat -> string): Graph {
    var (source, k1) := IdOrFresh(d.committeeId, newId, g.drawn);
    var (target, k2) := IdOrFresh(d.recipientId, newId, k1);
    Graph(g.nodes + [Node("committee", source, d.committeeName), Node("committee", target, d.recipientName)],
          g.edges + [Edge(source, d.total, Null, target)], k2)
  }

  /** The body of the inner loop (sample_data/reformat_for_nodes.py:86-106). */
  function AddPrincipal(g: Graph, candidateId: Value, p: CommitteeRef, newId: nat -> string): Graph {
    var (id, k) := IdOrFresh(p.committeeId, newId, g.drawn);
    Graph(g.nodes + [Node("committee", id, p.name)], g.edges + [Edge(id, Null, Null, candidateId)], k)
  }

  /** The first `|ps|` passes of the inner loop. */
  function AddPrincipals(g: Graph, candidateId: Value, ps: seq<CommitteeRef>, newId: nat -> string): Graph {
    if ps == [] then g
    else AddPrincipal(AddPrincipals(g, candidateId, ps[..|ps| - 1], newId), candidateId, ps[|ps| - 1], newId)
  }

  /** The candidate node alone (sample_data/reformat_for_nodes.py:73-84). */
  function CandidateNode(g: Graph, c: CandidateRecord, newId: nat -> string): Graph {
    var (id, k) := IdOrFresh(c.candidateId, newId, g.drawn);
    Graph(g.nodes + [Node("candidate", id, c.name)], g.edges, k)
  }

  /** The body of the second loop (sample_data/reformat_for_nodes.py:72-106). */
  function AddCandidate(g: Graph, c: CandidateRecord, newId: nat -> string): Graph {
    var (id, _) := IdOrFresh(c.candidateId, newId, g.drawn);
    AddPrincipals(CandidateNode(g, c, newId), id, c.principalCommittees, newId)
  }

  /** The contributor's type, id and name, and the ids drawn after them
      (sample_data/reformat_for_nodes.py:116-130): a contributing committee
      is taken as it is, with no fallback for a missing id. */
  function Contributor(d: IndividualDonation, newId: nat -> string, drawn: nat): (r: (string, Value, Value, nat))
    ensures d.contributor.Some? ==> r == ("committee", d.contributor.value.committeeId, d.contributor.value.name, drawn)
    ensures d.contributor.None? ==> r.0 == "individual" && r.2 == d.contributorName
    ensures d.contributor.None? ==> (r.1, r.3) == IdOrFresh(d.contributorId, newId, drawn)
  {
    if d.contributor.Some? then ("committee", d.contributor.value.committeeId, d.contributor.value.name, drawn)
    else
      var (id, k) := IdOrFresh(d.contributorId, newId, drawn);
      ("individual", id, d.contributorName, k)
  }

  /** The body of the third loop (sample_data/reformat_for_nodes.py:108-155):
      the committee's id is drawn before the contributor's. */
  function AddIndividualDonation(g: Graph, d: IndividualDonation, newId: nat -> string): Graph {
    var (committeeId, k1) := IdOrFresh(d.committee.committeeId, newId, g.drawn);
    var (kind, contributorId, contributorName, k2) := Contributor(d, newId, k1);
    Graph(g.nodes + [Node(kind, contributorId, contributorName), Node("committee", committeeId, d.committee.name)],
          g.edges + [Edge(contributorId, d.amount, d.loadDate, committeeId)], k2)
  }

  // ---------------------------------------------------------------------
  // The three loops

  function AddCommitteeDonations(g: Graph, ds: seq<CommitteeDonation>, newId: nat -> string): Graph {
    if ds == [] then g else AddCommitteeDonation(AddCommitteeDonations(g, ds[..|ds| - 1], newId), ds[|ds| - 1], newId)
  }

  function AddCandidates(g: Graph, cs: seq<CandidateRecord>, newId: nat -> string): Graph {
    if cs == [] then g else AddCandidate(AddCandidates(g, cs[..|cs| - 1], newId), cs[|cs| - 1], newId)
  }

  function AddIndividualDonations(g: Graph, ds: seq<IndividualDonation>, newId: nat -> string): Graph {
    if ds == [] then g else AddIndividualDonation(AddIndividualDonations(g, ds[..|ds| - 1], newId), ds[|ds| - 1], newId)
  }

  /** The graph `main` builds before writing it out. */
  function Export(committeeToCommittee: seq<CommitteeDonation>, candidates: seq<CandidateRecord>,
                  individualToCommittee: seq<IndividualDonation>, newId: nat -> string): Graph
  {
    var g1 := AddCommitteeDonations(Empty, committeeToCommittee, newId);
    var g2 := AddCandidates(g1, candidates, newId);
    AddIndividualDonations(g2, individualToCommittee, newId)
  }

  /** `main` without its file reads and writes. */
  method Reformat(committeeToCommittee: seq<CommitteeDonation>, candidates: seq<CandidateRecord>,
                  individualToCommittee: seq<IndividualDonation>, newId: nat -> string)
    returns (nodes: seq<Node>, edges: seq<Edge>)
    ensures var g := Export(committeeToCommittee, candidates, individualToCommittee, newId);
      nodes == g.nodes && edges == g.edges
  {
    nodes, edges := [], [];
    var drawn := 0;
    for i := 0 to |committeeToCommittee|
      invariant Graph(nodes, edges, drawn) == AddCommitteeDonations(Empty, committeeToCommittee[..i], newId)
    {
      var d := committeeToCommittee[i];
      var source, target;
      var sourceDrawn := IdOrFresh(d.committeeId, newId, drawn);
      source, drawn := sourceDrawn.0, sourceDrawn.1;
      var targetDrawn := IdOrFresh(d.recipientId, newId, drawn);
      target, drawn := targetDrawn.0, targetDrawn.1;
      nodes := nodes + [Node("committee", source, d.committeeName)];
      nodes := nodes + [Node("committee", target, d.recipientName)];
      edges := edges + [Edge(source, d.total, Null, target)];
      assert committeeToCommittee[..i + 1][..i] == committeeToCommittee[..i];
    }
    assert committeeToCommittee[..|committeeToCommittee|] == committeeToCommittee;
    ghost var g1 := Graph(nodes, edges, drawn);
    for i := 0 to |candidates|
      invariant Graph(nodes, edges, drawn) == AddCandidates(g1, candidates[..i], newId)
    {
      var c := candidates[i];
      ghost var before := Graph(nodes, edges, drawn);
      var candidateId;
      var candidateIdDrawn := IdOrFresh(c.candidateId, newId, drawn);
      candidateId, drawn := candidateIdDrawn.0, candidateIdDrawn.1;
      nodes := nodes + [Node("candidate", candidateId, c.name)];
      ghost var g' := Graph(nodes, edges, drawn);
      assert g' == CandidateNode(before, c, newId);
      var ps := c.principalCommittees;
      for j := 0 to |ps|
        invariant Graph(nodes, edges, drawn) == AddPrincipals(g', candidateId, ps[..j], newId)
      {
        var p := ps[j];
        var id;
        var idDrawn := IdOrFresh(p.committeeId, newId, drawn);
        id, drawn := idDrawn.0, idDrawn.1;
        nodes := nodes + [Node("committee", id, p.name)];
        edges := edges + [Edge(id, Null, Null, candidateId)];
        assert ps[..j + 1][..j] == ps[..j];
      }
      assert ps[..|ps|] == ps;
      assert candidates[..i + 1][..i] == candidates[..i];
    }
    assert candidates[..|candidates|] == candidates;
    ghost var g2 := Graph(nodes, edges, drawn);
    for i := 0 to |individualToCommittee|
      invariant Graph(nodes, edges, drawn) == AddIndividualDonations(g2, individualToCommittee[..i], newId)
    {
      var d := individualToCommittee[i];
      var committeeId;
      var committeeIdDrawn := IdOrFresh(d.committee.committeeId, newId, drawn);
      committeeId, drawn := committeeIdDrawn.0, committeeIdDrawn.1;
      var kind, contributorId, contributorName;
      if d.contributor.Some? {
        kind, contributorId, contributorName := "committee", d.contributor.value.committeeId, d.contributor.value.name;
      } else {
        kind := "individual";
        var contributorIdDrawn := IdOrFresh(d.contributorId, newId, drawn);
        contributorId, drawn := contributorIdDrawn.0, contributorIdDrawn.1;
        contributorName := d.contributorName;
      }
      nodes := nodes + [Node(kind, contributorId, contributorName)];
      nodes := nodes + [Node("committee", committeeId, d.committee.name)];
      edges := edges + [Edge(contributorId, d.amount, d.loadDate, committeeId)];
      assert individualToCommittee[..i + 1][..i] == individualToCommittee[..i];
    }
    assert individualToCommittee[..|individualToCommittee|] == individualToCommittee;
  }

  // ---------------------------------------------------------------------
  // Counts

  /** `sum(len(c["principal_committees"]) for c in cs)` */
  function PrincipalTotal(cs: seq<CandidateRecord>): nat {
    if cs == [] then 0 else PrincipalTotal(cs[..|cs| - 1]) + |cs[|cs| - 1].principalCommittees|
  }

  lemma {:induction false} CommitteeDonationsGrow(g: Graph, ds: seq<CommitteeDonation>, newId: nat -> string)
    ensures var G := AddCommitteeDonations(g, ds, newId);
      Extends(g, G) && |G.nodes| == |g.nodes| + 2 * |ds| && |G.edges| == |g.edges| + |ds|
  {
    if ds != [] {
      CommitteeDonationsGrow(g, ds[..|ds| - 1], newId);
    }
  }

  lemma {:induction false} PrincipalsGrow(g: Graph, candidateId: Value, ps: seq<CommitteeRef>, newId: nat -> string)
    ensures var G := AddPrincipals(g, candidateId, ps, newId);
      Extends(g, G) && |G.nodes| == |g.nodes| + |ps| && |G.edges| == |g.edges| + |ps|
  {
    if ps != [] {
      PrincipalsGrow(g, candidateId, ps[..|ps| - 1], newId);
    }
  }

  lemma CandidateGrows(g: Graph, c: CandidateRecord, newId: nat -> string)
    ensures var G := AddCandidate(g, c, newId);
      && Extends(g, G)
      && |G.nodes| == |g.nodes| + 1 + |c.principalCommittees|
      && |G.edges| == |g.edges| + |c.principalCommittees|
  {
    PrincipalsGrow(CandidateNode(g, c, newId), IdOrFresh(c.candidateId, newId, g.drawn).0, c.principalCommittees, newId);
  }

  lemma {:induction false} CandidatesGrow(g: Graph, cs: seq<CandidateRecord>, newId: nat -> string)
    ensures var G := AddCandidates(g, cs, newId);
      && Extends(g, G)
      && |G.nodes| == |g.nodes| + |cs| + PrincipalTotal(cs)
      && |G.edges| == |g.edges| + PrincipalTotal(cs)
  {
    if cs != [] {
      CandidatesGrow(g, cs[..|cs| - 1], newId);
      CandidateGrows(AddCandidates(g, cs[..|cs| - 1], newId), cs[|cs| - 1], newId);
    }
  }

  lemma {:induction false} IndividualDonationsGrow(g: Graph, ds: seq<IndividualDonation>, newId: nat -> string)
    ensures var G := AddIndividualDonations(g, ds, newId);
      Extends(g, G) && |G.nodes| == |g.nodes| + 2 * |ds| && |G.edges| == |g.edges| + |ds|
  {
    if ds != [] {
      IndividualDonationsGrow(g, ds[..|ds| - 1], newId);
    }
  }

  /** One edge per donation and per principal committee; two nodes per
      donation, one per candidate and one per principal committee. */
  lemma ExportCounts(committeeToCommittee: seq<CommitteeDonation>, candidates: seq<CandidateRecord>,
                     individualToCommittee: seq<IndividualDonation>, newId: nat -> string)
    ensures var G := Export(committeeToCommittee, candidates, individualToCommittee, newId);
      && |G.edges| == |committeeToCommittee| + PrincipalTotal(candidates) + |individualToCommittee|
      && |G.nodes| == 2 * |committeeToCommittee| + |candidates| + PrincipalTotal(candidates)
                      + 2 * |individualToCommittee|
  {
    var g1 := AddCommitteeDonations(Empty, committeeToCommittee, newId);
    var g2 := AddCandidates(g1, candidates, newId);
    CommitteeDonationsGrow(Empty, committeeToCommittee, newId);
    CandidatesGrow(g1, candidates, newId);
    IndividualDonationsGrow(g2, individualToCommittee, newId);
  }

  // ---------------------------------------------------------------------
  // Node types

  predicate KnownKinds(nodes: seq<Node>) {
    forall i :: 0 <= i < |nodes| ==> nodes[i].kind in {"candidate", "committee", "individual"}
  }

  lemma KnownKindsAppend(a: seq<Node>, b: seq<Node>)
    requires KnownKinds(a) && KnownKinds(b)
    ensures KnownKinds(a + b)
  {
  }

  lemma {:induction false} PrincipalsKinds(g: Graph, candidateId: Value, ps: seq<CommitteeRef>, newId: nat -> string)
    requires KnownKinds(g.nodes)
    ensures KnownKinds(AddPrincipals(g, candidateId, ps, newId).nodes)
  {
    if ps != [] {
      var h := AddPrincipals(g, candidateId, ps[..|ps| - 1], newId);
      PrincipalsKinds(g, candidateId, ps[..|ps| - 1], newId);
      KnownKindsAppend(h.nodes, [Node("committee", IdOrFresh(ps[|ps| - 1].committeeId, newId, h.drawn).0,
                                      ps[|ps| - 1].name)]);
    }
  }

  lemma {:induction false} CommitteeDonationsKinds(g: Graph, ds: seq<CommitteeDonation>, newId: nat -> string)
    requires KnownKinds(g.nodes)
    ensures KnownKinds(AddCommitteeDonations(g, ds, newId).nodes)
  {
    if ds != [] {
      CommitteeDonationsKinds(g, ds[..|ds| - 1], newId);
      var h := AddCommitteeDonations(g, ds[..|ds| - 1], newId);
      var H := AddCommitteeDonation(h, ds[|ds| - 1], newId);
      KnownKindsAppend(h.nodes, H.nodes[|h.nodes|..]);
      assert H.nodes == h.nodes + H.nodes[|h.nodes|..];
    }
  }

  lemma {:induction false} CandidatesKinds(g: Graph, cs: seq<CandidateRecord>, newId: nat -> string)
    requires KnownKinds(g.nodes)
    ensures KnownKinds(AddCandidates(g, cs, newId).nodes)
  {
    if cs != [] {
      CandidatesKinds(g, cs[..|cs| - 1], newId);
      var h := AddCandidates(g, cs[..|cs| - 1], newId);
      var h' := CandidateNode(h, cs[|cs| - 1], newId);
      KnownKindsAppend(h.nodes, h'.nodes[|h.nodes|..]);
      assert h'.nodes == h.nodes + h'.nodes[|h.nodes|..];
      PrincipalsKinds(h', IdOrFresh(cs[|cs| - 1].candidateId, newId, h.drawn).0, cs[|cs| - 1].principalCommittees, newId);
    }
  }

  lemma {:induction false} IndividualDonationsKinds(g: Graph, ds: seq<IndividualDonation>, newId: nat -> string)
    requires KnownKinds(g.nodes)
    ensures KnownKinds(AddIndividualDonations(g, ds, newId).nodes)
  {
    if ds != [] {
      IndividualDonationsKinds(g, ds[..|ds| - 1], newId);
      var h := AddIndividualDonations(g, ds[..|ds| - 1], newId);
      var H := AddIndividualDonation(h, ds[|ds| - 1], newId);
      KnownKindsAppend(h.nodes, H.nodes[|h.nodes|..]);
      assert H.nodes == h.nodes + H.nodes[|h.nodes|..];
    }
  }

  /** Every node is a candidate, a committee or an individual. */
  lemma ExportKinds(committeeToCommittee: seq<CommitteeDonation>, candidates: seq<CandidateRecord>,
                    individualToCommittee: seq<IndividualDonation>, newId: nat -> string)
    ensures KnownKinds(Export(committeeToCommittee, candidates, individualToCommittee, newId).nodes)
  {
    var g1 := AddCommitteeDonations(Empty, committeeToCommittee, newId);
    var g2 := AddCandidates(g1, candidates, newId);
    CommitteeDonationsKinds(Empty, committeeToCommittee, newId);
    CandidatesKinds(g1, candidates, newId);
    IndividualDonationsKinds(g2, individualToCommittee, newId);
  }

  // ---------------------------------------------------------------------
  // What each record leaves in the lists

  lemma VerbatimOrFreshWider(id: Value, v: Value, newId: nat -> string, lo: nat, hi: nat, lo': nat, hi': nat)
    requires VerbatimOrFresh(id, v, newId, lo, hi) && lo' <= lo && hi <= hi'
    ensures VerbatimOrFresh(id, v, newId, lo', hi')
  {
    if v == Null {
      var m :| lo <= m < hi && id == Str(newId(m));
    }
  }

  /** A committee-to-committee donation at node `n` and edge `e`: its source
      and its recipient, each a committee node, and an edge between them
      carrying the total and no date. */
  ghost predicate DonationShown(G: Graph, n: nat, e: nat, d: CommitteeDonation, newId: nat -> string, lo: nat, hi: nat) {
    && n + 1 < |G.nodes| && e < |G.edges|
    && G.nodes[n] == Node("committee", G.edges[e].source, d.committeeName)
    && G.nodes[n + 1] == Node("committee", G.edges[e].target, d.recipientName)
    && G.edges[e].quantity == d.total && G.edges[e].date == Null
    && VerbatimOrFresh(G.edges[e].source, d.committeeId, newId, lo, hi)
    && VerbatimOrFresh(G.edges[e].target, d.recipientId, newId, lo, hi)
  }

  lemma DonationShownKept(h: Graph, H: Graph, n: nat, e: nat, d: CommitteeDonation, newId: nat -> string,
                          lo: nat, hi: nat, lo': nat)
    requires DonationShown(h, n, e, d, newId, lo, hi) && Extends(h, H) && lo' <= lo && hi <= H.drawn
    ensures DonationShown(H, n, e, d, newId, lo', H.drawn)
  {
    assert H.nodes[n] == h.nodes[n] && H.nodes[n + 1] == h.nodes[n + 1] && H.edges[e] == h.edges[e];
    VerbatimOrFreshWider(h.edges[e].source, d.committeeId, newId, lo, hi, lo', H.drawn);
    VerbatimOrFreshWider(h.edges[e].target, d.recipientId, newId, lo, hi, lo', H.drawn);
  }

  lemma CommitteeDonationShown(g: Graph, d: CommitteeDonation, newId: nat -> string)
    ensures var G := AddCommitteeDonation(g, d, newId);
      DonationShown(G, |g.nodes|, |g.edges|, d, newId, g.drawn, G.drawn)
  {
    var G := AddCommitteeDonation(g, d, newId);
    var k1 := IdOrFresh(d.committeeId, newId, g.drawn).1;
    if d.committeeId == Null {
      assert G.edges[|g.edges|].source == Str(newId(g.drawn));
    }
    if d.recipientId == Null {
      assert G.edges[|g.edges|].target == Str(newId(k1));
    }
  }

  /** The `j`-th committee-to-committee donation is shown at nodes `2j` and
      `2j + 1` and edge `j` past where the loop started, in input order. */
  lemma {:induction false} CommitteeDonationsShown(g: Graph, ds: seq<CommitteeDonation>, newId: nat -> string, j: nat)
    requires j < |ds|
    ensures var G := AddCommitteeDonations(g, ds, newId);
      DonationShown(G, |g.nodes| + 2 * j, |g.edges| + j, ds[j], newId, g.drawn, G.drawn)
  {
    var h := AddCommitteeDonations(g, ds[..|ds| - 1], newId);
    var G := AddCommitteeDonation(h, ds[|ds| - 1], newId);
    CommitteeDonationsGrow(g, ds[..|ds| - 1], newId);
    CommitteeDonationShown(h, ds[|ds| - 1], newId);
    if j == |ds| - 1 {
      DonationShownKept(G, G, |g.nodes| + 2 * j, |g.edges| + j, ds[j], newId, h.drawn, G.drawn, g.drawn);
    } else {
      CommitteeDonationsShown(g, ds[..|ds| - 1], newId, j);
      DonationShownKept(h, G, |g.nodes| + 2 * j, |g.edges| + j, ds[j], newId, g.drawn, h.drawn, g.drawn);
    }
  }

  /** An individual donation at node `n` and edge `e`: the contributor, then
      the receiving committee, and an edge from the first to the second
      carrying the amount and the load date. A contributing committee keeps
      its id as it is, even a missing one. */
  ghost predicate IndividualShown(G: Graph, n: nat, e: nat, d: IndividualDonation, newId: nat -> string,
                                  lo: nat, hi: nat) {
    && n + 1 < |G.nodes| && e < |G.edges|
    && G.nodes[n].id == G.edges[e].source
    && (d.contributor.Some? ==> G.nodes[n] == Node("committee", d.contributor.value.committeeId, d.contributor.value.name))
    && (d.contributor.None? ==> G.nodes[n].kind == "individual" && G.nodes[n].name == d.contributorName)
    && (d.contributor.None? ==> VerbatimOrFresh(G.nodes[n].id, d.contributorId, newId, lo, hi))
    && G.nodes[n + 1] == Node("committee", G.edges[e].target, d.committee.name)
    && VerbatimOrFresh(G.edges[e].target, d.committee.committeeId, newId, lo, hi)
    && G.edges[e].quantity == d.amount && G.edges[e].date == d.loadDate
  }

  lemma IndividualShownKept(h: Graph, H: Graph, n: nat, e: nat, d: IndividualDonation, newId: nat -> string,
                            lo: nat, hi: nat, lo': nat)
    requires IndividualShown(h, n, e, d, newId, lo, hi) && Extends(h, H) && lo' <= lo && hi <= H.drawn
    ensures IndividualShown(H, n, e, d, newId, lo', H.drawn)
  {
    assert H.nodes[n] == h.nodes[n] && H.nodes[n + 1] == h.nodes[n + 1] && H.edges[e] == h.edges[e];
    if d.contributor.None? {
      VerbatimOrFreshWider(h.nodes[n].id, d.contributorId, newId, lo, hi, lo', H.drawn);
    }
    VerbatimOrFreshWider(h.edges[e].target, d.committee.committeeId, newId, lo, hi, lo', H.drawn);
  }

  lemma IndividualDonationShown(g: Graph, d: IndividualDonation, newId: nat -> string)
    ensures var G := AddIndividualDonation(g, d, newId);
      IndividualShown(G, |g.nodes|, |g.edges|, d, newId, g.drawn, G.drawn)
  {
    var G := AddIndividualDonation(g, d, newId);
    var k1 := IdOrFresh(d.committee.committeeId, newId, g.drawn).1;
    if d.committee.committeeId == Null {
      assert G.edges[|g.edges|].target == Str(newId(g.drawn));
    }
    if d.contributor.None? && d.contributorId == Null {
      assert G.nodes[|g.nodes|].id == Str(newId(k1));
    }
  }

  /** The `j`-th individual donation is shown at nodes `2j` and `2j + 1` and
      edge `j` past where the loop started, in input order. */
  lemma {:induction false} IndividualDonationsShown(g: Graph, ds: seq<IndividualDonation>, newId: nat -> string, j: nat)
    requires j < |ds|
    ensures var G := AddIndividualDonations(g, ds, newId);
      IndividualShown(G, |g.nodes| + 2 * j, |g.edges| + j, ds[j], newId, g.drawn, G.drawn)
  {
    var h := AddIndividualDonations(g, ds[..|ds| - 1], newId);
    var G := AddIndividualDonation(h, ds[|ds| - 1], newId);
    IndividualDonationsGrow(g, ds[..|ds| - 1], newId);
    IndividualDonationShown(h, ds[|ds| - 1], newId);
    if j == |ds| - 1 {
      IndividualShownKept(G, G, |g.nodes| + 2 * j, |g.edges| + j, ds[j], newId, h.drawn, G.drawn, g.drawn);
    } else {
      IndividualDonationsShown(g, ds[..|ds| - 1], newId, j);
      IndividualShownKept(h, G, |g.nodes| + 2 * j, |g.edges| + j, ds[j], newId, g.drawn, h.drawn, g.drawn);
    }
  }

  /** A principal committee at node `n` and edge `e`: a committee node and
      an edge from it to the candidate, with no quantity and no date. */
  ghost predicate PrincipalShown(G: Graph, n: nat, e: nat, p: CommitteeRef, candidateId: Value, newId: nat -> string,
                                 lo: nat, hi: nat) {
    && n < |G.nodes| && e < |G.edges|
    && G.nodes[n] == Node("committee", G.edges[e].source, p.name)
    && G.edges[e] == Edge(G.edges[e].source, Null, Null, candidateId)
    && VerbatimOrFresh(G.edges[e].source, p.committeeId, newId, lo, hi)
  }

  lemma PrincipalShownKept(h: Graph, H: Graph, n: nat, e: nat, p: CommitteeRef, candidateId: Value,
                           newId: nat -> string, lo: nat, hi: nat, lo': nat)
    requires PrincipalShown(h, n, e, p, candidateId, newId, lo, hi) && Extends(h, H) && lo' <= lo && hi <= H.drawn
    ensures PrincipalShown(H, n, e, p, candidateId, newId, lo', H.drawn)
  {
    assert H.nodes[n] == h.nodes[n] && H.edges[e] == h.edges[e];
    VerbatimOrFreshWider(h.edges[e].source, p.committeeId, newId, lo, hi, lo', H.drawn);
  }

  lemma {:induction false} PrincipalsShown(g: Graph, candidateId: Value, ps: seq<CommitteeRef>, newId: nat -> string,
                                           i: nat)
    requires i < |ps|
    ensures var G := AddPrincipals(g, candidateId, ps, newId);
      PrincipalShown(G, |g.nodes| + i, |g.edges| + i, ps[i], candidateId, newId, g.drawn, G.drawn)
  {
    var h := AddPrincipals(g, candidateId, ps[..|ps| - 1], newId);
    var G := AddPrincipal(h, candidateId, ps[|ps| - 1], newId);
    PrincipalsGrow(g, candidateId, ps[..|ps| - 1], newId);
    if i == |ps| - 1 {
      if ps[i].committeeId == Null {
        assert G.edges[|h.edges|].source == Str(newId(h.drawn));
      }
      PrincipalShownKept(G, G, |g.nodes| + i, |g.edges| + i, ps[i], candidateId, newId, h.drawn, G.drawn, g.drawn);
    } else {
      PrincipalsShown(g, candidateId, ps[..|ps| - 1], newId, i);
      PrincipalShownKept(h, G, |g.nodes| + i, |g.edges| + i, ps[i], candidateId, newId, g.drawn, h.drawn, g.drawn);
    }
  }

  /** A candidate at node `n`, its principal committees at the nodes after
      it and at the edges from `e` on, every edge pointing at the candidate. */
  ghost predicate CandidateShown(G: Graph, n: nat, e: nat, c: CandidateRecord, newId: nat -> string, lo: nat, hi: nat) {
    && n < |G.nodes|
    && G.nodes[n].kind == "candidate" && G.nodes[n].name == c.name
    && VerbatimOrFresh(G.nodes[n].id, c.candidateId, newId, lo, hi)
    && forall i :: 0 <= i < |c.principalCommittees| ==>
         PrincipalShown(G, n + 1 + i, e + i, c.principalCommittees[i], G.nodes[n].id, newId, lo, hi)
  }

  lemma CandidateShownKept(h: Graph, H: Graph, n: nat, e: nat, c: CandidateRecord, newId: nat -> string,
                           lo: nat, hi: nat, lo': nat)
    requires CandidateShown(h, n, e, c, newId, lo, hi) && Extends(h, H) && lo' <= lo && hi <= H.drawn
    ensures CandidateShown(H, n, e, c, newId, lo', H.drawn)
  {
    assert H.nodes[n] == h.nodes[n];
    VerbatimOrFreshWider(h.nodes[n].id, c.candidateId, newId, lo, hi, lo', H.drawn);
    forall i | 0 <= i < |c.principalCommittees|
      ensures PrincipalShown(H, n + 1 + i, e + i, c.principalCommittees[i], H.nodes[n].id, newId, lo', H.drawn)
    {
      PrincipalShownKept(h, H, n + 1 + i, e + i, c.principalCommittees[i], h.nodes[n].id, newId, lo, hi, lo');
    }
  }

  lemma CandidateRecordShown(g: Graph, c: CandidateRecord, newId: nat -> string)
    ensures var G := AddCandidate(g, c, newId);
      CandidateShown(G, |g.nodes|, |g.edges|, c, newId, g.drawn, G.drawn)
  {
    var g' := CandidateNode(g, c, newId);
    var id := IdOrFresh(c.candidateId, newId, g.drawn).0;
    var ps := c.principalCommittees;
    var G := AddPrincipals(g', id, ps, newId);
    PrincipalsGrow(g', id, ps, newId);
    assert G.nodes[|g.nodes|] == g'.nodes[|g.nodes|];
    if c.candidateId == Null {
      assert id == Str(newId(g.drawn));
    }
    VerbatimOrFreshWider(id, c.candidateId, newId, g.drawn, g'.drawn, g.drawn, G.drawn);
    forall i | 0 <= i < |ps|
      ensures PrincipalShown(G, |g.nodes| + 1 + i, |g.edges| + i, ps[i], id, newId, g.drawn, G.drawn)
    {
      PrincipalsShown(g', id, ps, newId, i);
      PrincipalShownKept(G, G, |g.nodes| + 1 + i, |g.edges| + i, ps[i], id, newId, g'.drawn, G.drawn, g.drawn);
    }
  }

  /** The `k`-th candidate comes after the candidates and principal
      committees before it, in input order. */
  lemma {:induction false} CandidatesShown(g: Graph, cs: seq<CandidateRecord>, newId: nat -> string, k: nat,
                                           n: nat, e: nat)
    requires k < |cs| && n == |g.nodes| + k + PrincipalTotal(cs[..k]) && e == |g.edges| + PrincipalTotal(cs[..k])
    ensures CandidateShown(AddCandidates(g, cs, newId), n, e, cs[k], newId, g.drawn, AddCandidates(g, cs, newId).drawn)
  {
    var prefix := cs[..|cs| - 1];
    var h := AddCandidates(g, prefix, newId);
    var G := AddCandidate(h, cs[|cs| - 1], newId);
    assert G == AddCandidates(g, cs, newId);
    CandidatesGrow(g, prefix, newId);
    CandidateGrows(h, cs[|cs| - 1], newId);
    if k == |cs| - 1 {
      assert cs[..k] == prefix;
      CandidateRecordShown(h, cs[k], newId);
      CandidateShownKept(G, G, n, e, cs[k], newId, h.drawn, G.drawn, g.drawn);
    } else {
      assert prefix[..k] == cs[..k];
      CandidatesShown(g, prefix, newId, k, n, e);
      CandidateShownKept(h, G, n, e, cs[k], newId, g.drawn, h.drawn, g.drawn);
    }
  }

  // ---------------------------------------------------------------------
  // The whole export

  // Where everything lands in the export: the committee-to-committee
  // donations first, then each candidate followed by its principal
  // committees, then the individual donations, each group in input order;
  // every edge links the nodes appended with it, and every id is the
  // record's own or one drawn while building the export.

  /** The `j`-th committee-to-committee donation: nodes `2j` and `2j + 1`,
      edge `j`. */
  lemma ExportShowsCommitteeDonation(committeeToCommittee: seq<CommitteeDonation>, candidates: seq<CandidateRecord>,
                                     individualToCommittee: seq<IndividualDonation>, newId: nat -> string, j: nat)
    requires j < |committeeToCommittee|
    ensures var G := Export(committeeToCommittee, candidates, individualToCommittee, newId);
      DonationShown(G, 2 * j, j, committeeToCommittee[j], newId, 0, G.drawn)
  {
    var g1 := AddCommitteeDonations(Empty, committeeToCommittee, newId);
    var g2 := AddCandidates(g1, candidates, newId);
    var G := AddIndividualDonations(g2, individualToCommittee, newId);
    CandidatesGrow(g1, candidates, newId);
    IndividualDonationsGrow(g2, individualToCommittee, newId);
    CommitteeDonationsShown(Empty, committeeToCommittee, newId, j);
    DonationShownKept(g1, G, 2 * j, j, committeeToCommittee[j], newId, 0, g1.drawn, 0);
  }

  /** The `k`-th candidate: after the donations, the candidates before it
      and their principal committees. */
  lemma ExportShowsCandidate(committeeToCommittee: seq<CommitteeDonation>, candidates: seq<CandidateRecord>,
                             individualToCommittee: seq<IndividualDonation>, newId: nat -> string, k: nat,
                             n: nat, e: nat)
    requires k < |candidates|
    requires n == 2 * |committeeToCommittee| + k + PrincipalTotal(candidates[..k])
    requires e == |committeeToCommittee| + PrincipalTotal(candidates[..k])
    ensures var G := Export(committeeToCommittee, candidates, individualToCommittee, newId);
      CandidateShown(G, n, e, candidates[k], newId, 0, G.drawn)
  {
    var g1 := AddCommitteeDonations(Empty, committeeToCommittee, newId);
    var g2 := AddCandidates(g1, candidates, newId);
    var G := AddIndividualDonations(g2, individualToCommittee, newId);
    CommitteeDonationsGrow(Empty, committeeToCommittee, newId);
    IndividualDonationsGrow(g2, individualToCommittee, newId);
    CandidatesShown(g1, candidates, newId, k, n, e);
    CandidateShownKept(g2, G, n, e, candidates[k], newId, g1.drawn, g2.drawn, 0);
  }

  /** The `j`-th individual donation: right after everything the first two
      groups contribute (whose size `ExportCounts` gives, with no individual
      donations). */
  lemma ExportShowsIndividualDonation(committeeToCommittee: seq<CommitteeDonation>, candidates: seq<CandidateRecord>,
                                      individualToCommittee: seq<IndividualDonation>, newId: nat -> string, j: nat)
    requires j < |individualToCommittee|
    ensures var G := Export(committeeToCommittee, candidates, individualToCommittee, newId);
      var before := Export(committeeToCommittee, candidates, [], newId);
      IndividualShown(G, |before.nodes| + 2 * j, |before.edges| + j, individualToCommittee[j], newId, 0, G.drawn)
  {
    var g2 := Export(committeeToCommittee, candidates, [], newId);
    var G := AddIndividualDonations(g2, individualToCommittee, newId);
    IndividualDonationsShown(g2, individualToCommittee, newId, j);
    IndividualShownKept(G, G, |g2.nodes| + 2 * j, |g2.edges| + j, individualToCommittee[j], newId, g2.drawn, G.drawn, 0);
  }

  /** Nothing is merged: the same donation listed twice gives its two
      committee nodes and its edge twice over. */
  lemma RepeatsKept(d: CommitteeDonation, newId: nat -> string)
    requires d.committeeId != Null && d.recipientId != Null
    ensures var G := Export([d, d], [], [], newId);
      && |G.nodes| == 4 && |G.edges| == 2
      && G.nodes[2..] == G.nodes[..2] && G.edges[1] == G.edges[0]
  {
    var g1 := AddCommitteeDonation(Empty, d, newId);
    assert [d, d][..1] == [d];
    assert AddCommitteeDonations(Empty, [d], newId) == g1;
  }
}
