/**
 * The toy reaction engine of the main screen: clone the reactant, then
 * rewrite every bond that has order 2 according to the reagent's name.
 */
module Reactions {
  import opened Wrappers
  import opened Graph

  /** A reagent: a display name, which is also the dispatch key, and an informational label. */
  datatype Reagent = Reagent(name: string, reactionType: string)

  const Hydrogen: string := "H₂ (Hydrogen)"
  const Bromine: string := "Br₂ (Bromine)"
  const Permanganate: string := "KMnO₄ (Potassium permanganate)"

  /** The reagents the main screen offers, in menu order. */
  const Catalog: seq<Reagent> := [
    Reagent(Hydrogen, "Hydrogenation"),
    Reagent(Bromine, "Bromination"),
    Reagent(Permanganate, "Dihydroxylation")
  ]

  /**
   * Each reagent on offer selects its own rule: the three names are the
   * three dispatch literals, in menu order.
   */
  lemma CatalogDispatch()
    ensures |Catalog| == 3
    ensures Catalog[0].name == Hydrogen && Catalog[1].name == Bromine && Catalog[2].name == Permanganate
    ensures Hydrogen != Bromine && Bromine != Permanganate && Hydrogen != Permanganate
  {
  }

  /** The positions, among the first n bonds, of those whose weight is 2.0, in order. */
  function DoubleBondsPrefix(bonds: seq<Bond>, n: nat): (r: seq<nat>)
    requires n <= |bonds|
    ensures forall j :: 0 <= j < |r| ==> r[j] < n && bonds[r[j]].order == 2
    ensures forall j, j' :: 0 <= j < j' < |r| ==> r[j] < r[j']
    ensures forall k :: 0 <= k < n && bonds[k].order == 2 ==> k in r
  {
    if n == 0 then []
    else
      var r := DoubleBondsPrefix(bonds, n - 1);
      if bonds[n - 1].Weight() == 2.0 then r + [n - 1] else r
  }

  /**
   * The snapshot every rule iterates: exactly the bonds of order 2, in
   * insertion order, each once.
   */
  function DoubleBonds(bonds: seq<Bond>): (r: seq<nat>)
    ensures forall j :: 0 <= j < |r| ==> r[j] < |bonds| && bonds[r[j]].order == 2
    ensures forall j, j' :: 0 <= j < j' < |r| ==> r[j] < r[j']
    ensures forall k :: 0 <= k < |bonds| && bonds[k].order == 2 ==> k in r
  {
    DoubleBondsPrefix(bonds, |bonds|)
  }

  /** Bonds with the same orders give the same snapshot. */
  lemma {:induction false} DoubleBondsSameOrders(b1: seq<Bond>, b2: seq<Bond>, n: nat)
    requires |b1| == |b2| && n <= |b1|
    requires forall k :: 0 <= k < |b1| ==> b1[k].order == b2[k].order
    ensures DoubleBondsPrefix(b1, n) == DoubleBondsPrefix(b2, n)
  {
    if n > 0 {
      DoubleBondsSameOrders(b1, b2, n - 1);
    }
  }

  /** Every position in ks is a bond of s. */
  ghost predicate BondPositions(s: Structure, ks: seq<nat>) {
    forall j :: 0 <= j < |ks| ==> ks[j] < |s.bonds|
  }

  /** t has the atoms and bonds of s, possibly more, with the same endpoints on the old bonds. */
  ghost predicate Extends(s: Structure, t: Structure) {
    && |s.atoms| <= |t.atoms|
    && |s.bonds| <= |t.bonds|
    && forall k :: 0 <= k < |s.bonds| ==> t.bonds[k].source == s.bonds[k].source && t.bonds[k].target == s.bonds[k].target
  }

  function AddHydrogen(a: Atom): Atom {
    a.(implicitHydrogens := a.implicitHydrogens + 1)
  }

  /** One iteration of `applyHydrogenation`, on the bond at position k. */
  function HydrogenateAt(s: Structure, k: nat): (r: Structure)
    requires s.Closed() && k < |s.bonds|
    ensures r.Closed() && Extends(s, r) && |r.atoms| == |s.atoms| && |r.bonds| == |s.bonds|
  {
    var b := s.bonds[k];
    var atoms1 := s.atoms[b.source := AddHydrogen(s.atoms[b.source])];
    var atoms2 := atoms1[b.target := AddHydrogen(atoms1[b.target])];
    Structure(atoms2, s.bonds[k := b.(order := 1)])
  }

  /** `applyHydrogenation`'s loop over the snapshot ks. */
  function HydrogenateAll(s: Structure, ks: seq<nat>): (r: Structure)
    requires s.Closed() && BondPositions(s, ks)
    ensures r.Closed() && Extends(s, r) && |r.atoms| == |s.atoms| && |r.bonds| == |s.bonds|
    decreases |ks|
  {
    if ks == [] then s else HydrogenateAll(HydrogenateAt(s, ks[0]), ks[1..])
  }

  function Hydrogenated(s: Structure): Structure
    requires s.Closed()
  {
    HydrogenateAll(s, DoubleBonds(s.bonds))
  }

  /** The atom a substitution rule places next to carbon c. */
  function Substituent(element: string, c: Atom, hydrogens: int): Atom {
    Atom(element, c.x + 20.0, c.y + 20.0, c.x3d + 0.5, c.y3d + 0.5, c.z3d, hydrogens)
  }

  /** a is an atom of the given element placed at c's position offset by (+20, +20) and (+0.5, +0.5, +0). */
  predicate PlacedNextTo(a: Atom, c: Atom, element: string, hydrogens: int) {
    && a.element == element
    && a.x == c.x + 20.0 && a.y == c.y + 20.0
    && a.x3d == c.x3d + 0.5 && a.y3d == c.y3d + 0.5 && a.z3d == c.z3d
    && a.implicitHydrogens == hydrogens
  }

  /** One iteration of `applyBromination` or `applyDihydroxylation`, on the bond at position k. */
  function AttachAt(s: Structure, k: nat, element: string, hydrogens: int): (r: Structure)
    requires s.Closed() && k < |s.bonds|
    ensures r.Closed() && Extends(s, r)
  {
    var b := s.bonds[k];
    var n := |s.atoms|;
    Structure(
      s.atoms + [Substituent(element, s.atoms[b.source], hydrogens), Substituent(element, s.atoms[b.target], hydrogens)],
      s.bonds[k := b.(order := 1)] + [Bond(b.source, n, 1), Bond(b.target, n + 1, 1)])
  }

  /** The loop of `applyBromination` or `applyDihydroxylation` over the snapshot ks. */
  function AttachAll(s: Structure, ks: seq<nat>, element: string, hydrogens: int): (r: Structure)
    requires s.Closed() && BondPositions(s, ks)
    ensures r.Closed() && Extends(s, r)
    decreases |ks|
  {
    if ks == [] then s else AttachAll(AttachAt(s, ks[0], element, hydrogens), ks[1..], element, hydrogens)
  }

  function Brominated(s: Structure): Structure
    requires s.Closed()
  {
    AttachAll(s, DoubleBonds(s.bonds), "Br", 0)
  }

  function Dihydroxylated(s: Structure): Structure
    requires s.Closed()
  {
    AttachAll(s, DoubleBonds(s.bonds), "O", 1)
  }

  /** The rule `executeReaction` applies to the clone for a reagent name. */
  function Transform(s: Structure, name: string): Structure
    requires s.Closed()
  {
    if name == Hydrogen then Hydrogenated(s)
    else if name == Bromine then Brominated(s)
    else if name == Permanganate then Dihydroxylated(s)
    else s
  }

  /** `executeReaction`: None where `clone` throws. */
  function Reaction(s: Structure, name: string): Option<Structure> {
    CloneShape(s);
    match CloneOf(s)
    case None => None
    case Some(c) => Some(Transform(c, name))
  }

  /* ---------------- Hydrogenation ---------------- */

  /** How many endpoints of the bonds at positions ks are the atom at position i (a self-loop counts twice). */
  function EndpointHits(bonds: seq<Bond>, ks: seq<nat>, i: nat): nat
    requires forall j :: 0 <= j < |ks| ==> ks[j] < |bonds|
  {
    if ks == [] then 0
    else
      (if bonds[ks[0]].source == i then 1 else 0)
      + (if bonds[ks[0]].target == i then 1 else 0)
      + EndpointHits(bonds, ks[1..], i)
  }

  lemma {:induction false} EndpointHitsEndpointsOnly(b1: seq<Bond>, b2: seq<Bond>, ks: seq<nat>, i: nat)
    requires |b1| == |b2| && forall j :: 0 <= j < |ks| ==> ks[j] < |b1|
    requires forall k :: 0 <= k < |b1| ==> b1[k].source == b2[k].source && b1[k].target == b2[k].target
    ensures EndpointHits(b1, ks, i) == EndpointHits(b2, ks, i)
  {
    if ks != [] {
      EndpointHitsEndpointsOnly(b1, b2, ks[1..], i);
    }
  }

  lemma {:induction false} HydrogenateAllEffect(s: Structure, ks: seq<nat>, i: nat, k: nat)
    requires s.Closed() && BondPositions(s, ks)
    ensures i < |s.atoms| ==>
      HydrogenateAll(s, ks).atoms[i] == s.atoms[i].(implicitHydrogens := s.atoms[i].implicitHydrogens + EndpointHits(s.bonds, ks, i))
    ensures k < |s.bonds| ==>
      HydrogenateAll(s, ks).bonds[k] == if k in ks then s.bonds[k].(order := 1) else s.bonds[k]
    decreases |ks|
  {
    if ks != [] {
      var s1 := HydrogenateAt(s, ks[0]);
      HydrogenateAllEffect(s1, ks[1..], i, k);
      EndpointHitsEndpointsOnly(s.bonds, s1.bonds, ks[1..], i);
      assert k in ks <==> k == ks[0] || k in ks[1..] by {
        assert ks == [ks[0]] + ks[1..];
      }
    }
  }

  /**
   * Hydrogenation adds no atom and no bond; every bond of order 2 becomes a
   * single bond and every other bond is untouched; each atom gains one
   * hydrogen per double-bond end it sits on and keeps every other field.
   */
  lemma HydrogenationEffect(s: Structure)
    requires s.Closed()
    ensures |Hydrogenated(s).atoms| == |s.atoms| && |Hydrogenated(s).bonds| == |s.bonds|
    ensures forall k :: 0 <= k < |s.bonds| ==>
      Hydrogenated(s).bonds[k] == if s.bonds[k].order == 2 then s.bonds[k].(order := 1) else s.bonds[k]
    ensures forall i :: 0 <= i < |s.atoms| ==>
      Hydrogenated(s).atoms[i] == s.atoms[i].(implicitHydrogens :=
        s.atoms[i].implicitHydrogens + EndpointHits(s.bonds, DoubleBonds(s.bonds), i))
  {
    var ks := DoubleBonds(s.bonds);
    forall k | 0 <= k < |s.bonds|
      ensures Hydrogenated(s).bonds[k] == if s.bonds[k].order == 2 then s.bonds[k].(order := 1) else s.bonds[k]
    {
      HydrogenateAllEffect(s, ks, 0, k);
    }
    forall i | 0 <= i < |s.atoms|
      ensures Hydrogenated(s).atoms[i] == s.atoms[i].(implicitHydrogens :=
        s.atoms[i].implicitHydrogens + EndpointHits(s.bonds, ks, i))
    {
      HydrogenateAllEffect(s, ks, i, 0);
    }
  }

  /** Without a bond of order 2, every rule leaves the graph as it is. */
  lemma NoDoubleBondNoChange(s: Structure, name: string)
    requires s.Closed()
    requires forall k :: 0 <= k < |s.bonds| ==> s.bonds[k].order != 2
    ensures Transform(s, name) == s
  {
  }

  /* ---------------- Bromination and dihydroxylation ---------------- */

  lemma {:induction false} AttachAllSizes(s: Structure, ks: seq<nat>, element: string, hydrogens: int)
    requires s.Closed() && BondPositions(s, ks)
    ensures |AttachAll(s, ks, element, hydrogens).atoms| == |s.atoms| + 2 * |ks|
    ensures |AttachAll(s, ks, element, hydrogens).bonds| == |s.bonds| + 2 * |ks|
    decreases |ks|
  {
    if ks != [] {
      AttachAllSizes(AttachAt(s, ks[0], element, hydrogens), ks[1..], element, hydrogens);
    }
  }

  lemma {:induction false} AttachAllOldAtoms(s: Structure, ks: seq<nat>, element: string, hydrogens: int, i: nat)
    requires s.Closed() && BondPositions(s, ks) && i < |s.atoms|
    ensures i < |AttachAll(s, ks, element, hydrogens).atoms|
    ensures AttachAll(s, ks, element, hydrogens).atoms[i] == s.atoms[i]
    decreases |ks|
  {
    AttachAllSizes(s, ks, element, hydrogens);
    if ks != [] {
      AttachAllOldAtoms(AttachAt(s, ks[0], element, hydrogens), ks[1..], element, hydrogens, i);
    }
  }

  lemma {:induction false} AttachAllOldBonds(s: Structure, ks: seq<nat>, element: string, hydrogens: int, k: nat)
    requires s.Closed() && BondPositions(s, ks) && k < |s.bonds|
    ensures k < |AttachAll(s, ks, element, hydrogens).bonds|
    ensures AttachAll(s, ks, element, hydrogens).bonds[k] == if k in ks then s.bonds[k].(order := 1) else s.bonds[k]
    decreases |ks|
  {
    AttachAllSizes(s, ks, element, hydrogens);
    if ks != [] {
      AttachAllOldBonds(AttachAt(s, ks[0], element, hydrogens), ks[1..], element, hydrogens, k);
      assert k in ks <==> k == ks[0] || k in ks[1..] by {
        assert ks == [ks[0]] + ks[1..];
      }
    }
  }

  /** The pair of atoms added for the first bond of the snapshot survive the later steps. */
  lemma AttachAllFirstAtoms(s: Structure, ks: seq<nat>, element: string, hydrogens: int)
    requires s.Closed() && BondPositions(s, ks) && ks != []
    ensures var r, n, b := AttachAll(s, ks, element, hydrogens), |s.atoms|, s.bonds[ks[0]];
      && n + 1 < |r.atoms|
      && r.atoms[n] == Substituent(element, s.atoms[b.source], hydrogens)
      && r.atoms[n + 1] == Substituent(element, s.atoms[b.target], hydrogens)
  {
    var s1 := AttachAt(s, ks[0], element, hydrogens);
    var n, b := |s.atoms|, s.bonds[ks[0]];
    assert s1.atoms[n] == Substituent(element, s.atoms[b.source], hydrogens);
    assert s1.atoms[n + 1] == Substituent(element, s.atoms[b.target], hydrogens);
    assert AttachAll(s, ks, element, hydrogens) == AttachAll(s1, ks[1..], element, hydrogens);
    AttachAllOldAtoms(s1, ks[1..], element, hydrogens, n);
    AttachAllOldAtoms(s1, ks[1..], element, hydrogens, n + 1);
  }

  /** The pair of bonds added for the first bond of the snapshot survive the later steps. */
  lemma AttachAllFirstBonds(s: Structure, ks: seq<nat>, element: string, hydrogens: int)
    requires s.Closed() && BondPositions(s, ks) && ks != []
    ensures var r, n, m, b := AttachAll(s, ks, element, hydrogens), |s.atoms|, |s.bonds|, s.bonds[ks[0]];
      && m + 1 < |r.bonds|
      && r.bonds[m] == Bond(b.source, n, 1)
      && r.bonds[m + 1] == Bond(b.target, n + 1, 1)
  {
    var s1 := AttachAt(s, ks[0], element, hydrogens);
    var n, m, b := |s.atoms|, |s.bonds|, s.bonds[ks[0]];
    assert s1.bonds[m] == Bond(b.source, n, 1);
    assert s1.bonds[m + 1] == Bond(b.target, n + 1, 1);
    assert m !in ks[1..] && m + 1 !in ks[1..];
    assert AttachAll(s, ks, element, hydrogens) == AttachAll(s1, ks[1..], element, hydrogens);
    AttachAllOldBonds(s1, ks[1..], element, hydrogens, m);
    AttachAllOldBonds(s1, ks[1..], element, hydrogens, m + 1);
  }

  /** The pair of atoms added for the j-th bond of the snapshot. */
  lemma {:induction false} AttachAllAddedAtoms(s: Structure, ks: seq<nat>, element: string, hydrogens: int, j: nat)
    requires s.Closed() && BondPositions(s, ks) && j < |ks|
    ensures var r, n, b := AttachAll(s, ks, element, hydrogens), |s.atoms|, s.bonds[ks[j]];
      && n + 2 * j + 1 < |r.atoms|
      && r.atoms[n + 2 * j] == Substituent(element, s.atoms[b.source], hydrogens)
      && r.atoms[n + 2 * j + 1] == Substituent(element, s.atoms[b.target], hydrogens)
    decreases |ks|
  {
    var s1 := AttachAt(s, ks[0], element, hydrogens);
    AttachAllSizes(s, ks, element, hydrogens);
    if j == 0 {
      AttachAllFirstAtoms(s, ks, element, hydrogens);
    } else {
      AttachAllAddedAtoms(s1, ks[1..], element, hydrogens, j - 1);
      var b := s.bonds[ks[j]];
      assert s1.bonds[ks[j]].source == b.source && s1.bonds[ks[j]].target == b.target;
      assert s1.atoms[b.source] == s.atoms[b.source] && s1.atoms[b.target] == s.atoms[b.target];
    }
  }

  /** The pair of bonds added for the j-th bond of the snapshot. */
  lemma {:induction false} AttachAllAddedBonds(s: Structure, ks: seq<nat>, element: string, hydrogens: int, j: nat)
    requires s.Closed() && BondPositions(s, ks) && j < |ks|
    ensures var r, n, m, b := AttachAll(s, ks, element, hydrogens), |s.atoms|, |s.bonds|, s.bonds[ks[j]];
      && m + 2 * j + 1 < |r.bonds|
      && r.bonds[m + 2 * j] == Bond(b.source, n + 2 * j, 1)
      && r.bonds[m + 2 * j + 1] == Bond(b.target, n + 2 * j + 1, 1)
    decreases |ks|
  {
    var s1 := AttachAt(s, ks[0], element, hydrogens);
    AttachAllSizes(s, ks, element, hydrogens);
    if j == 0 {
      AttachAllFirstBonds(s, ks, element, hydrogens);
    } else {
      var n, m, b := |s.atoms|, |s.bonds|, s.bonds[ks[j]];
      assert ks[1..][j - 1] == ks[j];
      assert |s1.atoms| == n + 2 && |s1.bonds| == m + 2;
      assert s1.bonds[ks[j]].source == b.source && s1.bonds[ks[j]].target == b.target;
      assert AttachAll(s, ks, element, hydrogens) == AttachAll(s1, ks[1..], element, hydrogens);
      AttachAllAddedBonds(s1, ks[1..], element, hydrogens, j - 1);
    }
  }

  /**
   * Bromination (element "Br", 0 hydrogens) and dihydroxylation (element
   * "O", 1 hydrogen) with k bonds of order 2: 2k atoms and 2k bonds are
   * appended; for the j-th double bond, the atoms at n + 2j and n + 2j + 1
   * sit next to its source and target and each is joined to its carbon by a
   * new single bond; the old atoms are unchanged; the double bonds become
   * single and the other old bonds are untouched.
   */
  lemma SubstitutionEffect(s: Structure, element: string, hydrogens: int)
    requires s.Closed()
    ensures var r := AttachAll(s, DoubleBonds(s.bonds), element, hydrogens);
      var ks, n, m := DoubleBonds(s.bonds), |s.atoms|, |s.bonds|;
      && |r.atoms| == n + 2 * |ks|
      && |r.bonds| == m + 2 * |ks|
      && r.atoms[..n] == s.atoms
      && (forall k :: 0 <= k < m ==>
            r.bonds[k] == if s.bonds[k].order == 2 then s.bonds[k].(order := 1) else s.bonds[k])
      && (forall j :: 0 <= j < |ks| ==>
            var b := s.bonds[ks[j]];
            && PlacedNextTo(r.atoms[n + 2 * j], s.atoms[b.source], element, hydrogens)
            && PlacedNextTo(r.atoms[n + 2 * j + 1], s.atoms[b.target], element, hydrogens)
            && r.bonds[m + 2 * j] == Bond(b.source, n + 2 * j, 1)
            && r.bonds[m + 2 * j + 1] == Bond(b.target, n + 2 * j + 1, 1))
  {
    var ks := DoubleBonds(s.bonds);
    var r := AttachAll(s, ks, element, hydrogens);
    AttachAllSizes(s, ks, element, hydrogens);
    forall i | 0 <= i < |s.atoms|
      ensures r.atoms[i] == s.atoms[i]
    {
      AttachAllOldAtoms(s, ks, element, hydrogens, i);
    }
    forall k | 0 <= k < |s.bonds|
      ensures r.bonds[k] == if s.bonds[k].order == 2 then s.bonds[k].(order := 1) else s.bonds[k]
    {
      AttachAllOldBonds(s, ks, element, hydrogens, k);
    }
    forall j | 0 <= j < |ks|
      ensures var b := s.bonds[ks[j]];
        && PlacedNextTo(r.atoms[|s.atoms| + 2 * j], s.atoms[b.source], element, hydrogens)
        && PlacedNextTo(r.atoms[|s.atoms| + 2 * j + 1], s.atoms[b.target], element, hydrogens)
        && r.bonds[|s.bonds| + 2 * j] == Bond(b.source, |s.atoms| + 2 * j, 1)
        && r.bonds[|s.bonds| + 2 * j + 1] == Bond(b.target, |s.atoms| + 2 * j + 1, 1)
    {
      AttachAllAddedAtoms(s, ks, element, hydrogens, j);
      AttachAllAddedBonds(s, ks, element, hydrogens, j);
    }
  }

  /* ---------------- The engine ---------------- */

  /**
   * A name outside the three catalog literals applies no rule: the result
   * is the clone.
   */
  lemma UnknownReagentIsClone(s: Structure, name: string)
    requires name != Hydrogen && name != Bromine && name != Permanganate
    ensures Reaction(s, name) == CloneOf(s)
  {
  }

  /**
   * The reaction's counts, read on the reactant: with k bonds of order 2 in
   * the reactant, bromination and dihydroxylation add 2k atoms and 2k bonds,
   * hydrogenation and an unknown name add none.
   */
  lemma ReactionCounts(s: Structure, name: string)
    requires s.Closed()
    ensures Reaction(s, name).Some?
    ensures var r, k := Reaction(s, name).value, |DoubleBonds(s.bonds)|;
      var added := if name == Bromine || name == Permanganate then 2 * k else 0;
      |r.atoms| == |s.atoms| + added && |r.bonds| == |s.bonds| + added
  {
    CloneShape(s);
    var c := CloneOf(s).value;
    DoubleBondsSameOrders(s.bonds, c.bonds, |s.bonds|);
    if name == Bromine {
      AttachAllSizes(c, DoubleBonds(c.bonds), "Br", 0);
    } else if name == Permanganate {
      AttachAllSizes(c, DoubleBonds(c.bonds), "O", 1);
    }
  }

  /** With no two atoms equal, the clone is exact and the reaction is the rule applied to the reactant itself. */
  lemma ReactionOnDistinctAtoms(s: Structure, name: string)
    requires s.Closed() && Distinct(s.atoms)
    ensures Reaction(s, name) == Some(Transform(s, name))
  {
    CloneOfDistinct(s);
  }

  /** Hydrogenation: the rule applied to the bonds of order 2 of the graph, in order. */
  method ApplyHydrogenation(graph: MolecularGraph)
    requires graph.Value().Closed()
    modifies graph
    ensures graph.Value() == Hydrogenated(old(graph.Value()))
  {
    ghost var s0 := graph.Value();
    var doubleBonds := DoubleBonds(graph.EdgeSet());
    var j := 0;
    while j < |doubleBonds|
      invariant 0 <= j <= |doubleBonds|
      invariant graph.Value().Closed() && |graph.bonds| == |s0.bonds|
      invariant HydrogenateAll(graph.Value(), doubleBonds[j..]) == Hydrogenated(s0)
    {
      ghost var before := graph.Value();
      var bond := doubleBonds[j];
      graph.SetEdgeWeight(bond, 1.0);
      var source := graph.GetEdgeSource(bond);
      var target := graph.GetEdgeTarget(bond);
      graph.atoms := graph.atoms[source := AddHydrogen(graph.atoms[source])];
      graph.atoms := graph.atoms[target := AddHydrogen(graph.atoms[target])];
      assert graph.Value() == HydrogenateAt(before, bond);
      assert doubleBonds[j..][1..] == doubleBonds[j + 1..];
      j := j + 1;
    }
  }

  /** One iteration of the shared loop: demote the bond, add two atoms, join each to its carbon. */
  method AttachAcross(graph: MolecularGraph, bond: nat, element: string, hydrogens: int)
    requires graph.Value().Closed() && bond < |graph.bonds|
    modifies graph
    ensures graph.Value() == AttachAt(old(graph.Value()), bond, element, hydrogens)
  {
    graph.SetEdgeWeight(bond, 1.0);
    var carbon1 := graph.GetEdgeSource(bond);
    var carbon2 := graph.GetEdgeTarget(bond);
    var added1 := Substituent(element, graph.atoms[carbon1], hydrogens);
    var added2 := Substituent(element, graph.atoms[carbon2], hydrogens);
    var n := |graph.atoms|;
    graph.AddVertex(added1);
    graph.AddVertex(added2);
    var _ := graph.AddEdge(carbon1, n);
    var _ := graph.AddEdge(carbon2, n + 1);
  }

  /** The shared loop of bromination and dihydroxylation. */
  method AttachAcrossDoubleBonds(graph: MolecularGraph, element: string, hydrogens: int)
    requires graph.Value().Closed()
    modifies graph
    ensures graph.Value() == AttachAll(old(graph.Value()), DoubleBonds(old(graph.bonds)), element, hydrogens)
  {
    ghost var s0 := graph.Value();
    var doubleBonds := DoubleBonds(graph.EdgeSet());
    var j := 0;
    while j < |doubleBonds|
      invariant 0 <= j <= |doubleBonds|
      invariant graph.Value().Closed() && |s0.bonds| <= |graph.bonds|
      invariant AttachAll(graph.Value(), doubleBonds[j..], element, hydrogens) == AttachAll(s0, doubleBonds, element, hydrogens)
    {
      AttachAcross(graph, doubleBonds[j], element, hydrogens);
      assert doubleBonds[j..][1..] == doubleBonds[j + 1..];
      j := j + 1;
    }
  }

  method ApplyBromination(graph: MolecularGraph)
    requires graph.Value().Closed()
    modifies graph
    ensures graph.Value() == Brominated(old(graph.Value()))
  {
    AttachAcrossDoubleBonds(graph, "Br", 0);
  }

  method ApplyDihydroxylation(graph: MolecularGraph)
    requires graph.Value().Closed()
    modifies graph
    ensures graph.Value() == Dihydroxylated(old(graph.Value()))
  {
    AttachAcrossDoubleBonds(graph, "O", 1);
  }

  /**
   * `executeReaction`: works on a fresh clone, so the reactant is unchanged;
   * null where `clone` throws.
   */
  method ExecuteReaction(reactant: MolecularGraph, reagent: Reagent) returns (product: MolecularGraph?)
    ensures reactant.Value() == old(reactant.Value())
    ensures product == null <==> !reactant.Value().Closed()
    ensures product != null ==> fresh(product) && Reaction(reactant.Value(), reagent.name) == Some(product.Value())
  {
    product := reactant.Clone();
    if product == null {
      return;
    }
    CloneShape(reactant.Value());
    if reagent.name == Hydrogen {
      ApplyHydrogenation(product);
    } else if reagent.name == Bromine {
      ApplyBromination(product);
    } else if reagent.name == Permanganate {
      ApplyDihydroxylation(product);
    }
  }

  /* ---------------- The ethene demo graph ---------------- */

  const Carbon1: Atom := Atom("C", 0.0, 0.0, -0.5, 0.0, 0.0, 0)
  const Carbon2: Atom := Atom("C", 50.0, 0.0, 0.5, 0.0, 0.0, 0)

  /** Ethene as `createSimpleEtheneGraph` returns it: two carbons, one double bond, two hydrogens each. */
  const Ethene: Structure :=
    Structure([Carbon1.(implicitHydrogens := 2), Carbon2.(implicitHydrogens := 2)], [Bond(0, 1, 2)])

  /** The ethene skeleton before hydrogens are filled in. */
  const EtheneSkeleton: Structure := Structure([Carbon1, Carbon2], [Bond(0, 1, 2)])

  /** The skeleton after the first carbon is filled. */
  const EtheneHalfFilled: Structure := Structure([Carbon1.(implicitHydrogens := 2), Carbon2], [Bond(0, 1, 2)])

  /** With a single bond that touches a, `edgesOf(a)` is that bond and the summed order is its order. */
  lemma OneBondOrderSum(s: Structure, a: Atom)
    requires |s.bonds| == 1 && s.Touches(s.bonds[0], a)
    ensures s.OrderSum(a) == s.bonds[0].order
  {
    assert s.EdgesOfPrefix(a, 0) == [];
    assert s.EdgesOf(a) == [0];
    assert [0][..0] == [];
    assert SumOrders(s.bonds, [0]) == SumOrders(s.bonds, []) + s.bonds[0].order;
  }

  lemma EtheneFirstCarbon()
    ensures FillHydrogens(EtheneSkeleton, 0) == EtheneHalfFilled
  {
    OneBondOrderSum(EtheneSkeleton, Carbon1);
    var s1 := FillHydrogens(EtheneSkeleton, 0);
    assert s1.atoms == EtheneSkeleton.atoms[0 := Carbon1.(implicitHydrogens := 2)];
    assert s1.atoms == EtheneHalfFilled.atoms;
  }

  lemma EtheneSecondCarbon()
    ensures FillHydrogens(EtheneHalfFilled, 1) == Ethene
  {
    OneBondOrderSum(EtheneHalfFilled, Carbon2);
    var s2 := FillHydrogens(EtheneHalfFilled, 1);
    assert s2.atoms == EtheneHalfFilled.atoms[1 := Carbon2.(implicitHydrogens := 2)];
    assert s2.atoms == Ethene.atoms;
  }

  /** `addImplicitHydrogens` on the ethene skeleton gives each carbon 4 - 2 = 2 hydrogens. */
  lemma EtheneHydrogens()
    ensures WithImplicitHydrogens(EtheneSkeleton) == Ethene
  {
    EtheneFirstCarbon();
    EtheneSecondCarbon();
    assert HydrogensUpTo(EtheneSkeleton, 1) == EtheneHalfFilled;
  }

  method CreateSimpleEtheneGraph() returns (graph: MolecularGraph)
    ensures fresh(graph) && graph.Value() == Ethene
  {
    graph := new MolecularGraph();
    graph.AddVertex(Carbon1);
    graph.AddVertex(Carbon2);
    var _ := graph.AddBond(0, 1, 2);
    assert graph.Value() == EtheneSkeleton;
    graph.AddImplicitHydrogens();
    EtheneHydrogens();
  }

  lemma EtheneFacts()
    ensures Distinct(Ethene.atoms)
    ensures DoubleBonds(Ethene.bonds) == [0]
  {
    assert DoubleBondsPrefix(Ethene.bonds, 0) == [];
  }

  /** Ethane's carbons: each ethene carbon with a third hydrogen, joined by a single bond. */
  const Ethane: Structure :=
    Structure([Carbon1.(implicitHydrogens := 3), Carbon2.(implicitHydrogens := 3)], [Bond(0, 1, 1)])

  lemma EtheneHydrogenated()
    ensures Hydrogenated(Ethene) == Ethane
  {
    assert DoubleBondsPrefix(Ethene.bonds, 0) == [];
    assert DoubleBonds(Ethene.bonds) == [0];
    assert [0][1..] == [];
    var r := HydrogenateAt(Ethene, 0);
    assert Hydrogenated(Ethene) == HydrogenateAll(r, []) == r;
    var atoms1 := Ethene.atoms[0 := Carbon1.(implicitHydrogens := 3)];
    assert r.atoms == atoms1[1 := Carbon2.(implicitHydrogens := 3)];
    assert r.atoms == Ethane.atoms;
    assert r.bonds == Ethane.bonds;
  }

  /** Hydrogenating ethene: the same two carbons with one more hydrogen each, joined by a single bond. */
  lemma EtheneHydrogenation()
    ensures Reaction(Ethene, Hydrogen) == Some(Ethane)
  {
    EtheneFacts();
    ReactionOnDistinctAtoms(Ethene, Hydrogen);
    EtheneHydrogenated();
  }

  /** Ethene with a bromine on each carbon. */
  const Dibromoethane: Structure := Structure(
    [ Carbon1.(implicitHydrogens := 2), Carbon2.(implicitHydrogens := 2),
      Atom("Br", 20.0, 20.0, 0.0, 0.5, 0.0, 0), Atom("Br", 70.0, 20.0, 1.0, 0.5, 0.0, 0) ],
    [Bond(0, 1, 1), Bond(0, 2, 1), Bond(1, 3, 1)])

  lemma EtheneBrominated()
    ensures Brominated(Ethene) == Dibromoethane
  {
    EtheneFacts();
    assert [0][1..] == [];
    var s1 := AttachAt(Ethene, 0, "Br", 0);
    assert Brominated(Ethene) == AttachAll(s1, [], "Br", 0) == s1;
    assert |s1.atoms| == 4 && |s1.bonds| == 3;
    assert s1.atoms[2] == Dibromoethane.atoms[2];
    assert s1.atoms[3] == Dibromoethane.atoms[3];
    assert s1.atoms == Dibromoethane.atoms;
  }

  /** Brominating ethene: four atoms and three bonds, each bromine offset from its carbon. */
  lemma EtheneBromination()
    ensures Reaction(Ethene, Bromine) == Some(Dibromoethane)
  {
    EtheneFacts();
    ReactionOnDistinctAtoms(Ethene, Bromine);
    EtheneBrominated();
  }
}
