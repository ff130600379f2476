/**
 * The molecular graph: an ordered list of atoms and an ordered list of bonds.
 *
 * Atoms are values, because `Atom` is a Kotlin data class whose `==` and
 * hash compare field values.  A bond names its endpoints by their position
 * in the atom list, so "the same atom object" is "the same position"; a
 * position past the end of the list stands for an atom that is not a member
 * of the graph (Kotlin's `addEdge` does not check membership).
 */
module Graph {
  import opened Wrappers

  const MinInt: int := -0x8000_0000
  const MaxInt: int := 0x7FFF_FFFF

  /** Kotlin's `Int`. */
  type Int32 = x: int | MinInt <= x <= MaxInt

  datatype Atom = Atom(
    element: string,
    x: real,
    y: real,
    x3d: real,
    y3d: real,
    z3d: real,
    implicitHydrogens: int)
  {
    /** Every field except the hydrogen count: what `addImplicitHydrogens` never changes. */
    function Key(): Atom {
      this.(implicitHydrogens := 0)
    }
  }

  datatype Bond = Bond(source: nat, target: nat, order: Int32)
  {
    /** `getEdgeWeight`: the order as a Double. */
    function Weight(): real {
      order as real
    }
  }

  /** Kotlin's `Double.toInt()`: truncation toward zero, saturating at the bounds of `Int`. */
  function DoubleToInt(w: real): (r: Int32)
    ensures w >= MaxInt as real ==> r == MaxInt
    ensures w <= MinInt as real ==> r == MinInt
    ensures MinInt as real < w < MaxInt as real && w >= 0.0 ==> r as real <= w < r as real + 1.0
    ensures MinInt as real < w < MaxInt as real && w < 0.0 ==> r as real - 1.0 < w <= r as real
  {
    if w >= MaxInt as real then MaxInt
    else if w <= MinInt as real then MinInt
    else if w >= 0.0 then w.Floor
    else -((-w).Floor)
  }

  /** Reading a weight back through `toInt` gives the stored order. */
  lemma WeightRoundTrip(b: Bond)
    ensures DoubleToInt(b.Weight()) == b.order
  {
  }

  /** No two atoms are equal as values. */
  ghost predicate Distinct(atoms: seq<Atom>) {
    forall i, j :: 0 <= i < j < |atoms| ==> atoms[i] != atoms[j]
  }

  /** No two atoms agree on element and coordinates. */
  ghost predicate DistinctKeys(atoms: seq<Atom>) {
    forall i, j :: 0 <= i < j < |atoms| ==> atoms[i].Key() != atoms[j].Key()
  }

  /** The summed order of the bonds at the given positions (`sumOf` in Kotlin). */
  function SumOrders(bonds: seq<Bond>, ks: seq<nat>): int
    requires forall j :: 0 <= j < |ks| ==> ks[j] < |bonds|
  {
    if ks == [] then 0 else SumOrders(bonds, ks[..|ks| - 1]) + bonds[ks[|ks| - 1]].order
  }

  /** The value of a graph: its atom list and its bond list. */
  datatype Structure = Structure(atoms: seq<Atom>, bonds: seq<Bond>)
  {
    /** Every bond endpoint is a member atom. */
    predicate Closed() {
      forall k :: 0 <= k < |bonds| ==> bonds[k].source < |atoms| && bonds[k].target < |atoms|
    }

    /** Kotlin's `it.source == atom || it.target == atom`, with data-class equality. */
    predicate Touches(b: Bond, a: Atom) {
      || (b.source < |atoms| && atoms[b.source] == a)
      || (b.target < |atoms| && atoms[b.target] == a)
    }

    /** The positions among the first n bonds that touch a, in order. */
    function EdgesOfPrefix(a: Atom, n: nat): (r: seq<nat>)
      requires n <= |bonds|
      ensures forall j :: 0 <= j < |r| ==> r[j] < n && Touches(bonds[r[j]], a)
      ensures forall j, j' :: 0 <= j < j' < |r| ==> r[j] < r[j']
      ensures forall k :: 0 <= k < n && Touches(bonds[k], a) ==> k in r
    {
      if n == 0 then []
      else
        var r := EdgesOfPrefix(a, n - 1);
        if Touches(bonds[n - 1], a) then r + [n - 1] else r
    }

    /**
     * `edgesOf`: the bonds touching a, in insertion order, each once, and no
     * other bond.
     */
    function EdgesOf(a: Atom): (r: seq<nat>)
      ensures forall j :: 0 <= j < |r| ==> r[j] < |bonds| && Touches(bonds[r[j]], a)
      ensures forall j, j' :: 0 <= j < j' < |r| ==> r[j] < r[j']
      ensures forall k :: 0 <= k < |bonds| && Touches(bonds[k], a) ==> k in r
    {
      EdgesOfPrefix(a, |bonds|)
    }

    /** The summed bond order of the bonds `edgesOf(a)` returns. */
    function OrderSum(a: Atom): int {
      SumOrders(bonds, EdgesOf(a))
    }
  }

  /** With no two atoms equal, `edgesOf` of the atom at position i is exactly the bonds incident to i. */
  lemma EdgesOfByPosition(s: Structure, i: nat, k: nat)
    requires Distinct(s.atoms) && i < |s.atoms|
    ensures k in s.EdgesOf(s.atoms[i]) <==> k < |s.bonds| && (s.bonds[k].source == i || s.bonds[k].target == i)
  {
    var r := s.EdgesOf(s.atoms[i]);
    if k in r {
      var j :| 0 <= j < |r| && r[j] == k;
      var b := s.bonds[k];
      assert s.Touches(b, s.atoms[i]);
      if b.source < |s.atoms| && s.atoms[b.source] == s.atoms[i] {
        assert b.source == i;
      } else {
        assert b.target == i;
      }
    }
  }

  /** `edgesOf` reads only which bonds touch a; two graphs that agree on that agree on the result. */
  lemma {:induction false} EdgesOfAgree(s: Structure, t: Structure, a: Atom, n: nat)
    requires s.bonds == t.bonds && n <= |s.bonds|
    requires forall k :: 0 <= k < n ==> (s.Touches(s.bonds[k], a) <==> t.Touches(t.bonds[k], a))
    ensures s.EdgesOfPrefix(a, n) == t.EdgesOfPrefix(a, n)
  {
    if n > 0 {
      EdgesOfAgree(s, t, a, n - 1);
    }
  }

  /** The valence `addImplicitHydrogens` targets, for the three elements it knows. */
  function Valence(element: string): Option<int> {
    if element == "C" then Some(4)
    else if element == "O" then Some(2)
    else if element == "N" then Some(3)
    else None
  }

  /** One iteration of `addImplicitHydrogens`, on the atom at position i of the current graph. */
  function FillHydrogens(s: Structure, i: nat): Structure
    requires i < |s.atoms|
  {
    match Valence(s.atoms[i].element)
    case None => s
    case Some(v) =>
      var a := s.atoms[i];
      s.(atoms := s.atoms[i := a.(implicitHydrogens := v - s.OrderSum(a))])
  }

  /** The graph after `addImplicitHydrogens` has visited the first n atoms. */
  function HydrogensUpTo(s: Structure, n: nat): (r: Structure)
    requires n <= |s.atoms|
    ensures |r.atoms| == |s.atoms| && r.bonds == s.bonds
  {
    if n == 0 then s else FillHydrogens(HydrogensUpTo(s, n - 1), n - 1)
  }

  /** The graph after `addImplicitHydrogens`. */
  function WithImplicitHydrogens(s: Structure): Structure {
    HydrogensUpTo(s, |s.atoms|)
  }

  /** The count `addImplicitHydrogens` gives the atom at position i of s. */
  function ExpectedHydrogens(s: Structure, i: nat): int
    requires i < |s.atoms|
  {
    match Valence(s.atoms[i].element)
    case Some(v) => v - s.OrderSum(s.atoms[i])
    case None => s.atoms[i].implicitHydrogens
  }

  /** `addImplicitHydrogens` changes hydrogen counts only. */
  lemma {:induction false} HydrogensKeepKeys(s: Structure, n: nat, x: nat)
    requires n <= |s.atoms| && x < |s.atoms|
    ensures HydrogensUpTo(s, n).atoms[x].Key() == s.atoms[x].Key()
  {
    if n > 0 {
      HydrogensKeepKeys(s, n - 1, x);
    }
  }

  /** Positions the pass has not reached yet still hold their original atom. */
  lemma {:induction false} HydrogensNotYetVisited(s: Structure, n: nat, x: nat)
    requires n <= x < |s.atoms|
    ensures HydrogensUpTo(s, n).atoms[x] == s.atoms[x]
  {
    if n > 0 {
      HydrogensNotYetVisited(s, n - 1, x);
    }
  }

  /**
   * When the pass reaches position n, the bonds touching that atom (by value)
   * are the ones that touched it in the original graph: the atoms visited
   * before differ from it in some field other than the hydrogen count.
   */
  lemma HydrogensStepSum(s: Structure, n: nat)
    requires DistinctKeys(s.atoms) && n < |s.atoms|
    ensures HydrogensUpTo(s, n).atoms[n] == s.atoms[n]
    ensures HydrogensUpTo(s, n).OrderSum(s.atoms[n]) == s.OrderSum(s.atoms[n])
  {
    var t := HydrogensUpTo(s, n);
    var a := s.atoms[n];
    HydrogensNotYetVisited(s, n, n);
    forall k | 0 <= k < |s.bonds|
      ensures s.Touches(s.bonds[k], a) <==> t.Touches(t.bonds[k], a)
    {
      var b := s.bonds[k];
      if b.source < |s.atoms| && b.source != n {
        HydrogensKeepKeys(s, n, b.source);
        assert s.atoms[b.source].Key() != a.Key();
      }
      if b.target < |s.atoms| && b.target != n {
        HydrogensKeepKeys(s, n, b.target);
        assert s.atoms[b.target].Key() != a.Key();
      }
    }
    EdgesOfAgree(s, t, a, |s.bonds|);
  }

  lemma {:induction false} HydrogensUpToFormula(s: Structure, n: nat, i: nat)
    requires DistinctKeys(s.atoms) && n <= |s.atoms| && i < n
    ensures HydrogensUpTo(s, n).atoms[i].implicitHydrogens == ExpectedHydrogens(s, i)
  {
    if i == n - 1 {
      HydrogensStepSum(s, i);
    } else {
      var p := HydrogensUpTo(s, n - 1);
      HydrogensUpToFormula(s, n - 1, i);
      assert HydrogensUpTo(s, n) == FillHydrogens(p, n - 1);
      assert FillHydrogens(p, n - 1).atoms[i] == p.atoms[i];
    }
  }

  /**
   * `addImplicitHydrogens`: when no two atoms agree on element and
   * coordinates, each C, O or N atom gets its valence (4, 2, 3) minus the
   * summed order of its bonds, with no clamping, and every other atom and
   * every bond is left as it was.
   */
  lemma ImplicitHydrogensFormula(s: Structure, i: nat)
    requires DistinctKeys(s.atoms) && i < |s.atoms|
    ensures |WithImplicitHydrogens(s).atoms| == |s.atoms|
    ensures WithImplicitHydrogens(s).bonds == s.bonds
    ensures WithImplicitHydrogens(s).atoms[i].Key() == s.atoms[i].Key()
    ensures WithImplicitHydrogens(s).atoms[i].implicitHydrogens ==
      match Valence(s.atoms[i].element)
      case Some(v) => v - s.OrderSum(s.atoms[i])
      case None => s.atoms[i].implicitHydrogens
  {
    HydrogensKeepKeys(s, |s.atoms|, i);
    HydrogensUpToFormula(s, |s.atoms|, i);
  }

  /** The last position holding each atom value: Kotlin's `atomMap`, where a later equal key overwrites. */
  function IndexMap(atoms: seq<Atom>): (m: map<Atom, nat>)
    ensures forall j :: 0 <= j < |atoms| ==> atoms[j] in m
  {
    if atoms == [] then map[]
    else
      var n := |atoms| - 1;
      IndexMap(atoms[..n])[atoms[n] := n]
  }

  /** Each key of `atomMap` maps to the last position holding that atom. */
  lemma {:induction false} IndexMapLast(atoms: seq<Atom>, a: Atom)
    requires a in IndexMap(atoms)
    ensures IndexMap(atoms)[a] < |atoms| && atoms[IndexMap(atoms)[a]] == a
    ensures forall j :: IndexMap(atoms)[a] < j < |atoms| ==> atoms[j] != a
  {
    var n := |atoms| - 1;
    if atoms[n] != a {
      IndexMapLast(atoms[..n], a);
    }
  }

  /** The bond `clone` builds for b: both endpoints looked up in `atomMap`. */
  function CloneBond(atoms: seq<Atom>, b: Bond): Bond
    requires b.source < |atoms| && b.target < |atoms|
  {
    var m := IndexMap(atoms);
    Bond(m[atoms[b.source]], m[atoms[b.target]], b.order)
  }

  /** `clone`: None where Kotlin's `!!` throws, that is, when some bond endpoint is not a member. */
  function CloneOf(s: Structure): Option<Structure> {
    if s.Closed() then
      Some(Structure(s.atoms, seq(|s.bonds|, k requires 0 <= k < |s.bonds| => CloneBond(s.atoms, s.bonds[k]))))
    else
      None
  }

  /** A bond list built bond by bond as `clone` does is the one `CloneOf` describes. */
  lemma CloneOfFromBonds(s: Structure, cloned: seq<Bond>)
    requires |cloned| == |s.bonds|
    requires forall j :: 0 <= j < |s.bonds| ==> s.bonds[j].source < |s.atoms| && s.bonds[j].target < |s.atoms|
    requires forall j :: 0 <= j < |s.bonds| ==> cloned[j] == CloneBond(s.atoms, s.bonds[j])
    ensures CloneOf(s) == Some(Structure(s.atoms, cloned))
  {
    assert s.Closed();
    var expected := seq(|s.bonds|, k requires 0 <= k < |s.bonds| => CloneBond(s.atoms, s.bonds[k]));
    assert forall k :: 0 <= k < |s.bonds| ==> expected[k] == cloned[k];
    assert expected == cloned;
  }

  /**
   * `clone` succeeds exactly when every bond endpoint is a member.  It then
   * has the same atoms in the same order and as many bonds; each bond keeps
   * its order and joins atoms equal, field by field, to the original's
   * endpoints; and the copy is closed.
   */
  lemma CloneShape(s: Structure)
    ensures CloneOf(s).Some? <==> s.Closed()
    ensures CloneOf(s).Some? ==>
      var c := CloneOf(s).value;
      && c.atoms == s.atoms
      && |c.bonds| == |s.bonds|
      && c.Closed()
      && forall k :: 0 <= k < |s.bonds| ==>
           && c.bonds[k].order == s.bonds[k].order
           && c.atoms[c.bonds[k].source] == s.atoms[s.bonds[k].source]
           && c.atoms[c.bonds[k].target] == s.atoms[s.bonds[k].target]
  {
    if s.Closed() {
      var c := CloneOf(s).value;
      forall k | 0 <= k < |s.bonds|
        ensures c.bonds[k].source < |c.atoms| && c.bonds[k].target < |c.atoms|
        ensures c.atoms[c.bonds[k].source] == s.atoms[s.bonds[k].source]
        ensures c.atoms[c.bonds[k].target] == s.atoms[s.bonds[k].target]
      {
        assert c.bonds[k] == CloneBond(s.atoms, s.bonds[k]);
        IndexMapLast(s.atoms, s.atoms[s.bonds[k].source]);
        IndexMapLast(s.atoms, s.atoms[s.bonds[k].target]);
      }
    }
  }

  /** With no two atoms equal, `clone` reproduces the graph exactly. */
  lemma CloneOfDistinct(s: Structure)
    requires s.Closed() && Distinct(s.atoms)
    ensures CloneOf(s) == Some(s)
  {
    var m := IndexMap(s.atoms);
    forall i | 0 <= i < |s.atoms|
      ensures m[s.atoms[i]] == i
    {
      IndexMapLast(s.atoms, s.atoms[i]);
    }
    var c := CloneOf(s).value;
    assert c.bonds == s.bonds by {
      forall k | 0 <= k < |s.bonds|
        ensures c.bonds[k] == s.bonds[k]
      {
        assert c.bonds[k] == CloneBond(s.atoms, s.bonds[k]);
      }
    }
  }

  /**
   * Two field-equal atoms collide in `atomMap`: a bond between them comes
   * out of `clone` as a bond from the later one to itself.
   */
  lemma CloneMergesEqualAtoms(a: Atom)
    ensures CloneOf(Structure([a, a], [Bond(0, 1, 1)])) == Some(Structure([a, a], [Bond(1, 1, 1)]))
  {
    var s := Structure([a, a], [Bond(0, 1, 1)]);
    assert [a][..0] == [];
    assert IndexMap([a]) == map[a := 0];
    assert [a, a][..1] == [a];
    assert IndexMap(s.atoms) == map[a := 1];
    assert CloneBond(s.atoms, s.bonds[0]) == Bond(1, 1, 1);
    assert s.Closed();
    var c := CloneOf(s).value;
    assert c.bonds[0] == CloneBond(s.atoms, s.bonds[0]);
    assert c.bonds == [Bond(1, 1, 1)];
  }

  /**
   * `edgesOf` compares by value: of two field-equal atoms, the unbonded one
   * is reported with the other's bond.
   */
  lemma EqualAtomsShareEdges(a: Atom, b: Atom)
    ensures Structure([a, a, b], [Bond(0, 2, 1)]).EdgesOf(a) == [0]
  {
    var s := Structure([a, a, b], [Bond(0, 2, 1)]);
    assert s.EdgesOfPrefix(a, 0) == [];
    assert s.Touches(s.bonds[0], a);
  }

  /** A mutable molecular graph, as Kotlin's `MolecularGraph` with its two `ArrayList`s. */
  class MolecularGraph {
    var atoms: seq<Atom>
    var bonds: seq<Bond>

    function Value(): Structure
      reads this
    {
      Structure(atoms, bonds)
    }

    constructor ()
      ensures atoms == [] && bonds == []
    {
      atoms := [];
      bonds := [];
    }

    /** `addVertex`: appends the atom; no duplicate check. */
    method AddVertex(atom: Atom)
      modifies this
      ensures atoms == old(atoms) + [atom]
      ensures bonds == old(bonds)
    {
      atoms := atoms + [atom];
    }

    /** `addEdge`: appends one bond and returns it; no membership or self-loop check. */
    method AddEdge(source: nat, target: nat, order: Int32 := 1) returns (bond: nat)
      modifies this
      ensures atoms == old(atoms)
      ensures bonds == old(bonds) + [Bond(source, target, order)]
      ensures bond == |old(bonds)| && bonds[bond] == Bond(source, target, order)
    {
      bonds := bonds + [Bond(source, target, order)];
      bond := |bonds| - 1;
    }

    /** `addBond`: the same as `addEdge`. */
    method AddBond(source: nat, target: nat, order: Int32 := 1) returns (bond: nat)
      modifies this
      ensures atoms == old(atoms)
      ensures bonds == old(bonds) + [Bond(source, target, order)]
      ensures bond == |old(bonds)| && bonds[bond] == Bond(source, target, order)
    {
      bond := AddEdge(source, target, order);
    }

    /** `vertexSet`: the atoms in insertion order, duplicates included. */
    function VertexSet(): (r: seq<Atom>)
      reads this
      ensures |r| == |atoms| && forall a :: a in r <==> a in atoms
    {
      atoms
    }

    /** `edgeSet`: the bonds in insertion order. */
    function EdgeSet(): (r: seq<Bond>)
      reads this
      ensures |r| == |bonds| && forall b :: b in r <==> b in bonds
    {
      bonds
    }

    /** `getEdgeSource`: the bond's first atom, an atom of the graph when every bond's ends are. */
    function GetEdgeSource(bond: nat): (r: nat)
      reads this
      requires bond < |bonds|
      ensures Value().Closed() ==> r < |atoms|
      ensures r < |atoms| ==> Value().Touches(bonds[bond], atoms[r])
    {
      bonds[bond].source
    }

    /** `getEdgeTarget`: the bond's second atom, an atom of the graph when every bond's ends are. */
    function GetEdgeTarget(bond: nat): (r: nat)
      reads this
      requires bond < |bonds|
      ensures Value().Closed() ==> r < |atoms|
      ensures r < |atoms| ==> Value().Touches(bonds[bond], atoms[r])
    {
      bonds[bond].target
    }

    function GetEdgeWeight(bond: nat): (w: real)
      reads this
      requires bond < |bonds|
      ensures w == bonds[bond].order as real
      ensures w.Floor == bonds[bond].order && DoubleToInt(w) == bonds[bond].order
    {
      bonds[bond].Weight()
    }

    /** `setEdgeWeight`: stores the weight truncated to an `Int`; nothing else changes. */
    method SetEdgeWeight(bond: nat, weight: real)
      requires bond < |bonds|
      modifies this
      ensures atoms == old(atoms)
      ensures bonds == old(bonds)[bond := old(bonds)[bond].(order := DoubleToInt(weight))]
      ensures GetEdgeWeight(bond) == DoubleToInt(weight) as real
    {
      bonds := bonds[bond := bonds[bond].(order := DoubleToInt(weight))];
    }

    /** `edgesOf`: in insertion order and each once, exactly the bonds with an end equal to the atom. */
    function EdgesOf(atom: Atom): (r: seq<nat>)
      reads this
      ensures forall j :: 0 <= j < |r| ==> r[j] < |bonds| && Value().Touches(bonds[r[j]], atom)
      ensures forall j, j' :: 0 <= j < j' < |r| ==> r[j] < r[j']
      ensures forall k :: 0 <= k < |bonds| && Value().Touches(bonds[k], atom) ==> k in r
    {
      Value().EdgesOf(atom)
    }

    /** One iteration of `addImplicitHydrogens`, on the atom at position i. */
    method FillAtom(i: nat)
      requires i < |atoms|
      modifies this
      ensures Value() == FillHydrogens(old(Value()), i)
    {
      var atom := atoms[i];
      var valence := Valence(atom.element);
      if valence.Some? {
        var currentBonds := SumOrders(bonds, EdgesOf(atom));
        atoms := atoms[i := atom.(implicitHydrogens := valence.value - currentBonds)];
      }
    }

    /** `addImplicitHydrogens`: one pass over the atoms in order. */
    method AddImplicitHydrogens()
      modifies this
      ensures Value() == WithImplicitHydrogens(old(Value()))
    {
      ghost var s0 := Value();
      var i := 0;
      while i < |atoms|
        invariant 0 <= i <= |atoms| == |s0.atoms|
        invariant Value() == HydrogensUpTo(s0, i)
      {
        FillAtom(i);
        i := i + 1;
      }
    }

    /**
     * `clone`: a fresh graph built through `atomMap`; null where Kotlin's
     * `!!` throws.
     */
    method Clone() returns (c: MolecularGraph?)
      ensures c == null <==> !Value().Closed()
      ensures c != null ==> fresh(c) && CloneOf(Value()) == Some(c.Value())
    {
      var atomList, bondList := atoms, bonds;
      var copy := new MolecularGraph();
      var atomMap: map<Atom, nat> := map[];
      var i := 0;
      while i < |atomList|
        invariant 0 <= i <= |atomList|
        invariant copy.atoms == atomList[..i] && copy.bonds == []
        invariant atomMap == IndexMap(atomList[..i])
      {
        var cloned := atomList[i];
        copy.AddVertex(cloned);
        atomMap := atomMap[atomList[i] := |copy.atoms| - 1];
        assert atomList[..i + 1][..i] == atomList[..i];
        i := i + 1;
      }
      assert atomList[..i] == atomList;
      var k := 0;
      while k < |bondList|
        invariant 0 <= k <= |bondList|
        invariant copy.atoms == atomList && |copy.bonds| == k
        invariant forall j :: 0 <= j < k ==> bondList[j].source < |atomList| && bondList[j].target < |atomList|
        invariant forall j :: 0 <= j < k ==> copy.bonds[j] == CloneBond(atomList, bondList[j])
      {
        var bond := bondList[k];
        if bond.source >= |atomList| || bond.target >= |atomList| {
          return null;
        }
        var clonedSource := atomMap[atomList[bond.source]];
        var clonedTarget := atomMap[atomList[bond.target]];
        var _ := copy.AddEdge(clonedSource, clonedTarget, bond.order);
        k := k + 1;
      }
      c := copy;
      CloneOfFromBonds(Value(), c.bonds);
    }
  }
}
