/**
 * The AR product screen's handling of the reaction payload: which molecule
 * is shown, the ordered checks that turn a bad payload into an error
 * message, the per-element sphere style, which atoms get a sphere and which
 * bonds get a stick. JSON parsing and the AR scene library are outside the
 * model: the parse result is an input and nodes are plain values.
 */
module ArProduct {
  import opened Wrappers

  /** One molecule of the payload; every field may be absent. */
  datatype MoleculeData = MoleculeData(
    atoms: Option<seq<string>>,
    coords: Option<seq<seq<real>>>,
    bonds: Option<seq<seq<int>>>,
    error: Option<string>)

  /** The payload: reactant, product and an overall error, each possibly absent. */
  datatype ReactionResponse = ReactionResponse(
    reactant: Option<MoleculeData>,
    product: Option<MoleculeData>,
    error: Option<string>)

  /** What reading the navigation argument produced. */
  datatype ParseOutcome =
    | NoJson                                   // the argument was null
    | ParseFailed(message: Option<string>)     // the parser threw, with this message
    | ParsedNull                               // the parser returned null
    | Parsed(response: ReactionResponse)

  /* ---------------- Atom style ---------------- */

  datatype Color = White | DarkGray | Blue | Red | Green | Yellow | Rgb(red: real, green: real, blue: real)

  datatype AtomStyle = AtomStyle(color: Color, radius: real)

  /**
   * Upper-casing of one character, as far as it can produce the letters of
   * the element keys: ASCII a-z, dotless i and long s. Every other character
   * is kept.
   */
  function UpperChar(c: char): char {
    if 'a' <= c <= 'z' then (c as int - 32) as char
    else if c == 'ı' then 'I'
    else if c == 'ſ' then 'S'
    else c
  }

  function Upper(s: string): (r: string)
    ensures |r| == |s| && forall i :: 0 <= i < |s| ==> r[i] == UpperChar(s[i])
  {
    if s == [] then [] else [UpperChar(s[0])] + Upper(s[1..])
  }

  lemma {:induction false} UpperIdempotent(s: string)
    ensures Upper(Upper(s)) == Upper(s)
  {
    var u := Upper(s);
    assert forall i :: 0 <= i < |u| ==> UpperChar(u[i]) == u[i];
  }

  const DefaultStyle: AtomStyle := AtomStyle(Rgb(0.8, 0.5, 0.8), 0.4)

  /** `getAtomProperties`: the style of an element symbol, matched after upper-casing. */
  function GetAtomProperties(symbol: string): (r: AtomStyle)
    ensures 0.25 <= r.radius <= 0.45
  {
    var key := Upper(symbol);
    if key == "H" then AtomStyle(White, 0.25)
    else if key == "C" then AtomStyle(DarkGray, 0.4)
    else if key == "N" then AtomStyle(Blue, 0.35)
    else if key == "O" then AtomStyle(Red, 0.35)
    else if key == "F" || key == "CL" then AtomStyle(Green, 0.35)
    else if key == "BR" then AtomStyle(Rgb(0.6, 0.1, 0.1), 0.4)
    else if key == "I" then AtomStyle(Rgb(0.4, 0.0, 0.6), 0.45)
    else if key == "P" then AtomStyle(Rgb(1.0, 0.5, 0.0), 0.45)
    else if key == "S" then AtomStyle(Yellow, 0.45)
    else DefaultStyle
  }

  const Elements: seq<string> := ["H", "C", "N", "O", "F", "CL", "BR", "I", "P", "S"]

  /** Matching ignores case: a symbol and its upper-cased form have the same style. */
  lemma StyleIgnoresCase(symbol: string)
    ensures GetAtomProperties(Upper(symbol)) == GetAtomProperties(symbol)
  {
    UpperIdempotent(symbol);
  }

  /** Fluorine and chlorine share a style, whatever the case; bromine has its own dark red. */
  lemma StyleShared()
    ensures GetAtomProperties("F") == GetAtomProperties("Cl") == GetAtomProperties("cl") == AtomStyle(Green, 0.35)
    ensures GetAtomProperties("Br") == AtomStyle(Rgb(0.6, 0.1, 0.1), 0.4)
  {
    assert Upper("Cl") == "CL" && Upper("cl") == "CL" && Upper("F") == "F" && Upper("Br") == "BR";
  }

  /** A symbol gets the default style exactly when its upper-cased form is not one of the ten keys. */
  lemma StyleTable(symbol: string)
    ensures Upper(symbol) !in Elements ==> GetAtomProperties(symbol) == DefaultStyle
    ensures Upper(symbol) in Elements ==> GetAtomProperties(symbol) != DefaultStyle
  {
  }

  /* ---------------- The ordered checks ---------------- */

  /** The molecule the screen shows: the product while `showProductText` holds, the reactant otherwise. */
  function MoleculeName(showProduct: bool): string {
    if showProduct then "Product" else "Reactant"
  }

  function Selected(response: ReactionResponse, showProduct: bool): Option<MoleculeData> {
    if showProduct then response.product else response.reactant
  }

  /** The outcome of the checks: an error message, a crash (a null parse result is dereferenced), or the lists to draw. */
  datatype Checked =
    | Rejected(message: string)
    | Crashed
    | Accepted(atoms: seq<string>, coords: seq<seq<real>>, bonds: seq<seq<int>>)

  function Show(s: Option<string>): string {
    if s.Some? then s.value else "null"
  }

  /** The validation chain at the start of the scene effect. */
  function CheckPayload(parse: ParseOutcome, showProduct: bool): (r: Checked)
    ensures r.Accepted? ==> |r.atoms| > 0
  {
    match parse
    case NoJson => Rejected("Model data is null.")
    case ParseFailed(m) => Rejected("Failed to parse model data: " + Show(m))
    case ParsedNull => Crashed
    case Parsed(response) =>
      if response.error.Some? then Rejected("Server error: " + response.error.value)
      else
        var name := MoleculeName(showProduct);
        match Selected(response, showProduct)
        case None => Rejected(name + " data is missing.")
        case Some(molecule) =>
          if molecule.error.Some? then Rejected(name + " error: " + molecule.error.value)
          else
            var atoms := if molecule.atoms.Some? then molecule.atoms.value else [];
            if atoms == [] then Rejected(name + " data is empty.")
            else Accepted(
              atoms,
              if molecule.coords.Some? then molecule.coords.value else [],
              if molecule.bonds.Some? then molecule.bonds.value else [])
  }

  /**
   * An overall error wins over anything in the molecules; then a missing
   * molecule, then the molecule's own error, then an empty or absent atom
   * list, each with the molecule's name in front.
   */
  lemma CheckOrder(response: ReactionResponse, showProduct: bool)
    ensures var r, name, m := CheckPayload(Parsed(response), showProduct), MoleculeName(showProduct), Selected(response, showProduct);
      && (response.error.Some? ==> r == Rejected("Server error: " + response.error.value))
      && (response.error.None? && m.None? ==> r == Rejected(name + " data is missing."))
      && (response.error.None? && m.Some? && m.value.error.Some? ==> r == Rejected(name + " error: " + m.value.error.value))
      && (response.error.None? && m.Some? && m.value.error.None? && (m.value.atoms.None? || m.value.atoms.value == []) ==>
            r == Rejected(name + " data is empty."))
      && (r.Accepted? <==> response.error.None? && m.Some? && m.value.error.None? && m.value.atoms.Some? && m.value.atoms.value != [])
  {
  }

  /**
   * The checks read only the selected molecule: with no overall error,
   * replacing the molecule not shown changes nothing.
   */
  lemma CheckReadsSelectedOnly(response: ReactionResponse, other: Option<MoleculeData>, showProduct: bool)
    ensures showProduct ==> CheckPayload(Parsed(response.(reactant := other)), true) == CheckPayload(Parsed(response), true)
    ensures !showProduct ==> CheckPayload(Parsed(response.(product := other)), false) == CheckPayload(Parsed(response), false)
  {
  }

  /** The toggle's label names the molecule a click switches to. */
  function ToggleLabel(showProduct: bool): (r: string)
    ensures r == "Show " + MoleculeName(!showProduct)
  {
    if showProduct then "Show Reactant" else "Show Product"
  }

  /* ---------------- Atom spheres ---------------- */

  const ScaleFactor: real := 0.4

  /** A sphere: its colour, radius and centre, all scaled. */
  datatype Sphere = Sphere(color: Color, radius: real, x: real, y: real, z: real)

  function SphereFor(symbol: string, coord: seq<real>): Sphere
    requires |coord| >= 3
  {
    var style := GetAtomProperties(symbol);
    Sphere(style.color, style.radius * ScaleFactor, coord[0] * ScaleFactor, coord[1] * ScaleFactor, coord[2] * ScaleFactor)
  }

  /** Atom i has a coordinate entry. */
  predicate HasCoord(atoms: seq<string>, coords: seq<seq<real>>, i: int) {
    0 <= i < |atoms| && i < |coords|
  }

  /** Some atom with a coordinate entry has fewer than three components: reading the third throws. */
  predicate ShortCoord(atoms: seq<string>, coords: seq<seq<real>>) {
    exists i :: 0 <= i < |atoms| && HasCoord(atoms, coords, i) && |coords[i]| < 3
  }

  /**
   * The atom pass: a sphere for each atom with a coordinate entry, keyed by
   * the atom's index; None where an entry is too short and the pass throws.
   */
  method PlaceAtoms(atoms: seq<string>, coords: seq<seq<real>>) returns (nodes: Option<map<int, Sphere>>)
    ensures nodes.None? <==> ShortCoord(atoms, coords)
    ensures nodes.Some? ==>
      && (forall i :: i in nodes.value <==> HasCoord(atoms, coords, i))
      && (forall i :: i in nodes.value ==> nodes.value[i] == SphereFor(atoms[i], coords[i]))
  {
    var atomNodes: map<int, Sphere> := map[];
    var index := 0;
    while index < |atoms|
      invariant 0 <= index <= |atoms|
      invariant forall i :: i in atomNodes <==> HasCoord(atoms, coords, i) && i < index
      invariant forall i :: i in atomNodes ==> |coords[i]| >= 3 && atomNodes[i] == SphereFor(atoms[i], coords[i])
    {
      if index < |coords| {
        var coord := coords[index];
        if |coord| < 3 {
          return None;
        }
        atomNodes := atomNodes[index := SphereFor(atoms[index], coord)];
      }
      index := index + 1;
    }
    nodes := Some(atomNodes);
  }

  /* ---------------- Bond sticks ---------------- */

  /** Coordinate entry i exists and has at least three components. */
  predicate FullCoord(coords: seq<seq<real>>, i: int) {
    0 <= i < |coords| && |coords[i]| >= 3
  }

  /** A bond gets a stick: two entries, both endpoints have spheres, and both have full coordinates. */
  predicate Drawable(bond: seq<int>, nodes: map<int, Sphere>, coords: seq<seq<real>>) {
    |bond| >= 2 && bond[0] in nodes && bond[1] in nodes && FullCoord(coords, bond[0]) && FullCoord(coords, bond[1])
  }

  /** The bond pass: the positions of the drawable bonds, in order, each once. */
  method SelectBonds(bonds: seq<seq<int>>, nodes: map<int, Sphere>, coords: seq<seq<real>>) returns (drawn: seq<nat>)
    ensures forall j :: 0 <= j < |drawn| ==> drawn[j] < |bonds| && Drawable(bonds[drawn[j]], nodes, coords)
    ensures forall j, j' :: 0 <= j < j' < |drawn| ==> drawn[j] < drawn[j']
    ensures forall k :: 0 <= k < |bonds| && Drawable(bonds[k], nodes, coords) ==> k in drawn
  {
    drawn := [];
    var index := 0;
    while index < |bonds|
      invariant 0 <= index <= |bonds|
      invariant forall j :: 0 <= j < |drawn| ==> drawn[j] < index && Drawable(bonds[drawn[j]], nodes, coords)
      invariant forall j, j' :: 0 <= j < j' < |drawn| ==> drawn[j] < drawn[j']
      invariant forall k :: 0 <= k < index && Drawable(bonds[k], nodes, coords) ==> k in drawn
    {
      var bond := bonds[index];
      if |bond| >= 2 {
        var startNodeIndex := bond[0];
        var endNodeIndex := bond[1];
        if startNodeIndex in nodes && endNodeIndex in nodes {
          if FullCoord(coords, startNodeIndex) && FullCoord(coords, endNodeIndex) {
            drawn := drawn + [index];
          }
        }
      }
      index := index + 1;
    }
  }

  /**
   * After a successful atom pass the coordinate check of the bond pass never
   * rejects: a bond is drawn exactly when it has two entries naming atoms
   * that have coordinate entries.
   */
  lemma CoordCheckRedundant(atoms: seq<string>, coords: seq<seq<real>>, nodes: map<int, Sphere>, bond: seq<int>)
    requires !ShortCoord(atoms, coords)
    requires forall i :: i in nodes <==> HasCoord(atoms, coords, i)
    ensures Drawable(bond, nodes, coords) <==>
      |bond| >= 2 && HasCoord(atoms, coords, bond[0]) && HasCoord(atoms, coords, bond[1])
  {
    if |bond| >= 2 && HasCoord(atoms, coords, bond[0]) && HasCoord(atoms, coords, bond[1]) {
      assert !(HasCoord(atoms, coords, bond[0]) && |coords[bond[0]]| < 3);
      assert !(HasCoord(atoms, coords, bond[1]) && |coords[bond[1]]| < 3);
    }
  }

  /** What the scene effect ends with. */
  datatype Render =
    | ShowError(message: string)
    | Crash
    | Scene(spheres: map<int, Sphere>, sticks: seq<nat>)

  /** The scene effect for one payload and one toggle position. */
  method BuildScene(parse: ParseOutcome, showProduct: bool) returns (r: Render)
    ensures CheckPayload(parse, showProduct).Rejected? ==> r == ShowError(CheckPayload(parse, showProduct).message)
    ensures CheckPayload(parse, showProduct).Crashed? ==> r.Crash?
    ensures CheckPayload(parse, showProduct).Accepted? ==>
      var c := CheckPayload(parse, showProduct);
      && (ShortCoord(c.atoms, c.coords) ==> r == Crash)
      && (!ShortCoord(c.atoms, c.coords) ==>
            && r.Scene?
            && (forall i :: i in r.spheres <==> HasCoord(c.atoms, c.coords, i))
            && (forall i :: i in r.spheres ==> r.spheres[i] == SphereFor(c.atoms[i], c.coords[i]))
            && (forall k :: k in r.sticks <==>
                  0 <= k < |c.bonds| && |c.bonds[k]| >= 2
                  && HasCoord(c.atoms, c.coords, c.bonds[k][0]) && HasCoord(c.atoms, c.coords, c.bonds[k][1])))
  {
    var checked := CheckPayload(parse, showProduct);
    match checked {
      case Rejected(message) =>
        r := ShowError(message);
      case Crashed =>
        r := Crash;
      case Accepted(atoms, coords, bonds) =>
        var nodes := PlaceAtoms(atoms, coords);
        if nodes.None? {
          r := Crash;
          return;
        }
        var drawn := SelectBonds(bonds, nodes.value, coords);
        forall k | 0 <= k < |bonds|
          ensures Drawable(bonds[k], nodes.value, coords) <==>
            |bonds[k]| >= 2 && HasCoord(atoms, coords, bonds[k][0]) && HasCoord(atoms, coords, bonds[k][1])
        {
          CoordCheckRedundant(atoms, coords, nodes.value, bonds[k]);
        }
        r := Scene(nodes.value, drawn);
    }
  }
}
