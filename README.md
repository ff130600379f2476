# ARChemistry core, modelled in Dafny

This project models the core of the ARChemistry Android app (Kotlin):

- **the molecular graph** (`MolecularGraph`, `Atom`, `Bond`): an ordered atom list and an ordered bond list, with appends, accessors, `edgesOf`, the valence pass `addImplicitHydrogens` and the deep copy `clone`;
- **the toy reaction engine** (`ReactionEngine` and `createSimpleEtheneGraph`). It clones the reactant and dispatches on the exact reagent name. Every bond of order 2 becomes single. Hydrogenation then adds a hydrogen at each end. Bromination adds two Br atoms. Dihydroxylation adds two O atoms with one hydrogen each;
- **the main view model**: the selected image, the original image and the selected reagent. The first image also becomes the original;
- **the reactant view model**: reagent validation, the process-button rule, the guards of `onProcessReactionClicked`, and the classification of a server reply into navigation or an error message;
- **the AR product screen**: the ordered checks on the reaction payload, the element style table `getAtomProperties`, which atoms get a sphere and which bonds get a stick.

Files:

- `wrappers.dfy`: `Option`, which stands in for Kotlin's nullable types.
- `graph.dfy`: the graph module.
  - A graph is an arena. Atoms are values in a `seq`. A bond holds the positions of its two atoms and an `Int32` order.
  - The class `MolecularGraph` holds the two lists.
  - Each method is proved against a function on the value `Structure(atoms, bonds)`, and the lemmas are about those functions.
- `reaction.dfy`: the engine.
  - Each `apply*` method is a loop over the snapshot of bonds of order 2. It is proved equal to a fold over that snapshot.
  - The lemmas state counts, offsets and what stays unchanged.
- `main_view_model.dfy`, `reactant_view_model.dfy`: the two view models. Each is a class whose handlers are proved against transition functions on a state value.
- `ar_product.dfy`: the payload checks are pure functions. The atom pass and the bond pass are loop methods.

**Equality of atoms.** `Atom` and `Bond` are Kotlin `data class`es. So `edgesOf` (`it.source == atom`) and the `atomMap` of `clone` compare atoms by field values, not by reference. The model follows this value equality:

- `Structure.Touches` compares `atoms[b.source] == a`.
- `IndexMap` maps an atom value to the last position holding it.
- The clean statements need atoms pairwise distinct by value (`Distinct`), or distinct ignoring the hydrogen count (`DistinctKeys`).
- `EqualAtomsShareEdges` and `CloneMergesEqualAtoms` show what happens otherwise.

**Inputs instead of I/O.** The content resolver, the HTTP call and the JSON parser are not modelled. Their results are inputs: `ReactantState.CallOutcome` and `ArProduct.ParseOutcome`. URIs and bitmaps are opaque type parameters.

## Model

| member | source | states |
|---|---|---|
| Graph.MolecularGraph.constructor | app/src/main/java/com/joshs/archemistry/graph/MolecularGraph.kt:16-17 | a new graph has no atoms and no bonds |
| Graph.MolecularGraph.VertexSet | app/src/main/java/com/joshs/archemistry/graph/MolecularGraph.kt:46-48 | the atom list: as many entries as atoms added, holding exactly the added atoms |
| Graph.MolecularGraph.EdgeSet | app/src/main/java/com/joshs/archemistry/graph/MolecularGraph.kt:53-55 | the bond list: as many entries as bonds added, holding exactly the added bonds |
| Graph.MolecularGraph.GetEdgeSource | app/src/main/java/com/joshs/archemistry/graph/MolecularGraph.kt:60-62 | the bond's source, an atom of a closed graph, and one the bond touches |
| Graph.MolecularGraph.GetEdgeTarget | app/src/main/java/com/joshs/archemistry/graph/MolecularGraph.kt:67-69 | the bond's target, an atom of a closed graph, and one the bond touches |
| Graph.MolecularGraph.EdgesOf | app/src/main/java/com/joshs/archemistry/graph/MolecularGraph.kt:88-90 | in insertion order and each once, exactly the graph's bonds with an end equal to the atom |
| Graph.MolecularGraph.AddVertex | app/src/main/java/com/joshs/archemistry/graph/MolecularGraph.kt:22-24 | the atom is appended at the end; earlier atoms and all bonds are unchanged |
| Graph.MolecularGraph.AddEdge | app/src/main/java/com/joshs/archemistry/graph/MolecularGraph.kt:29-33 | exactly one bond with the given source, target and order (default 1) is appended and returned; atoms unchanged; no membership or self-loop check |
| Graph.MolecularGraph.AddBond | app/src/main/java/com/joshs/archemistry/graph/MolecularGraph.kt:39-41 | same effect and result as `addEdge` |
| Graph.MolecularGraph.GetEdgeWeight | app/src/main/java/com/joshs/archemistry/graph/MolecularGraph.kt:74-76 | the weight is the bond's order as a real; converting it back with `toInt` gives the order |
| Graph.DoubleToInt | app/src/main/java/com/joshs/archemistry/graph/MolecularGraph.kt:81-83 | Kotlin's `Double.toInt`: truncation toward zero, saturating at the `Int` bounds |
| Graph.MolecularGraph.SetEdgeWeight | app/src/main/java/com/joshs/archemistry/graph/MolecularGraph.kt:81-83 | only that bond's order changes, to the truncated weight; no atom and no other bond changes; reading the weight back gives the truncated value |
| Graph.WeightRoundTrip | app/src/main/java/com/joshs/archemistry/graph/MolecularGraph.kt:74-83 | setting a bond's weight to the weight read from it leaves the order unchanged |
| Graph.Structure.EdgesOf | app/src/main/java/com/joshs/archemistry/graph/MolecularGraph.kt:88-90 | in insertion order and each once, exactly the bonds whose source or target atom equals `a` |
| Graph.EdgesOfByPosition | app/src/main/java/com/joshs/archemistry/graph/MolecularGraph.kt:88-90 | with pairwise distinct atoms, `edgesOf(atoms[i])` holds bond k iff k is a bond with endpoint i |
| Graph.EqualAtomsShareEdges | app/src/main/java/com/joshs/archemistry/graph/MolecularGraph.kt:89 | value comparison: an unbonded atom equal to a bonded one is reported with that bond |
| Graph.ImplicitHydrogensFormula | app/src/main/java/com/joshs/archemistry/graph/MolecularGraph.kt:95-112 | with atoms distinct apart from hydrogen counts: atom and bond counts and every other field kept; C, O and N get 4, 2 and 3 minus the summed order of their bonds, unclamped; other elements keep their count |
| Graph.MolecularGraph.AddImplicitHydrogens | app/src/main/java/com/joshs/archemistry/graph/MolecularGraph.kt:95-112 | the loop over the atoms in order yields exactly the specified pass |
| Graph.IndexMapLast | app/src/main/java/com/joshs/archemistry/graph/MolecularGraph.kt:121-128 | `atomMap` maps each atom value to the last position holding it |
| Graph.CloneShape | app/src/main/java/com/joshs/archemistry/graph/MolecularGraph.kt:117-143 | the clone exists iff every bond endpoint is an atom of the graph; then it has the same atoms in order, the same number of bonds, each order kept, and endpoints field-equal to the original's |
| Graph.CloneOfDistinct | app/src/main/java/com/joshs/archemistry/graph/MolecularGraph.kt:117-143 | with pairwise distinct atoms the clone equals the original |
| Graph.CloneMergesEqualAtoms | app/src/main/java/com/joshs/archemistry/graph/MolecularGraph.kt:136-139 | a bond between two field-equal atoms comes out of `clone` as a self-loop on the later one |
| Graph.MolecularGraph.Clone | app/src/main/java/com/joshs/archemistry/graph/MolecularGraph.kt:117-143 | null exactly where `!!` throws, otherwise a fresh graph whose value is the specified clone; the original is not modified |
| Reactions.CatalogDispatch | app/src/main/java/com/joshs/archemistry/ui/MainScreen.kt:70-74 | the three reagents on offer carry the three distinct dispatch names, in menu order |
| Reactions.DoubleBonds | app/src/main/java/com/joshs/archemistry/ui/MainScreen.kt:554 | the snapshot is exactly the bonds of order 2, in insertion order, each once |
| Reactions.ApplyHydrogenation | app/src/main/java/com/joshs/archemistry/ui/MainScreen.kt:552-567 | the loop over the snapshot yields the hydrogenation fold |
| Reactions.HydrogenationEffect | app/src/main/java/com/joshs/archemistry/ui/MainScreen.kt:552-567 | no atom or bond added; bonds of order 2 become single, the others untouched; each atom gains one hydrogen per double-bond end it sits on and keeps every other field |
| Reactions.AttachAcross | app/src/main/java/com/joshs/archemistry/ui/MainScreen.kt:573-605 | one iteration: demote the bond, append two offset atoms, join each to its carbon |
| Reactions.AttachAcrossDoubleBonds | app/src/main/java/com/joshs/archemistry/ui/MainScreen.kt:569-606 | the loop over the snapshot yields the substitution fold |
| Reactions.ApplyBromination | app/src/main/java/com/joshs/archemistry/ui/MainScreen.kt:569-606 | the graph becomes the fold with element Br and 0 hydrogens |
| Reactions.ApplyDihydroxylation | app/src/main/java/com/joshs/archemistry/ui/MainScreen.kt:608-649 | the graph becomes the fold with element O and 1 hydrogen |
| Reactions.SubstitutionEffect | app/src/main/java/com/joshs/archemistry/ui/MainScreen.kt:569-649 | with k bonds of order 2, 2k atoms and 2k bonds are appended. The pair for the j-th double bond sits next to its source and target, offset by (+20, +20) and (+0.5, +0.5, +0), and each atom is joined to its carbon by a new single bond. Old atoms are unchanged; double bonds become single, other bonds are untouched |
| Reactions.NoDoubleBondNoChange | app/src/main/java/com/joshs/archemistry/ui/MainScreen.kt:554 | without a bond of order 2, every rule leaves the graph as it is |
| Reactions.ExecuteReaction | app/src/main/java/com/joshs/archemistry/ui/MainScreen.kt:538-550 | works on a fresh clone: the reactant is unchanged; null exactly where `clone` throws; otherwise the product is the specified reaction |
| Reactions.UnknownReagentIsClone | app/src/main/java/com/joshs/archemistry/ui/MainScreen.kt:543-547 | a name outside the three literals applies no rule: the result is the clone |
| Reactions.ReactionCounts | app/src/main/java/com/joshs/archemistry/ui/MainScreen.kt:538-649 | on a reactant whose bonds all end at its atoms, the reaction succeeds. With k bonds of order 2, bromination and dihydroxylation add 2k atoms and 2k bonds; hydrogenation and unknown names add none |
| Reactions.ReactionOnDistinctAtoms | app/src/main/java/com/joshs/archemistry/ui/MainScreen.kt:538-549 | with pairwise distinct atoms, the reaction is the rule applied to the reactant itself |
| Reactions.CreateSimpleEtheneGraph | app/src/main/java/com/joshs/archemistry/ui/MainScreen.kt:514-532 | two carbons at the given coordinates, one bond of order 2, two implicit hydrogens each |
| Reactions.EtheneHydrogens | app/src/main/java/com/joshs/archemistry/ui/MainScreen.kt:526-529 | the valence pass on the ethene skeleton gives each carbon 4 - 2 = 2 hydrogens |
| Reactions.EtheneHydrogenation | app/src/main/java/com/joshs/archemistry/ui/MainScreen.kt:552-567 | hydrogenating ethene gives two carbons with 3 hydrogens joined by a single bond |
| Reactions.EtheneBromination | app/src/main/java/com/joshs/archemistry/ui/MainScreen.kt:569-606 | brominating ethene gives four atoms and three single bonds, the bromines at (20, 20) and (70, 20) |
| MainState.WithSelectedImage | app/src/main/java/com/joshs/archemistry/viewmodel/MainViewModel.kt:38-47 | the selected pair becomes the arguments; the original becomes them exactly on the first image (nothing selected, no original, non-null URI) and is kept otherwise; the reagent is untouched |
| MainState.OriginalSticks | app/src/main/java/com/joshs/archemistry/viewmodel/MainViewModel.kt:40 | once an original URI is set, no series of updates changes the original or the reagent; the selected pair is the last update's |
| MainState.FirstNonNullBecomesOriginal | app/src/main/java/com/joshs/archemistry/viewmodel/MainViewModel.kt:38-47 | from an empty state, the original is the first update with a non-null URI, whatever follows |
| MainState.ReselectAfterClear | app/src/main/java/com/joshs/archemistry/viewmodel/MainViewModel.kt:101-104 | after clearing the selection, the next image becomes the original iff no original URI was recorded |
| MainState.RestartAfterClearAll | app/src/main/java/com/joshs/archemistry/viewmodel/MainViewModel.kt:107-112 | after clearing all image data, the next non-null image becomes both selected and original; the reagent survives |
| MainState.MainViewModel.constructor | app/src/main/java/com/joshs/archemistry/viewmodel/MainViewModel.kt:24-35 | all slots empty, crop screen hidden |
| MainState.MainViewModel.UpdateSelectedImage | app/src/main/java/com/joshs/archemistry/viewmodel/MainViewModel.kt:38-47 | the new state is the specified transition |
| MainState.MainViewModel.SetOriginalImage | app/src/main/java/com/joshs/archemistry/viewmodel/MainViewModel.kt:90-93 | only the original pair changes |
| MainState.MainViewModel.UpdateSelectedReagent | app/src/main/java/com/joshs/archemistry/viewmodel/MainViewModel.kt:96-98 | only the reagent changes |
| MainState.MainViewModel.ClearSelectedImage | app/src/main/java/com/joshs/archemistry/viewmodel/MainViewModel.kt:101-104 | the selected pair is nulled; everything else kept |
| MainState.MainViewModel.ClearAllImageData | app/src/main/java/com/joshs/archemistry/viewmodel/MainViewModel.kt:107-112 | all four image fields nulled; crop flag and reagent kept |
| ReactantState.InitialStateShape | feature_reactant/src/main/java/com/joshs/archemistry/feature_reactant/ReactantViewModel.kt:25-32 | three reagents, no image, no reagent, not processing, no error, button disabled |
| ReactantState.WithButtonState | feature_reactant/src/main/java/com/joshs/archemistry/feature_reactant/ReactantViewModel.kt:140-144 | the button is enabled iff image and reagent are set; no other field changes |
| ReactantState.ReagentSelectedEffect | feature_reactant/src/main/java/com/joshs/archemistry/feature_reactant/ReactantViewModel.kt:53-58 | the reagent is stored iff it is available, otherwise null; the button agrees; nothing else changes |
| ReactantState.Classify | feature_reactant/src/main/java/com/joshs/archemistry/feature_reactant/ReactantViewModel.kt:77-126 | navigation iff the reply is 2xx with a body that has no error and has atoms, coords and bonds; it carries that body |
| ReactantState.ClassifyMessages | feature_reactant/src/main/java/com/joshs/archemistry/feature_reactant/ReactantViewModel.kt:80-126 | each failing outcome gets its own message: unreadable image, non-2xx with code and message, body error verbatim, missing body, incomplete body, exception |
| ReactantState.ClickedEffect | feature_reactant/src/main/java/com/joshs/archemistry/feature_reactant/ReactantViewModel.kt:61-130 | a disabled button or no image changes nothing; with no reagent selected only the error "Reagent not selected" is set; with a reagent selected processing ends not processing, with no error exactly when it navigates, and image, reagents, reagent and button unchanged |
| ReactantState.StepConsistent | feature_reactant/src/main/java/com/joshs/archemistry/feature_reactant/ReactantViewModel.kt:48-58 | every handler keeps the button rule, the reagent-validity rule and the available list |
| ReactantState.RunConsistent | feature_reactant/src/main/java/com/joshs/archemistry/feature_reactant/ReactantViewModel.kt:48-144 | over any series of user actions, the button is enabled iff image and an available reagent are set |
| ReactantState.ReactantViewModel.constructor | feature_reactant/src/main/java/com/joshs/archemistry/feature_reactant/ReactantViewModel.kt:39-44 | the default state, no navigation event |
| ReactantState.ReactantViewModel.UpdateProcessButtonState | feature_reactant/src/main/java/com/joshs/archemistry/feature_reactant/ReactantViewModel.kt:140-144 | the new state is the button recomputation |
| ReactantState.ReactantViewModel.OnImageCropped | feature_reactant/src/main/java/com/joshs/archemistry/feature_reactant/ReactantViewModel.kt:48-51 | the image is stored and the button recomputed |
| ReactantState.ReactantViewModel.OnReagentSelected | feature_reactant/src/main/java/com/joshs/archemistry/feature_reactant/ReactantViewModel.kt:53-58 | the validated reagent is stored and the button recomputed |
| ReactantState.ReactantViewModel.ClearError | feature_reactant/src/main/java/com/joshs/archemistry/feature_reactant/ReactantViewModel.kt:134-136 | only the error message is reset |
| ReactantState.ReactantViewModel.OnProcessReactionClicked | feature_reactant/src/main/java/com/joshs/archemistry/feature_reactant/ReactantViewModel.kt:61-132 | guards as specified. It publishes the processing state (processing, no error) and ends in the classified state. A navigation event is sent exactly when the outcome navigates |
| ArProduct.GetAtomProperties | feature_ar_product/src/main/java/com/joshs/archemistry/feature_ar_product/ArProductScreen.kt:170-181 | the style of the upper-cased symbol; every radius lies between 0.25 and 0.45 |
| ArProduct.StyleIgnoresCase | feature_ar_product/src/main/java/com/joshs/archemistry/feature_ar_product/ArProductScreen.kt:170 | a symbol and its upper-cased form have the same style |
| ArProduct.StyleShared | feature_ar_product/src/main/java/com/joshs/archemistry/feature_ar_product/ArProductScreen.kt:170-181 | F and Cl share a style whatever the case; Br has its own dark red |
| ArProduct.StyleTable | feature_ar_product/src/main/java/com/joshs/archemistry/feature_ar_product/ArProductScreen.kt:170-181 | a symbol is given the default style iff its upper-cased form is not one of the ten keys |
| ArProduct.CheckPayload | feature_ar_product/src/main/java/com/joshs/archemistry/feature_ar_product/ArProductScreen.kt:200-244 | the validation chain; an accepted molecule has at least one atom |
| ArProduct.CheckOrder | feature_ar_product/src/main/java/com/joshs/archemistry/feature_ar_product/ArProductScreen.kt:214-244 | overall error first, then missing molecule, then the molecule's error, then an empty atom list, each prefixed with the molecule's name; accepted iff none applies |
| ArProduct.CheckReadsSelectedOnly | feature_ar_product/src/main/java/com/joshs/archemistry/feature_ar_product/ArProductScreen.kt:220-225 | the toggle selects the product when set and the reactant otherwise; the other molecule is never read |
| ArProduct.ToggleLabel | feature_ar_product/src/main/java/com/joshs/archemistry/feature_ar_product/ArProductScreen.kt:416 | the label names the molecule a click switches to |
| ArProduct.PlaceAtoms | feature_ar_product/src/main/java/com/joshs/archemistry/feature_ar_product/ArProductScreen.kt:260-275 | atom i gets a sphere iff `coords` has an entry at i. It is styled and scaled by 0.4. The pass throws iff such an entry has fewer than three components |
| ArProduct.SelectBonds | feature_ar_product/src/main/java/com/joshs/archemistry/feature_ar_product/ArProductScreen.kt:280-308 | in order and each once, exactly the bonds that have two entries, whose endpoints both have spheres, and whose endpoints both have three-component coordinates |
| ArProduct.CoordCheckRedundant | feature_ar_product/src/main/java/com/joshs/archemistry/feature_ar_product/ArProductScreen.kt:302-308 | after a successful atom pass the coordinate check never rejects a bond whose endpoints have spheres |
| ArProduct.BuildScene | feature_ar_product/src/main/java/com/joshs/archemistry/feature_ar_product/ArProductScreen.kt:200-366 | a rejected payload shows its message and a null parse crashes. An accepted payload crashes exactly when an atom's coordinate entry is short; otherwise it always yields a scene holding a sphere per atom with coordinates and a stick per bond whose two endpoints have coordinates |

## Left out

- Graph.Atom: the hydrogen count is an unbounded integer. Kotlin's 32-bit wrap-around of `+= 1`, of `valence - sum` and of `sumOf` is not modelled. The wrap needs order sums or hydrogen counts outside 32 bits, for example an extreme order such as `Int.MIN_VALUE` set through `setEdgeWeight`.
- Coordinates are `Float` in Kotlin and `real` here; the `+20f` and `+0.5f` offsets and the 0.4 scale are exact. The `Double` to `Float` conversion of AR coordinates is not modelled. Kotlin's `NaN.toInt()` is 0, and reals have no NaN or infinities.
- Graph.MolecularGraph.AddEdge: an endpoint atom outside the graph is an out-of-range position. In Kotlin such an atom can still be field-equal to a member, and then `edgesOf` and `clone`'s `atomMap` would match it. The model never matches it.
- Graph.MolecularGraph.AddVertex: adding the same atom object twice aliases two list entries in Kotlin, so that mutating one mutates both. Atoms are values here, so positions never alias. The reaction engine always works on a clone, whose atoms are distinct objects, so the engine is unaffected.
- Graph.MolecularGraph.SetEdgeWeight: Kotlin also mutates a bond object that is not in the graph. The model requires the bond's position to be in the list.
- `Atom.clone` (MolecularGraph.kt:166-176) copies the seven fields. On values the copy is the atom itself, so `CloneShape` states it as "same atoms, in order".
- `saveGraphToFile`/`loadGraphFromFile`, `MoleculeRenderer` and `Logger`: file I/O and logging.
- ArProduct.Upper: Kotlin's `uppercase()` is modelled only for ASCII a-z, dotless i and long s. These are the only characters whose upper case is a single key letter. Other characters are kept, and characters whose upper case is longer (such as ß, ﬁ or ŉ) are not expanded: such expansions are several characters long and never equal a key, so these choices do not change which key matches.
- MainViewModel's asynchronous `updateSelectedImage(uri, context)` loads the bitmap in a coroutine. `showCropScreen` is set only by UI code, and no modelled method changes it.
- ReactantState.ReactantViewModel.OnProcessReactionClicked: the launched coroutine runs to completion within the call. Interleaving with other handlers, and the gap between the click and the coroutine starting, are not modelled.
- ReactantState.ReactantViewModel.OnProcessReactionClicked: the reading of the image through the content resolver and the Retrofit call are inputs (`CallOutcome`). The navigation event carries the reply record, not its Gson JSON.
- `ModelDataResponse` is not defined in the sources modelled here. It is a record with the four optional top-level fields the view model reads. Its element types follow the AR screen's `MoleculeData`.
- ArProduct.CheckPayload: Gson parsing is an input (`ParseOutcome`). A null parse result is dereferenced (`reactionResponse.product`) and modelled as a crash.
- ArProduct.BuildScene: ARCore availability and install, SceneView nodes and materials, removal of old child nodes, the cylinder length, midpoint and quaternion maths, the 1e-4 length tolerance and the final `z = -1.5` placement are not modelled. A stick stands for a bond that reaches the cylinder step.
- Compose layout, theming, navigation routing and the other screens are outside the model.
