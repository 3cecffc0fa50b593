# schediazo core, modelled in Dafny

schediazo is a small Python library that builds SVG drawings. A drawing is a tree of parts, and each part knows how to create its own ElementTree element. This project models the library's core as pure Dafny functions over immutable data and proves what each operation promises. The modelled core is:

- **`PartDict`** (`part.py`). A dictionary of parts whose drawing order lives in a hand-written doubly linked list: a node map with `prev`/`next` links, plus head and tail.
  - `LinkedList` models the list as a node map with head and tail.
  - `ListOrder` proves each `_list_*` helper against an abstract key sequence: `Valid(links, s)` holds exactly when the links describe `s`.
  - `Part` and `PartOrder` do the same for the public `PartDict` methods; `Consistent(d, s)` ties the dict's keys to the list.
  - Every operation returns a `Step`: the state after the call and the exception it raised, if any. A Python method that mutates and then raises is therefore modelled with its partial mutation.
- **`Affine`** (`transforms.py`). `Transforms` models:
  - the fluent methods, which insert at the front of the operation list;
  - `build_matrix` over 3×3 real matrices, and the cached matrix;
  - `transform` of a point or of two coordinate lists;
  - `__str__`.
  Cosine, sine and tangent in degrees are a `Trig` record of functions supplied by the caller.
- **Attribute writers.**
  - `Attributes` covers what each mixin of `attributes.py` writes.
  - `Chains` covers how a class's mixins write one after another in method resolution order, ending with the base.
  - `StrokeProperties` sets the `Stroke` writer against the stroke properties its docstring and tests expect.
  - `Elements` covers the mixins of `elements.py`, where `Core` and `Transform` stop the chain.
  - `Markup` models an element as (tag, ordered attribute list, children, text), with `element.set` replacing a value in place or appending a new name.
- **Elements of a drawing.**
  - `Shapes` (`shapes.py`): circles, ellipses, rectangles, polylines and polygons, plus the equilateral triangle's vertices.
  - `Paths` (`paths.py`): the command list and its tokens (path data, section 8.3 of SVG 1.1).
  - `Texts` (`text.py`): text and text-on-path.
  - `Containers` (`containers.py`): groups and clip paths built on `PartDict`.
- **Small arithmetic.** `Maths` (`clip`), `Units` (point conversions) and `Paper` (the ISO 216 A-series table).
- **Test replays.** `Scenarios` replays the call sequences of `tests/test_part.py` on the model and proves the orders those tests expect.

Numbers are rendered through a caller-supplied `num: real -> string`, which stands in for Python's `str(float)`.

Several defects of the source are modelled as written. Each also has a corrected counterpart with its intended property proved (see "## Findings").

## Model

| member | source | states |
|---|---|---|
| ListOrder.InsertTailValid | source/schediazo/part.py:309-336 | `_list_insert_tail` of a new key never raises and leaves the key last, the others in order. |
| ListOrder.InsertHeadValid | source/schediazo/part.py:338-365 | `_list_insert_head` of a new key never raises and leaves the key first, the others in order. |
| ListOrder.RemoveValid | source/schediazo/part.py:367-414 | With two or more keys, `_list_remove` splices the key out and keeps every other key in its relative order. |
| ListOrder.UnlinkHead | source/schediazo/part.py:391-414 | Removing the head of a list of two or more keys leaves the order without it. |
| ListOrder.UnlinkTail | source/schediazo/part.py:391-414 | Removing the tail of a list of two or more keys leaves the order without it. |
| ListOrder.UnlinkMiddle | source/schediazo/part.py:391-414 | Removing an inner key links its two neighbours to each other and leaves the order without it. |
| ListOrder.RemoveSoleLeavesStale | source/schediazo/part.py:384-389 | Removing the only key empties the node map but leaves head and tail naming the removed key. |
| ListOrder.RemoveAbsent | source/schediazo/part.py:367-381 | Removing a key that is not linked raises `KeyError` and changes nothing. |
| ListOrder.SpliceAfterValid | source/schediazo/part.py:437-451 | The guarded body of `_list_insert_after` puts the new key immediately after the anchor, and at the tail it acts as a tail insertion. |
| ListOrder.InsertAfterValid | source/schediazo/part.py:416-451 | With two or more keys, `_list_insert_after` puts the key immediately after the anchor. |
| ListOrder.SpliceBeforeValid | source/schediazo/part.py:474-488 | The guarded body of `_list_insert_before` puts the new key immediately before the anchor, and at the head it acts as a head insertion. |
| ListOrder.InsertBeforeValid | source/schediazo/part.py:453-488 | With two or more keys, `_list_insert_before` puts the key immediately before the anchor. |
| ListOrder.InsertNextToSoleIsNoOp | source/schediazo/part.py:435 | With exactly one key, both guarded insertions return without inserting anything. |
| ListOrder.InsertNextToAbsent | source/schediazo/part.py:416-433 | An anchor that is not linked makes both insertions raise `KeyError` before anything changes. |
| ListOrder.MoveToHeadValid | source/schediazo/part.py:490-510 | `_list_movetohead` puts the key first and keeps the others in order, including when the key is already first or alone. |
| ListOrder.MoveToTailValid | source/schediazo/part.py:512-532 | `_list_movetotail` puts the key last and keeps the others in order, including when the key is already last or alone. |
| ListOrder.MoveToTailIdempotent | source/schediazo/part.py:512-532 | A second move of the same key to the tail finds it there and changes nothing. |
| ListOrder.MoveToHeadIdempotent | source/schediazo/part.py:490-510 | A second move of the same key to the head finds it there and changes nothing. |
| ListOrder.MoveAbsent | source/schediazo/part.py:490-584 | All four move helpers raise `KeyError` for a key that is not linked and change nothing. |
| ListOrder.SwapAfter | source/schediazo/part.py:534-558 | Re-inserting a key after its old tail-ward neighbour, once it has been removed, exchanges the two. |
| ListOrder.SwapBefore | source/schediazo/part.py:560-584 | Re-inserting a key before its old head-ward neighbour, once it has been removed, exchanges the two. |
| ListOrder.MoveTowardsTailValid | source/schediazo/part.py:534-558 | With three or more keys, one step toward the tail exchanges the key with its tail-ward neighbour; at the tail it changes nothing. |
| ListOrder.AtTail | source/schediazo/part.py:534-558 | A step toward the tail of the last key returns at once, as written and corrected. |
| ListOrder.AtHead | source/schediazo/part.py:560-584 | A step toward the head of the first key returns at once, as written and corrected. |
| ListOrder.MoveTowardsTailAsReinsertion | source/schediazo/part.py:553-558 | A step toward the tail is a removal followed by an insertion after the old tail-ward neighbour. |
| ListOrder.MoveTowardsTailReinsert | source/schediazo/part.py:553-558 | With three or more keys, that re-insertion leaves the key exchanged with its neighbour. |
| ListOrder.MoveTowardsHeadValid | source/schediazo/part.py:560-584 | With three or more keys, one step toward the head exchanges the key with its head-ward neighbour; at the head it changes nothing. |
| ListOrder.MoveTowardsHeadAsReinsertion | source/schediazo/part.py:579-584 | A step toward the head is a removal followed by an insertion before the old head-ward neighbour. |
| ListOrder.MoveTowardsHeadReinsert | source/schediazo/part.py:579-584 | With three or more keys, that re-insertion leaves the key exchanged with its neighbour. |
| ListOrder.MoveTowardsTailOfTwoDropsKey | source/schediazo/part.py:553-558 | With exactly two keys, a step of the head toward the tail drops it from the order: only the other key is left linked. |
| ListOrder.MoveTowardsHeadOfTwoDropsKey | source/schediazo/part.py:579-584 | With exactly two keys, a step of the tail toward the head drops it from the order. |
| ListOrder.IterationOrder | source/schediazo/part.py:191-215 | Forward iteration yields the order head first and completes; reverse iteration yields exactly its reverse; each key appears once. |
| ListOrder.StaleAfterSoleRemoval | source/schediazo/part.py:191-215 | After the only key has been removed, both iterations yield that key and then raise `KeyError`, and every further head or tail insertion raises `KeyError` without changing anything. |
| ListOrder.TailInsertsValid | source/schediazo/part.py:309-336 | Tail insertions of new keys, one after another, append them in the order they were made. |
| ListOrder.HeadInsertsValid | source/schediazo/part.py:338-365 | Head insertions of new keys, one after another, prepend them, so they end up in reverse order. |
| ListOrder.InsertionOrder | source/schediazo/part.py:309-365 | From an empty list, keys inserted at the tail iterate in insertion order, and keys inserted at the head iterate in reverse insertion order. |
| ListOrder.RemoveFixedValid | source/schediazo/part.py:384-389 | The corrected removal, which clears head and tail when the sole node goes, splices the key out for every list length. |
| ListOrder.MoveTowardsTailFixedValid | source/schediazo/part.py:534-558 | With the insertion guard removed, a step toward the tail exchanges the key with its neighbour for every list length, two included. |
| ListOrder.MoveTowardsHeadFixedValid | source/schediazo/part.py:560-584 | With the insertion guard removed, a step toward the head exchanges the key with its neighbour for every list length, two included. |
| PartOrder.NewEmpty | source/schediazo/part.py:107-123 | A fresh container is consistent with the empty order and iterates nothing in either direction. |
| PartOrder.Iteration | source/schediazo/part.py:191-215 | `__iter__` yields every key of the dict once in list order and `__reversed__` yields the same keys backwards. |
| PartOrder.SetItemSpec | source/schediazo/part.py:168-189 | A value that is not a part raises `TypeError` and changes nothing; an existing key gets its new value without moving; a new key is stored and appended to the order. |
| PartOrder.AddPartSpec | source/schediazo/part.py:129-137 | `add` never raises; the part is stored under its own id, which joins the order at the tail unless it is already there. |
| PartOrder.DelItemAbsent | source/schediazo/part.py:217-226 | `del` of an absent key raises `KeyError` from the dict before the list is touched. |
| PartOrder.DelItemValid | source/schediazo/part.py:217-226 | With two or more keys, `del` removes the key from the dict and from the order, and the other keys keep their order. |
| PartOrder.DelItemSole | source/schediazo/part.py:217-226 | `del` of the only key empties the dict, but iteration then yields the deleted key and raises `KeyError`, and so does every later assignment of a new key, until `clear` restores an empty container. |
| Part.Clear | source/schediazo/part.py:228-234 | `clear` leaves a container consistent with the empty order that iterates nothing either way, under the same id. |
| PartOrder.MoveAbsentKey | source/schediazo/part.py:236-307 | The four public `move*` methods raise `KeyError` for an absent key and change nothing. |
| PartOrder.MoveToFrontValid | source/schediazo/part.py:236-253 | `movetofront` makes the key the last one drawn; the other keys keep their order and the dict is unchanged. |
| PartOrder.MoveToBackValid | source/schediazo/part.py:255-271 | `movetoback` makes the key the first one drawn; the other keys keep their order and the dict is unchanged. |
| PartOrder.MoveToEndsIdempotent | source/schediazo/part.py:236-271 | A second `movetofront` or `movetoback` of the same key changes nothing. |
| PartOrder.MoveForwardSwaps | source/schediazo/part.py:273-289 | With three or more keys, `moveforward` exchanges the key with the next one; a last key stays where it is; the dict is unchanged. |
| PartOrder.MoveBackwardSwaps | source/schediazo/part.py:291-307 | With three or more keys, `movebackward` exchanges the key with the previous one; a first key stays where it is; the dict is unchanged. |
| PartOrder.MoveForwardOfTwoLosesKey | source/schediazo/part.py:273-289 | With exactly two keys, `moveforward` of the first key drops it from iteration while it stays in the dict; a later `del` of it removes it from the dict and then raises `KeyError` from the list. |
| PartOrder.MoveBackwardOfTwoLosesKey | source/schediazo/part.py:291-307 | With exactly two keys, `movebackward` of the second key drops it from iteration in the same way. |
| Part.IdAttribute | source/schediazo/part.py:65-73 | A part, or a container, writes exactly one attribute: its id. |
| Part.AttachAll | source/schediazo/part.py:154-155 | The loop attaches each key's subtree in iteration order and stops at the first raise. A key missing from the dict raises `KeyError` before anything is attached for it. A part that raises leaves its partial subtree as the last child kept. It returns exactly when every key is present and every part returns. |
| Part.Emit | source/schediazo/part.py:139-156 | `create_element(root)` appends exactly one element to `root`, with the container's tag and attributes, whether or not it then raises. That element's children are the parts' subtrees in iteration order, and every part but the last attached one returned. It returns exactly when the walk completes and every key is present and returns. On a raise, the exception is the last attached part's if that part raised. Otherwise it is `KeyError`, either at a key the dict does not hold or after a stale head has yielded its keys. |
| Part.EmitAttachesOne | source/schediazo/part.py:152-156 | What a container attaches, and what it raises, does not depend on what `root` already holds, so a nested container fits the same shape as a leaf part. |
| Scenarios.ListScriptAfter | source/schediazo/part.py:309-584 | A script of list calls that each keep the list valid returns and leaves the order the script promises, after any calls that did the same. |
| Scenarios.PartScriptAfter | source/schediazo/part.py:168-307 | The same for scripts of the public container methods. |
| Scenarios.ListInsertHeadsTest | tests/test_part.py:7-12 | Three head insertions into an empty list iterate as 3, 2, 1. |
| Scenarios.ListInsertTailsTest | tests/test_part.py:14-19 | Three tail insertions iterate as 1, 2, 3. |
| Scenarios.ListInsertTailsHeadTest | tests/test_part.py:21-26 | A head insertion after two tail insertions comes first. |
| Scenarios.ListInsertHeadsTailTest | tests/test_part.py:28-33 | A tail insertion after two head insertions comes last. |
| Scenarios.ListRemoveTest | tests/test_part.py:35-49 | Removals from the middle, the tail, the head and the middle leave the orders the test expects. |
| Scenarios.ListInsertAfterTest | tests/test_part.py:51-60 | Insertions after an anchor, inside the list and at its tail, give 2, 6, 8, 5, 7. |
| Scenarios.ListInsertBeforeTest | tests/test_part.py:62-66 | Then insertions before an anchor, at the head and inside, give 9, 10, 2, 6, 8, 5, 11, 7. |
| Scenarios.ListMoveToEndsTest | tests/test_part.py:68-77 | Moves to the head and to the tail give 9, 6, 10, 2, 5, 11, 8, 7. |
| Scenarios.ListMoveTwoTest | tests/test_part.py:80-82 | Three steps of 2 toward the head bring it to the head. |
| Scenarios.ListMoveFiveSixTest | tests/test_part.py:83-86 | Then 5 and 6 step toward the head to give 2, 5, 6, 9, 10, 11, 8, 7. |
| Scenarios.ListMoveSevenTest | tests/test_part.py:87-90 | Then 7 goes to the head and steps back three times to give 2, 5, 6, 7, 9, 10, 11, 8. |
| Scenarios.ListMoveStepsTest | tests/test_part.py:91-94 | Then three steps of 8 toward the head sort the keys. |
| Scenarios.PartAssignTest | tests/test_part.py:96-108 | Assigning four parts iterates them in assignment order. |
| Scenarios.PartDeleteTest | tests/test_part.py:110-111 | Then deleting an inner key leaves 1, 2, 4. |
| Scenarios.PartAssignAgainTest | tests/test_part.py:113-115 | Then a newly assigned key goes last. |
| Scenarios.PartMoveToBackTest | tests/test_part.py:116-117 | Then `movetoback` puts it first. |
| Scenarios.PartMoveForwardTest | tests/test_part.py:118-119 | Then `moveforward` swaps a key with the next one. |
| Scenarios.PartMoveBackwardTest | tests/test_part.py:120-121 | Then `movebackward` swaps a key with the previous one. |
| Scenarios.PartMoveToFrontTest | tests/test_part.py:122-125 | Then three `movetofront` calls give 4, 2, 1, 0. |
| Scenarios.PartReversedTest | tests/test_part.py:126 | Then `reversed` yields 0, 1, 2, 4. |
| Transforms.ApplyMul | source/schediazo/transforms.py:60-64 | Multiplying by an affine matrix on the right applies that matrix first. |
| Transforms.MulAffine | source/schediazo/transforms.py:60-64 | Affine matrices (bottom row 0 0 1) are closed under multiplication. |
| Transforms.NewRotate | source/schediazo/transforms.py:173-179 | `Rotate` raises `ValueError` exactly when one origin coordinate is given without the other. |
| Transforms.OpMatrix | source/schediazo/transforms.py:117-243 | Every operation's matrix is affine. |
| Transforms.TranslateGeometry | source/schediazo/transforms.py:143-155 | A translation moves every point by (tx, ty). |
| Transforms.ScaleGeometry | source/schediazo/transforms.py:157-227 | A scaling multiplies the coordinates by (sx, sy), and the three reflections negate both, x, or y. |
| Transforms.ShearGeometry | source/schediazo/transforms.py:208-209 | A shear sends (u, v) to (u + sx·v, sy·u + v). |
| Transforms.SixMatrixGeometry | source/schediazo/transforms.py:232-233 | `SixMatrix(a, b, c, d, e, f)` sends (u, v) to (a·u + c·v + e, b·u + d·v + f). |
| Transforms.RotateIgnoresOrigin | source/schediazo/transforms.py:187-191 | A rotation's matrix ignores its origin: it rotates about (0, 0) by the angle's cosine and sine. |
| Transforms.Add | source/schediazo/transforms.py:66-114 | A fluent call puts its operation in front of the stored list, the rest unchanged, and keeps any cached matrix. |
| Transforms.AddRotate | source/schediazo/transforms.py:76-79 | `rotate` raises `ValueError`, adding nothing, exactly when the origin is half given; otherwise it adds the rotation in front. |
| Transforms.FluentOps | source/schediazo/transforms.py:66-114 | After a sequence of fluent calls the stored list is the calls in reverse, in front of what was there, and the cache is kept. |
| Transforms.Product | source/schediazo/transforms.py:60-64 | The built matrix is affine. |
| Transforms.ProductApplies | source/schediazo/transforms.py:60-64 | The built matrix applies the stored operations last one first: it is the composition of the list read from the back. |
| Transforms.ComposeFront | source/schediazo/transforms.py:60-64 | The operation in front of the stored list is applied last. |
| Transforms.ComposeReversed | source/schediazo/transforms.py:60-114 | Composing the reversed calls is applying them in the order they were made. |
| Transforms.Matrix | source/schediazo/transforms.py:53-58 | The matrix is built and cached on first use. From then on the cached matrix is returned, whatever operations were added since. |
| Transforms.Transform | source/schediazo/transforms.py:31-51 | Transforming a point caches the matrix. Without an earlier cache it applies the stored operations; with one it applies the cached matrix. |
| Transforms.TransformBatch | source/schediazo/transforms.py:34-48 | A batch transform raises `ValueError` exactly when the lists differ in length, and caches the matrix even then. Otherwise output i is the single-point transform of pair i. |
| Transforms.CallOrder | source/schediazo/transforms.py:60-114 | A fresh transform built by fluent calls applies them to a point in the order the calls were made. |
| Transforms.AddAppliedLast | source/schediazo/transforms.py:60-114 | On a transform whose matrix is not yet built, a further call is applied after all earlier ones. |
| Transforms.IdentityTransform | source/schediazo/transforms.py:252-254 | A fresh transform leaves every point where it is. |
| Transforms.CacheIgnoresLaterCalls | source/schediazo/transforms.py:34-58 | Once the matrix is built, later calls change the stored list but not the transform results. |
| Transforms.AddStr | source/schediazo/transforms.py:27-29 | A further call puts its operation's string, and one space, in front of the transform's string, whether or not the matrix is cached. |
| Transforms.RotateStr | source/schediazo/transforms.py:181-185 | A rotation's string names its origin exactly when both coordinates are given, and a half-given origin is refused. |
| Transforms.ColumnSlots | source/schediazo/transforms.py:200-205 | `Shear` and `SixMatrix` fill their six-slot `matrix(...)` string with the first six of the nine entries read column by column. |
| Transforms.ColumnSlotsLoseMatrix | source/schediazo/transforms.py:235-239 | As written, the six rendered numbers denote the operation's matrix exactly when its translation and second column are zero. |
| Transforms.SixMatrixStrWrong | source/schediazo/transforms.py:235-239 | `sixmatrix(3, 1, -1, 3, 30, 40)` renders `matrix(3 1 0 -1 3 0)`, which denotes a different matrix from the one it applies. |
| Transforms.SvgMatrix | source/schediazo/transforms.py:230-233 | The matrix `matrix(a b c d e f)` denotes under section 7.6 of SVG 1.1 is affine. |
| Transforms.SvgRoundTrip | source/schediazo/transforms.py:230-243 | Every affine matrix survives rendering to SVG's six numbers and reading them back. |
| Transforms.OpStrFixedDenotes | source/schediazo/transforms.py:194-243 | The corrected string of a `Shear` or `SixMatrix` lists the six numbers section 7.6 of SVG 1.1 reads back as exactly the matrix the operation applies, and for `SixMatrix` they are its own arguments. |
| Transforms.TranslateTest | tests/test_transforms.py:7-9 | `translate(1, 0)` sends the origin to (1, 0). |
| Transforms.RotateTest | tests/test_transforms.py:8-12 | With cos 90° = 0 and sin 90° = 1, `rotate(90)` sends (1, 0) to (0, 1). |
| Transforms.TranslateRotateTest | tests/test_transforms.py:14-18 | `translate(1, 0).rotate(90)` translates first, so it sends the origin to (0, 1). |
| Transforms.TranslateRotateStrTest | tests/test_transforms.py:14-15 | The string of `translate(1, 0).rotate(90)` lists the rotation first, each operation followed by one space. |
| Transforms.TranslateThenScale | tests/test_transforms.py:22 | `translate(-104000, -800500).scale(1/1000, 1/1000)` sends (u, v) to ((u − 104000)/1000, (v − 800500)/1000). |
| Transforms.TranslateScaleBatchTest | tests/test_transforms.py:21-33 | The batch form of that transform maps the test's four points to the expected values. |
| Transforms.SixMatrixTest | tests/test_transforms.py:35-57 | `sixmatrix(3, 1, -1, 3, 30, 40)` maps (10, 10), (40, 10), (10, 30) and (40, 30) to (50, 80), (140, 110), (30, 140) and (120, 170). |
| Markup.Set | source/schediazo/attributes.py:62-65 | `element.set` of a present name replaces its value in place; a new name is appended. |
| Markup.SetAllFresh | source/schediazo/attributes.py:62-65 | Setting names that are all new and distinct appends them in order. |
| Markup.LookupFound | source/schediazo/attributes.py:62-65 | A name has a value exactly when it is one of the names. |
| Markup.LookupIndex | source/schediazo/attributes.py:62-65 | With each name once, every stored pair reads back as stored. |
| Markup.SetAllLookup | source/schediazo/attributes.py:62-65 | After setting pairs in turn, a name reads as the last pair that set it, or as before when no pair did. |
| Markup.SetAllConcat | source/schediazo/attributes.py:62-66 | Setting the pairs of one list and then those of another is setting the pairs of their concatenation. |
| Markup.SetAllKeepsNames | source/schediazo/attributes.py:62-66 | Setting never moves or drops a name already there. |
| Markup.SetAllOther | source/schediazo/attributes.py:62-66 | A name that none of the pairs sets keeps its value. |
| Markup.SetAllLast | source/schediazo/attributes.py:62-66 | The pair set last answers for its name, whatever was set before it. |
| Attributes.WrittenSpec | source/schediazo/attributes.py:62-65 | A writer of optional fields writes exactly its set candidates' names, in the order it tests them, each once, and each reads back as its value when set and is absent when not. |
| Attributes.StylingWrites | source/schediazo/attributes.py:62-65 | `Styling` writes `style` exactly when a style is set and `class` exactly when a class is set, in that order, and nothing else. |
| Attributes.TransformWrites | source/schediazo/attributes.py:96-97 | `Transform` writes `transform` as the affine transform's string exactly when one is set, and nothing else. |
| Attributes.StrokeWrites | source/schediazo/attributes.py:202-207 | `Stroke` writes `stroke`, `stroke-dash-array` (each length followed by one space) and `stroke-width`, each exactly when set, in that order, and nothing else. |
| Attributes.StrokeWritesThree | source/schediazo/attributes.py:145-208 | The offset, line cap, line join, mitre limit and opacity are stored but never written: strokes that agree on colour, dashes and width write the same. |
| StrokeProperties.StrokeAllSetWritesThree | source/schediazo/attributes.py:202-207 | With every stroke field set, three attributes are written. None of them is `stroke-dasharray`, `stroke-dashoffset`, `stroke-linecap`, `stroke-linejoin`, `stroke-miterlimit` or `stroke-opacity`. |
| StrokeProperties.StrokeWritesIntended | source/schediazo/attributes.py:193-195 | The documented writer sets each of the eight SVG stroke properties exactly when its field is set, each name once, with the cap and join as their SVG keywords. |
| StrokeProperties.StrokeAllSetWritesEight | tests/test_attributes.py:93-109 | With every field set, the documented writer writes eight attributes, as the test expects. |
| StrokeProperties.WrittenAllSet | source/schediazo/attributes.py:202-207 | When every candidate field is set, each one is written. |
| Attributes.FillWrites | source/schediazo/attributes.py:241-244 | `Fill` writes `fill` and then `fill-opacity`, each exactly when set; the opacity is handed over as the number itself. |
| Attributes.ClipWrites | source/schediazo/attributes.py:274-275 | `Clip` writes `clip-path` as `url(#` + id + `)` exactly when a clip path is set, and nothing else. |
| Attributes.Writes | source/schediazo/attributes.py:50-276 | Each mixin writes only names of its own kind, each once. |
| Chains.ChainWrites | source/schediazo/attributes.py:16-29 | A chain of mixins in method resolution order writes only names its mixins or its base may write. |
| Chains.ChainAvoids | source/schediazo/attributes.py:16-29 | A name no mixin of the chain and not the base may write is never written. |
| Chains.ChainEndsWithBase | source/schediazo/attributes.py:16-29 | The base's writes come last, after everything the mixins write. |
| Chains.KindsSeparate | source/schediazo/attributes.py:50-276 | Two different kinds of the library's own mixins never share an attribute name. |
| Chains.ChainFresh | source/schediazo/attributes.py:66 | On a fresh element, a chain of separate mixins leaves its writes as written, each name once: no mixin overwrites another's. |
| Chains.ChainLookup | source/schediazo/attributes.py:98 | In a separate chain, a name a mixin owns reads as that mixin wrote it. |
| Chains.ChainBase | source/schediazo/attributes.py:276 | In a separate chain, the names the base writes read as the base wrote them. |
| Chains.StylingTest | tests/test_attributes.py:53-62 | With nothing set, `Styling` leaves the element without attributes; with both set it gives exactly `style` and `class` with the test's values. |
| Chains.ClipTest | tests/test_attributes.py:41-44 | A clip path named `hello` is written as `url(#hello)`. |
| Elements.CoreWrites | source/schediazo/elements.py:42-48 | `Core` writes `id`, `style` and `class`, each exactly when set, and nothing else. |
| Elements.Own | source/schediazo/elements.py:42-106 | Each element mixin writes only its own names, each once. |
| Elements.ChainStops | source/schediazo/elements.py:42-58 | A chain writes what its mixins up to and including the first one that does not delegate write, and nothing after it. |
| Elements.ChainDelegates | source/schediazo/elements.py:70-107 | A run of delegating mixins writes all of them, followed by what the rest of the chain writes. |
| Elements.ShapeChainWrites | source/schediazo/shapes.py:10 | The shapes' chain stops at `Transform`: it writes stroke, then fill, then transform attributes. |
| Elements.ShapeChainNames | source/schediazo/shapes.py:10 | The shapes' chain names each attribute once, and all of them are stroke, fill or transform attributes. |
| Elements.ShapeChainOmits | source/schediazo/elements.py:56-58 | The shapes' chain never writes a clip path, id, style or class, whatever they are set to. |
| Elements.CreateChildElements | source/schediazo/elements.py:14-17 | Each child creates its element under the root in list order, after the root's existing children; nothing else changes. |
| Elements.NoChildren | source/schediazo/elements.py:7-8 | An element with no children of its own leaves its new element as it is. |
| Elements.Create | source/schediazo/shapes.py:18-22 | Creating an element appends one new child with the given tag and attributes and nothing else to the root. |
| Shapes.PointsTruncates | source/schediazo/shapes.py:93-94 | The `points` string stops at the shorter list: the extra entries of the longer one are dropped. |
| Shapes.PointsAppend | source/schediazo/shapes.py:112-113 | One more pair adds its `x,y ` at the end of the `points` string. |
| Shapes.GeometryWrites | source/schediazo/shapes.py:24-113 | A shape's geometry attributes name each attribute once, all of them among `cx`, `cy`, `r`, `rx`, `ry`, `x`, `y`, `w`, `h` and `points`. |
| Shapes.ShapeAttributes | source/schediazo/shapes.py:24-28 | A shape's attributes are its geometry, then its stroke, fill and transform attributes, each name once. |
| Shapes.ShapeOmits | source/schediazo/shapes.py:10 | A shape never carries a clip path, id, style or class, whatever it was given. |
| Shapes.GeometryWritten | source/schediazo/shapes.py:47-52 | Every geometry attribute reads back in the element as the geometry wrote it. |
| Shapes.GeometryValues | source/schediazo/shapes.py:24-76 | Which attribute holds which value: a circle's `cx`, `cy`, `r`; an ellipse's `cx`, `cy`, `rx`, `ry`; a rectangle's `x`, `y`, `w`, `h`; a poly-shape's `points`. |
| Shapes.CreateElement | source/schediazo/shapes.py:18-22 | A shape appends one childless element under the root with its tag. Its attributes are the geometry, then stroke, fill and transform, each name once. Each geometry value reads under its own name, and no clip path, id, style or class is ever written. |
| Shapes.ShapeLookups | source/schediazo/shapes.py:24-113 | Each geometry value reads back under its own name in the shape's attributes. |
| Shapes.TriangleVertices | source/schediazo/shapes.py:124-128 | The triangle's vertex lists have four entries each, and the last vertex repeats the first. |
| Shapes.EquilateralTriangle | source/schediazo/shapes.py:118-128 | An equilateral triangle is a closed four-vertex `polygon`. |
| Shapes.TriangleEquilateral | source/schediazo/shapes.py:124-128 | With c the positive root of c² = 3/4, all three edges have length `side`. |
| Shapes.TriangleSymmetric | source/schediazo/shapes.py:127-128 | The triangle is symmetric about x = x0 with its apex on that line. Its base is horizontal and `side` wide, below the apex for a positive side. |
| Shapes.TriangleOffset | source/schediazo/shapes.py:125-128 | The offset 1/(2c) does not scale with the side: the apex is at y0 − 1/(2c) − (c/2)·side, and the middle of the height at y0 − 1/(2c). |
| Paths.CommandStr | source/schediazo/paths.py:67-120 | Each command's token carries its command letter; only `CurveTo`'s token starts with a space. |
| Paths.TokenReadsBack | source/schediazo/paths.py:67-120 | A token's letter reads back, as section 8.3 of SVG 1.1 reads it, as the command's kind and whether it is relative. |
| Paths.NewMoveTo | source/schediazo/paths.py:62-65 | `MoveTo` keeps its coordinates and is relative whatever `relative` was passed. |
| Paths.NewLineTo | source/schediazo/paths.py:75-78 | `LineTo` keeps its coordinates and is relative whatever was passed. |
| Paths.NewHorizontalLine | source/schediazo/paths.py:87-89 | `HorizontalLine` keeps its coordinate and is relative whatever was passed. |
| Paths.NewVerticalLine | source/schediazo/paths.py:99-101 | `VerticalLine` keeps its coordinate and is relative whatever was passed. |
| Paths.AlwaysRelative | source/schediazo/paths.py:65 | Every constructed move, line, horizontal line and vertical line renders with a lower-case, relative letter. |
| Paths.Add | source/schediazo/paths.py:19-20 | `add` appends exactly one command at the end and leaves the earlier ones unchanged. |
| Paths.HelperCommand | source/schediazo/paths.py:22-47 | The two relative helpers for horizontal and vertical lines raise `TypeError`; every other helper builds a command of its own kind. |
| Paths.CallHelper | source/schediazo/paths.py:22-47 | A helper either appends one command of its kind at the end, or raises `TypeError` before anything is appended. |
| Paths.HelpersAsWritten | source/schediazo/paths.py:34-44 | Every command a helper appends, except the curve, is relative, and `vertical_line(x, y)` draws to `x`. |
| Paths.FixedCommand | source/schediazo/paths.py:22-47 | The corrected helpers build a command of the kind their name says, relative exactly for the `_relative` helpers. |
| Paths.CallHelperFixed | source/schediazo/paths.py:22-47 | A corrected helper appends one command and keeps the earlier ones. |
| Paths.HelpersFixed | source/schediazo/paths.py:22-47 | With the corrected constructors and helpers, the appended command's token reads as the helper's kind, relative exactly for `_relative`, with a horizontal line to `x` and a vertical line to `y`. |
| Paths.Position | source/schediazo/paths.py:13-17 | An index names a position exactly when −n ≤ index < n, and a negative index counts from the end. |
| Paths.GetItem | source/schediazo/paths.py:13-14 | Reading an index raises `IndexError` exactly when it names no position, and otherwise returns one of the path's commands. |
| Paths.SetItem | source/schediazo/paths.py:16-17 | Writing an index raises `IndexError` exactly when it names no position, and otherwise keeps the path's length and style. |
| Paths.SetThenGet | source/schediazo/paths.py:13-17 | A stored command reads back at its index and at every index naming the same position; all other positions keep their commands. |
| Paths.GetThenSet | source/schediazo/paths.py:13-17 | Storing what an index already holds changes nothing. |
| Paths.NegativeIndex | source/schediazo/paths.py:13-14 | Index i and index i − n name the same command. |
| Paths.CreateElement | source/schediazo/paths.py:49-57 | Creating a path's element always raises `TypeError`, after an empty `path` element has already been attached to the root. |
| Paths.JoinedConcat | source/schediazo/paths.py:56 | Joining command tokens distributes over concatenation of command lists. |
| Paths.PathDataAdd | source/schediazo/paths.py:19-20 | Adding a command puts its token, followed by `, `, just before the closing ` Z`; an empty path's data is ` Z`. |
| Paths.FixedAttributesSpec | source/schediazo/paths.py:55-57 | With the data joined as intended, the path carries `d` first and then exactly the stroke, fill and transform attributes, each name once. |
| Paths.CreateElementFixed | source/schediazo/paths.py:49-53 | With the data joined as intended, the appended `path` element has no children. Its first attribute is `d`, holding each command's token followed by ` Z`. Exactly the stroke, fill and transform writes follow, each name once. It never carries a clip path, id, style or class. |
| Texts.TextOwn | source/schediazo/text.py:51-60 | `Text` writes `x`, `y`, `dx` and `dy` each exactly when set, and `rotate` as each angle followed by one space exactly when set. |
| Texts.CreateText | source/schediazo/text.py:40-61 | A text part appends one childless `text` element holding its string. The element carries x, y, dx, dy and rotate first. Each reads as given (absent when unset) unless the given rendering or font attributes name it. The id is always its own. |
| Texts.IdLast | source/schediazo/part.py:65-73 | The id is the last attribute written, so it reads as the part's id whatever else the chain wrote. |
| Texts.TextChainAvoids | source/schediazo/text.py:11 | None of the library's mixins of `Text`, nor the id, writes one of `Text`'s own names. |
| Texts.TextOwnWritten | source/schediazo/text.py:50-61 | `Text` writes its own attributes first, in the order x, y, dx, dy, rotate. Each reads as `Text` set it unless the given rendering or font attributes name it too. |
| Texts.TextPathOwn | source/schediazo/text.py:121-128 | `TextPath` writes `href`, `side`, `startOffset` and `path`, each exactly when set. |
| Texts.CreateTextPath | source/schediazo/text.py:106-109 | A text path appends an attribute-less `text` element holding one childless `textPath` element, which carries the string. `href`, `side`, `startOffset` and `path` come first. Each reads as given unless the given rendering attributes name it. The id is always its own. |
| Texts.TextPathChainAvoids | source/schediazo/text.py:65 | None of the library's mixins of `TextPath`, nor the id, writes one of its own names. |
| Texts.TextPathOwnWritten | source/schediazo/text.py:120-129 | `TextPath` writes its own attributes first, each reading as set unless the given rendering attributes name it too. |
| Containers.GroupAttributesSpec | source/schediazo/containers.py:16-24 | A group carries its clip reference, when it has one, and then its id. |
| Containers.ClipPathAttributesSpec | source/schediazo/containers.py:51-53 | A clip path carries `clipPathUnits` exactly when units were given, and then its id. |
| Containers.CreateGroup | source/schediazo/containers.py:7-14 | `create_element(root)` appends exactly one `g` element to `root`, carrying the group's id and its `url(#…)` clip reference when one is set. The element stays attached even when a part then raises. |
| Containers.CreateClipPath | source/schediazo/containers.py:28-41 | `create_element(root)` appends exactly one `clipPath` element to `root`, carrying its id and `clipPathUnits` exactly when units were given. The element stays attached even when a part then raises. |
| Containers.GroupChildren | source/schediazo/part.py:139-156 | Over a consistent group, the `g` element's children are the parts' subtrees in drawing order. Creation raises exactly when some part raises, and then the children stop at the first part that raised, whose partial subtree is kept last. |
| Containers.ClipPathChildren | source/schediazo/part.py:139-156 | The same for a clip path. |
| Containers.LeafAttaches | source/schediazo/text.py:106-108 | Under any parent, each leaf part's `create_element` appends exactly one subtree and raises nothing: a text its `text` element, a text path its outer `text` element. |
| Containers.GroupAfterSoleDelRaises | source/schediazo/part.py:152-156 | After `del g[k]` of a group's sole part, `create_element` still appends the `g` element under `root`, with no children, and raises `KeyError`: the stale head yields `k`, which the dict no longer holds. |
| Maths.Clip | source/schediazo/maths.py:4-21 | With ordered bounds the result lies between them, equals x inside them and the nearer bound outside; with reversed bounds it is always the lower bound. |
| Maths.ClipIdempotent | source/schediazo/maths.py:21 | Clipping a clipped value changes nothing, whatever the bounds. |
| Maths.ClipMonotone | source/schediazo/maths.py:21 | A larger value never clips to a smaller one. |
| Units.New | source/schediazo/units.py:4-5 | A conversion built from a length in metres counts 72 points per 0.0254 m. |
| Units.DefaultRatios | source/schediazo/units.py:14-17 | An inch is exactly 72 points; a centimetre is ten millimetres, a metre a hundred centimetres, an inch 25.4 millimetres. |
| Units.Linear | source/schediazo/units.py:7-11 | Multiplying from either side gives the same length, and conversion is linear. |
| Units.SameLength | source/schediazo/units.py:3-17 | A length converts to the same number of points through any unit it is expressed in. |
| Paper.Value | source/schediazo/_paper.py:33-43 | Each size is a (short, long) pair with 0 < short < long, each side converted from millimetres through `mm`. |
| Paper.Halving | source/schediazo/_paper.py:33-43 | Each next size's long side is this size's short side, and its short side is half this long side rounded down to the millimetre (ISO 216). |
| Paper.Examples | source/schediazo/_paper.py:33-37 | A0 is 841 × 1189 mm, and A4 comes to 75600/127 × 106920/127 points. |

## Left out

- `align.py`: floating-point gradient descent over numpy trigonometry, which cannot be stated exactly.
- `drawing.py`: `save` is ElementTree writing, gzip and CSS parsing. Its ordering behaviour is that of `PartDict`, which is modelled.
- `image.py`: PIL encoding, base64 and file writes.
- `core.py`: an older drawing class that wraps ElementTree and gzip.
- `svg.py`: an enum.
- `__init__.py`: re-exports only, some of them of names (`Line`, `RawPath`, `HlineTo`, …) that no library file defines.
- `paths.orig.py`: a superseded path builder that nothing imports.
- `examples/*`: scripts that write files.
- `generate_id` (part.py:10-20) draws random UUIDs, so ids are parameters of the model.
- ElementTree serialisation is left out: an element is the tuple described above.
- Float-to-string formatting is the caller-supplied `num`.
- Floating-point rounding is left out: all arithmetic is exact over `real`. `units.py` computes `m*72/25.4e-3` in binary floating point, so the source's "exactly 72 points per inch" holds only up to rounding.
- Trigonometry (degrees to radians, `math.cos` and friends) is a caller-supplied `Trig` record. The rotation and skew matrices are stated in its terms.
- `Affine.__getitem__`/`__setitem__` (transforms.py:15-25), numpy row indexing of the matrix, is not modelled.
- `GdalTransform` (transforms.py:246-249) is not modelled.
- `Font`, `TextRendering` and `RawPath` are imported by `text.py` but not defined in any library file, so `text.py` cannot be imported as it stands. The model takes what `TextRendering` and `Font` write as given attribute lists, and a path as its already-rendered string.
- `paths.py` names `MoveTo` and the other command classes in annotations at lines 16 and 19, before they are defined. Before Python 3.14, annotations are evaluated when the method is defined, so importing the module raises `NameError`. The model treats the module as if it were importable.
- Part.Emit: a walk of the links that never ends has no result. Every member over such a walk requires that it ends (`!Endless?`); that is always true of consistent containers, as Containers.GroupChildren shows. In Python such a loop runs until a part raises.
- Part.Emit: each part's `create_element` is a `render` function supplied by the caller. It gives the subtree the part attaches to the container's element and the exception it raises. Containers.LeafAttaches ties it to the text and text-path models, and Part.EmitAttachesOne shows that a nested container fits it too. A single part type covering leaves and nested containers together is not modelled.
- Shapes and paths as parts: `Circle`, `Rect`, `Path` and the other shapes derive from `elements.Element`, not from `PartBase` (shapes.py:10, paths.py:7). So `PartDict.__setitem__` rejects them with `TypeError` (part.py:183-184, PartOrder.SetItemSpec). `PartDict.add` fails even earlier, reading `part.id`, which `elements.Core` never defines (elements.py:36-41). The repository's example scripts (example_shapes.py, pencil_logo.py) add shapes to a drawing and so stop there. The model lets no container hold a shape or a path, and does not model `add` of a non-part beyond `SetItem`'s `TypeError`.
- Maths.Clip: NaN is not modelled, because reals have none.
- Transforms.Transform, Transforms.TransformBatch: a call with one list and one scalar is not modelled; the model takes either two numbers or two lists. In the source such a call skips the batch branch and hands the ragged `[u, v, 1.0]` to `np.matmul`, which rejects it (transforms.py:39-51).
- The test expectations that the source does not implement are not modelled:
  - `tests/test_attributes.py`: validation errors, opacity clamping, `Font`/`TextRendering`, and a default `fill="none"`; the five stroke attributes the code never writes are a finding below. The module cannot run against this source at all:
    - line 5 imports `ureg`, `pt` and `px`, which units.py does not define;
    - its `Test*` wrappers (lines 11-33) pass `device_per_length` and `device_per_pixel` to mixins whose `set_element_attributes` takes only the element (attributes.py:50, 264).
    Chains.StylingTest and Chains.ClipTest therefore state the test's expectations against the mixins directly;
  - `tests/test_units.py`: `_tostr`, `px` and `percent`.
- The `PaperSize` docstring gives A1 as 594x811 mm (_paper.py:12). The model follows the value, 594 × 841 (_paper.py:34).
- `Rect` writes its size as `w` and `h` (shapes.py:74-75), as modelled. Section 9.2 of SVG 1.1 names these attributes `width` and `height`, so renderers ignore them. Only the as-written form is modelled.
- StrokeProperties.StrokeWritesIntended: the corrected stroke writer stands beside the as-written one. The shape and text chains keep the as-written `StrokeWrites`. It writes the opacity as given, not clamped to 1.0 as tests/test_attributes.py:108 expects.
- The shape chain's `Clip` and `Core` mixins never run (elements.py:56-58 stop the chain at `Transform`), so shapes and paths drop any clip path, id, style or class they were given. This is modelled as written (Shapes.ShapeOmits), not corrected.

## Findings

| source | as written | input that shows it | evidently intended | confidence | as-written member | corrected member |
|---|---|---|---|---|---|---|
| source/schediazo/part.py:384-389 | Removing the sole node assigns `__back`/`__front` instead of clearing head and tail | `d["a"] = p; del d["a"]; list(d)` yields `"a"` and then raises `KeyError` | clear head and tail so that the container is empty | not executed | ListOrder.RemoveSoleLeavesStale | ListOrder.RemoveFixedValid |
| source/schediazo/part.py:553-558 | A step toward the tail removes the key, then re-inserts it through `_list_insert_after`, which does nothing while one node is left (line 435) | two keys `a`, `b`; `moveforward("a")` leaves iteration yielding only `b` | exchange the two keys | not executed | ListOrder.MoveTowardsTailOfTwoDropsKey | ListOrder.MoveTowardsTailFixedValid |
| source/schediazo/part.py:579-584 | A step toward the head re-inserts through `_list_insert_before`, which does nothing while one node is left (line 472) | two keys `a`, `b`; `movebackward("b")` leaves iteration yielding only `a` | exchange the two keys | not executed | ListOrder.MoveTowardsHeadOfTwoDropsKey | ListOrder.MoveTowardsHeadFixedValid |
| source/schediazo/transforms.py:235-239 | The six slots of `matrix(...)` take the first six of nine entries read column by column | `sixmatrix(3, 1, -1, 3, 30, 40)` renders `matrix(3 1 0 -1 3 0)` | `matrix(a b c d e f)` in the sense of section 7.6 of SVG 1.1 | not executed | Transforms.SixMatrixStrWrong | Transforms.OpStrFixedDenotes |
| source/schediazo/transforms.py:200-205 | The same six-slot fill for `Shear` | `shear(2, 0)` renders `matrix(1 0 0 2 1 0)`, which SVG reads as a stretch of y by 2 and a shift of x by 1, not a shear | the SVG six-number form of the shear matrix | not executed | Transforms.ColumnSlotsLoseMatrix | Transforms.SvgRoundTrip |
| source/schediazo/paths.py:65 | `self._relative = bool` stores the type, which is always true (likewise lines 78, 89, 101) | `move_to(1, 2)` renders `m 1 2`, a relative move | store the `relative` argument | not executed | Paths.AlwaysRelative | Paths.HelpersFixed |
| source/schediazo/paths.py:38 | `HorizontalLine(x, y, relative=True)` passes `relative` twice (likewise line 44) | `horizontal_line_relative(1, 2)` raises `TypeError` | build a relative line | not executed | Paths.CallHelper | Paths.HelpersFixed |
| source/schediazo/paths.py:41 | `VerticalLine(x, y)` takes `x` as the coordinate and `y` as the relative flag | `vertical_line(5, 7)` draws to 5, relative | a vertical line to `y` | not executed | Paths.HelpersAsWritten | Paths.FixedCommand |
| source/schediazo/paths.py:56 | `[...] + ' Z'` adds a string to a list | any `Path`'s `create_element` raises `TypeError` | join the tokens, then append ` Z` | not executed | Paths.CreateElement | Paths.PathDataAdd |
| source/schediazo/attributes.py:202-207 | `Stroke` writes only `stroke`, `stroke-dash-array` and `stroke-width`, although its docstring (lines 193-195) lists the line cap, line join, mitre limit and opacity too | every field set, as in tests/test_attributes.py:93-100: three attributes are written where the test expects eight, and none of them is `stroke-dasharray` | write all eight stroke properties under their SVG names | not executed | StrokeProperties.StrokeAllSetWritesThree | StrokeProperties.StrokeWritesIntended |
