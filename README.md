# light_ungod lighting core in Dafny

This project models the discrete logic of the 2D lighting module of the ungod engine
(`Light.cpp` / `Light.h`). A point light casts soft shadows from convex light colliders.
For each collider it does the following:

- classifies every vertex as front or back facing under two criteria;
- records the silhouette boundaries where the classification changes around the polygon;
- walks penumbra wedges out from each inner boundary, vertex by vertex, passing brightness along the chain;
- records the outer boundary each walk ends on;
- emits the draw calls for the shadows: a silhouette, an antumbra pass or a plain shadow quad, then one unshadow triangle per wedge;
- last, recolours and redraws every collider.

Around the light itself the module keeps three kinds of state:

- the active flag every light and collider carries;
- the collider's point store;
- the ambient colour, which interpolates toward a target with one fractional carry per channel.

There are also two flicker affectors, which grow and shrink the light's sprite scale.

The floating-point kernel enters the model as data, not computation. That kernel covers transforms, vector normalisation, the arccosine angle tests and the ray intersection test.

- Each vertex brings a `VertexView`:
  - its transformed position;
  - the two tangent rays through it;
  - the four dot-product signs of the facing test;
  - the finite list of angle ratios of the penumbra walk that starts there.
- Each collider brings the results of the two ray intersection tests of the render pass.
- The flicker affectors get the clock reading in milliseconds and the random factor in [0.5, 1] per tick; the ambient interpolation gets its strength per call.

The modules, in dependency order:

| file | module | contents |
|---|---|---|
| geometry.dfy | Geometry | vectors, cyclic next/previous vertex |
| colors.dfy | Colors | 8-bit channels with wrap-around, `Color` |
| facing.dfy | Facing | facing criteria, the cyclic boundary scan, parity and alternation of boundaries |
| lights.dfy | Lights | classes `BaseLight`, `LightCollider`, `PointLight` (inheritance from `BaseLight` becomes a `base` field) |
| penumbras.dfy | Penumbras | `getPenumbrasPoint`: facing loop, scans, boundary vectors, the penumbra walk, closed-form specification of all outputs |
| rendering.dfy | Rendering | `unmaskWithPenumbras` and `PointLight::render` as a trace of abstract draw commands over collider objects |
| flickering.dfy | Flickering | `LightFlickering`, `RandomizedFlickering` as classes, with pure step functions and run lemmas |
| lightsystem.dfy | LightSystems | `LightSystem` ambient colour state, `interpolateAmbientLight`, `setPoint`, `setPoints` |

The code is imperative where the source changes state:

- the walk appends to sequences and swaps brightness with the last wedge in place;
- it overwrites outer slots in place;
- the render pass and the setters change collider objects;
- the flicker methods change the affector and the light;
- the ambient interpolation changes the system.

Each such method is proved equal to a closed-form specification function, and the properties are proved as lemmas about those functions.

All source cells below are paths relative to the repository's source directory.

## Model

| member | source | states |
|---|---|---|
| Geometry.Next | Light.cpp:382 | the vertex after `i` is `(i + 1) mod n`, always a vertex |
| Geometry.Prev | Light.cpp:503 | the vertex before `i` is `(i - 1) mod n`, always a vertex |
| Geometry.NextPrevInverse | Light.cpp:499-503 | stepping forward and then back, or back and then forward, returns to the same vertex |
| Colors.Increment | Light.cpp:880 | `++` on an 8-bit channel adds one and wraps 255 to 0 |
| Colors.Decrement | Light.cpp:885 | `--` on an 8-bit channel subtracts one and wraps 0 to 255 |
| Facing.FacingBothEdges | Light.cpp:416-417 | the both-edges criterion holds exactly when both rays at one end are on the lit side, and it implies the one-edge criterion |
| Facing.ScanBoundaries | Light.cpp:421-452 | the two scan loops record exactly the specified boundaries, each with the flag at that vertex as its winding |
| Facing.BoundaryExactly | Light.cpp:421-435 | a vertex is recorded exactly when its flag differs from its cyclic predecessor's |
| Facing.BoundariesOrdered | Light.cpp:421-435 | the recorded indices ascend, and 0, when recorded, comes last |
| Facing.ScanPrefixParity | Light.cpp:421-428 | the linear scan over the first k flags records an odd number of changes exactly when the flag at k - 1 differs from the flag at 0 |
| Facing.BoundaryCountEven | Light.cpp:421-452 | the number of boundaries of either criterion is even, so never exactly one |
| Facing.WindingsAlternate | Light.cpp:426-434 | consecutive windings differ, also from the last back to the first, so two boundaries carry opposite windings |
| Penumbras.FacingFlags | Light.cpp:379-418 | the facing loop yields one flag of each criterion per vertex, and the both-edges flag implies the one-edge flag |
| Penumbras.Visit | Light.cpp:497-503 | every vertex a walk visits is a vertex of the collider |
| Penumbras.VisitClosedForm | Light.cpp:497-503 | after j steps the walk is at `start + j` (winding false) or `start - j` (winding true), modulo the vertex count |
| Penumbras.StopVertex | Light.cpp:557-576 | the vertex where the walk stops is a vertex of the collider |
| Penumbras.Chain | Light.cpp:491-648 | a walk with m continuing ratios emits m + 1 wedges, the first one's light edge being the inner boundary vector just pushed |
| Penumbras.ChainGeometry | Light.cpp:507-543 | wedge j sits on the j-th visited vertex, and each wedge's light edge is the previous wedge's dark edge |
| Penumbras.ChainBrightness | Light.cpp:495-567 | the brightness pairs are (1, 0) for m = 0, and otherwise (r0, r1), ..., (r(m-1), 0) and then (1, r0), because of the swaps with the last wedge |
| Penumbras.SwapKeepsGeometry | Light.cpp:536-540 | a swap-and-push trades only the brightness of the last wedge with the new one; every other field and every earlier wedge is kept |
| Penumbras.AppendWedge | Light.cpp:536-647 | the swap with `penumbras.back()` followed by `push_back` yields the specified list |
| Penumbras.ContinueAppend | Light.cpp:527-543 | a continuing step extends the partial chain by one wedge |
| Penumbras.StopAppend | Light.cpp:557-567 | the stopping step completes the partial chain into the whole chain |
| Penumbras.MarkStop | Light.cpp:551-573 | a walk's bookkeeping keeps the length of the outer lists |
| Penumbras.OuterAdvance | Light.cpp:551-555 | a continuing step rewrites the walk's outer slot with the new vertex and the edge just walked |
| Penumbras.OuterFinish | Light.cpp:637-641 | the stopping step leaves the stop vertex and its outer ray in the walk's slot |
| Penumbras.WalkPenumbra | Light.cpp:491-648 | the walk loop appends exactly the chain of its start vertex and leaves its outer slot (0 for winding false, 1 for true) holding the stop vertex and that vertex's outer ray |
| Penumbras.OuterBoundaryVectors | Light.cpp:455-468 | one outer boundary vector per outer index, the tangent ray the winding selects |
| Penumbras.OuterStart | Light.cpp:437-468 | the outer lists have the same length and never exactly one entry, so slot 1 exists whenever they are non-empty |
| Penumbras.InnerVectors | Light.cpp:482 | one inner boundary vector per inner boundary |
| Penumbras.ScanCollider | Light.cpp:372-468 | the part before the walks yields the specified boundaries and vectors, and never exactly one inner boundary, so the branch at Light.cpp:485-488 is dead |
| Penumbras.WalkAll | Light.cpp:470-649 | the loop over inner boundaries pushes one inner vector per boundary and then appends that walk's chain |
| Penumbras.GetPenumbrasPoint | Light.cpp:351-650 | the whole function: the inner indices, the appended inner vectors and wedges, and the outer lists equal their closed forms; with no points nothing changes |
| Penumbras.NoPointsNoOutput | Light.cpp:361-362 | a collider without points adds nothing to any output list |
| Penumbras.WalksAtLeastOneEach | Light.cpp:497-647 | every walk adds at least one wedge |
| Penumbras.WedgesExactlyWithBoundaries | Light.cpp:470-649 | there are at least as many wedges as inner boundaries, and no wedge exactly when there is no inner boundary |
| Penumbras.WalksBrightnessInUnit | Light.cpp:529-531 | with ratios in [0, 1] the walks from any number of starts produce brightness values in [0, 1] |
| Penumbras.WedgeBrightnessInUnit | Light.cpp:597-599 | with ratios in [0, 1] every wedge brightness lies in [0, 1], as the commented-out asserts expect |
| Penumbras.MarksInRange | Light.cpp:569-573 | the walks only write vertex indices into the outer index list |
| Penumbras.FinalOuterInRange | Light.cpp:551-555 | every outer index left behind is a vertex of the collider |
| Penumbras.ChainEnds | Light.cpp:557-576 | the last wedge sits on the stop vertex with that vertex's outer ray as dark edge, and this is what the walk leaves in its outer slot |
| Penumbras.TwoWalksFillBothSlots | Light.cpp:510-645 | with two inner and two outer boundaries the two walks have opposite windings and fill slot 0 and slot 1 each with their own stop vertex and ray |
| Lights.BaseLight.constructor | Light.cpp:34 | devices start active |
| Lights.BaseLight.SetActive | Light.cpp:36-39 | the flag becomes the argument |
| Lights.BaseLight.IsActive | Light.cpp:41-44 | returns the flag |
| Lights.BaseLight.ToggleActive | Light.cpp:46-49 | the flag flips, so two toggles restore it |
| Lights.LightCollider.constructor | Light.cpp:78-87 | a new collider is active, has the requested number of points at (0, 0), light-over-shape off and black fill |
| Lights.LightCollider.SetPointCount | Light.cpp:94-97 | resizing keeps the points below the new count and adds (0, 0) points; nothing else changes |
| Lights.LightCollider.GetPointCount | Light.cpp:99-102 | returns the number of points |
| Lights.LightCollider.SetPoint | Light.cpp:104-107 | overwrites exactly one point, keeping the count and all other points |
| Lights.LightCollider.GetPoint | Light.cpp:109-112 | returns the stored point |
| Lights.LightCollider.GetLightOverShape | Light.cpp:119-122 | returns the light-over-shape flag |
| Lights.LightCollider.SetLightOverShape | Light.cpp:124-127 | sets the flag and keeps points and colour |
| Lights.LightCollider.SetColor | Light.cpp:134-137 | sets the fill colour and keeps points and flag |
| Lights.PointLight.constructor | Light.cpp:141 | a new light is active with sprite scale (1, 1) |
| Rendering.Unmasked | Light.cpp:63-74 | one command per wedge |
| Rendering.UnmaskWithPenumbras | Light.cpp:51-75 | the loop emits the specified triangles |
| Rendering.UnmaskOnePerWedge | Light.cpp:63-74 | exactly one triangle per wedge, in order, on the given target and blend: first vertex the source, then the light and dark edges extended, texture coordinates (0, 1), (1, 0), (0, 0), and the wedge's brightness pair |
| Rendering.FinalPass | Light.cpp:281-298 | the final pass has one command per collider |
| Rendering.Plans | Light.cpp:185-279 | one first-pass plan per collider |
| Rendering.States | Light.cpp:191-207 | the render pass reads one active and light-over-shape state per collider |
| Rendering.Render | Light.cpp:151-301 | given one vertex view per collider point, emits the specified command trace, leaves every collider's fill white when light-over-shape is on and black otherwise, and changes no points or flags |
| Rendering.FirstPassMethod | Light.cpp:185-279 | the first loop emits each collider's plan in list order and changes only fill colours |
| Rendering.RenderCollider | Light.cpp:191-277 | one collider: shadow commands only when active with exactly two inner and two outer boundaries, after its black silhouette when light-over-shape is off |
| Rendering.ShadowPass | Light.cpp:211-277 | the branch structure over the lists getPenumbrasPoint returned yields the specified shadow commands |
| Rendering.FinalPassMethod | Light.cpp:281-298 | the final loop draws every collider with the light-over-shape shader and leaves it white or black accordingly |
| Rendering.PlanExactlyWhenProcessed | Light.cpp:191-209 | a collider yields first-pass commands exactly when it is active with two inner and two outer boundaries, and its silhouette comes first exactly when light-over-shape is also off |
| Rendering.ShadowDrawsNoCollider | Light.cpp:211-277 | the shadow commands never draw a collider |
| Rendering.ShadowBranches | Light.cpp:219-272 | the antumbra texture is cleared white exactly when the outer rays meet; then the mask is a triangle exactly when the inner rays meet too, and the pass ends by multiplying the antumbra onto the light; otherwise a single quad is masked on the light texture; one unshadow triangle per wedge either way |
| Rendering.ShadowBlendModes | Light.cpp:253-276 | penumbras are added onto the antumbra texture when the outer rays meet and multiplied onto the light texture otherwise |
| Rendering.FlattenEmpty | Light.cpp:185-279 | the first pass is empty exactly when every collider's plan is |
| Rendering.FlattenMembers | Light.cpp:185-279 | a command is in the first pass exactly when it is in some collider's plan |
| Rendering.PlanSilhouette | Light.cpp:205-209 | collider j's plan draws the black silhouette of collider i exactly when i is j, it is processed and light-over-shape is off |
| Rendering.FirstPassEmptyExactly | Light.cpp:185-203 | the first pass draws nothing exactly when no collider is active with two inner and two outer boundaries |
| Rendering.FirstPassSilhouettes | Light.cpp:191-209 | collider i's black silhouette is drawn exactly when it is processed and light-over-shape is off |
| Rendering.FinalPassCovers | Light.cpp:281-298 | the final pass draws collider i as its i-th command, including inactive and skipped ones, white when light-over-shape is on and black otherwise, with the light-over-shape shader |
| Rendering.RenderPlanShape | Light.cpp:178-300 | a render clears the light texture black and draws the light sprite first, displays the texture last, and redraws every collider in order just before that |
| Rendering.Layout | Light.cpp:281-300 | the position of every final-pass command in the whole trace |
| Flickering.FlickerStep | Light.cpp:670-687 | a LightFlickering tick reverses direction exactly when the timer has run longer than the period, and then restarts the timer |
| Flickering.FlickerKeepsAspect | Light.cpp:673-682 | both scale axes move by the same amount, so their difference never changes over any run |
| Flickering.FlickerPhaseLinear | Light.cpp:672-682 | between reversals n ticks of the same frame time move each axis by n times plus or minus strength * delta / period |
| Flickering.LightFlickering.constructor | Light.cpp:667 | starts shrinking with the given period and strength, timer started |
| Flickering.LightFlickering.Apply | Light.cpp:670-688 | one update equals the step function, with period and strength constant |
| Flickering.RandomizedStep | Light.cpp:697-724 | a reversal redraws the period as r * basePeriod and restarts the timer; otherwise both are kept |
| Flickering.FactorScales | Light.cpp:691 | a factor in [0.5, 1] times a positive base period is a period in range |
| Flickering.StepKeepsPeriod | Light.cpp:710-721 | a tick keeps the period within [0.5, 1] times the base period |
| Flickering.RandomizedPeriodStays | Light.cpp:710-721 | over any run the period stays within [0.5, 1] times the base period |
| Flickering.MemoTracksScale | Light.cpp:702-717 | the size memory always equals the net offset applied to each scale axis |
| Flickering.RandomizedKeepsBudget | Light.cpp:697-724 | a growing flicker is below its original size and never more than one tick's step above it; the timer may not end a shrink phase at or above the original size |
| Flickering.StartsWithinBudget | Light.cpp:690-694 | a new flicker, shrinking with empty size memory, starts within any non-negative budget |
| Flickering.RandomizedRunKeepsBudget | Light.cpp:697-724 | the size budget of `RandomizedKeepsBudget` holds after any run of budget ticks |
| Flickering.RandomizedFlickering.constructor | Light.cpp:690-694 | starts shrinking with empty size memory and a period r * basePeriod in range |
| Flickering.RandomizedFlickering.Apply | Light.cpp:697-724 | one update equals the step function and keeps the period in range |
| LightSystems.ChannelStep | Light.cpp:876-886 | one interpolation step changes a channel by at most one unit (with wrap-around) |
| LightSystems.RatioBounds | Light.cpp:876 | a distance no larger than the strength adds at most one to the carry, with the distance's sign |
| LightSystems.ChannelStepApproaches | Light.cpp:876-886 | with strength at least the distance: the carry stays in [-1, 1], the value moves only toward the target and never past it, stays put at the target, and moves exactly when the carry passes +1 or -1, by one unit of distance |
| LightSystems.ChannelRunApproaches | Light.cpp:873-909 | repeated calls approach the target: every value lies between the start and the target, the distance never grows and the carry stays in [-1, 1] |
| LightSystems.LightSystem.constructor | Light.cpp:727 | white ambient light, zero carries |
| LightSystems.LightSystem.SetAmbientColor | Light.cpp:868-871 | sets the ambient colour, keeps the carries |
| LightSystems.LightSystem.InterpolateAmbientLight | Light.cpp:873-909 | red, green and blue each take one channel step with their own carry; alpha is unchanged |
| LightSystems.LightSystem.SetPoint | Light.cpp:951-955 | overwrites exactly one point of the collider |
| LightSystems.LightSystem.SetPoints | Light.cpp:964-970 | the collider then holds exactly the given points, count included |

## Left out

- SFML rendering: render textures, views, sprites, shapes, shaders and blend effects are foreign library calls. They appear only as abstract commands, so pixel effects are not modelled.
- Floating-point geometry is not computed; its results are inputs. That covers `normalize`, `normalizeVector`, `std::acos`, `sf::Transform` composition and `transformPoint`, `getCastCenter`, `getBoundingBox` and `rayIntersect`, which is not part of this model. Coordinates are exact reals.
- The render pass reads collider points under `colliderTransform * colliderLocal` (Light.cpp:189-190), while getPenumbrasPoint uses `colliderLocal * colliderTransform` (Light.cpp:363-364). The model uses the one `VertexView.point` for both.
- The shadow extension (`mShadowOverExtendMultiplier` times the light's bounding box width plus height) is a parameter.
- Penumbras.WalkPenumbra: the source loop has no bound of its own. The walk is modelled by a finite list of continuing ratios per start vertex, so a walk that never stops cannot be represented.
- Penumbras.WalkPenumbra: the two winding branches of the source (Light.cpp:510-576 and 578-645) are merged into one loop body. Winding picks the step direction, the outer ray and the slot.
- Penumbras.GetPenumbrasPoint requires the boundary index lists and the outer vector list to be empty on entry. Its only caller clears or freshly creates them (Light.cpp:172, 193-196), and the walk indexes the local winding lists by position in the whole index list.
- The `distance` field of `Penumbra` is never assigned or read and is not modelled.
- Rendering: the final pass redraws every collider in the list, including inactive and skipped ones, as the code does.
- Flickering.RandomizedKeepsBudget and Flickering.RandomizedRunKeepsBudget: the bound is proved only for ticks with non-negative shift where the timer does not end a shrink phase while the light is at or above its original size (`BudgetTick`, for a run `BudgetRun`). A timer-ended shrink phase can start a growth above the original size, and LightFlickering has no size guard at all. So the bounding-rect promise (Light.h:239-243) is not proved in general.
- LightSystems.ChannelStep and LightSystems.LightSystem.InterpolateAmbientLight: a zero strength is excluded by a precondition (so is `LightSystems.ChannelRun`). The source divides by it without a guard (Light.cpp:876-905). In IEEE arithmetic a channel off its target then gets an infinite carry, moves one unit on every later call and wraps at 256. A channel on its target gets a NaN carry and never moves again, even after the target changes.
- LightSystems.ChannelStepApproaches and LightSystems.ChannelRunApproaches: no overshoot is proved only when the strength is at least the distance to the target. Below that the carry is not bounded by one, and the channel, as in the code, can step past the target and wrap at 256.
- Float rounding of the carries, the scale and the `int`-to-`float` comparisons is not modelled; reals are exact.
- Flickering.Shift: a zero period (a float division by zero in the source) is excluded by a precondition. The `RandomizedFlickering` constructor and `Apply` also require a positive base period (`PeriodInRange`), while the source accepts any float (Light.cpp:690-694). A negative base period gives a negative period, so every tick's timer test passes and the direction reverses on every tick; that case is not modelled.
- The clock (`sf::Clock`) is a millisecond reading `now` passed per call. The random generator (`NumberGenerator::getFloatRandBetw(0.5, 1)`) is a factor passed per call.
- `LightAffector` dispatch (Light.cpp:655-663, 847-866), the `getLight` accessors (Light.h:207-208) and entity access (`e.modify`, `e.has`) are left out. So are the quadtree queries and `FloatRect::intersects` filtering (Light.cpp:769-845), and the contents-changed signal emitted by `setPoint`/`setPoints`, `setLocalLightPosition` and `setLightScale`.
- The `MultiShadowEmitter` overloads of `setPoint`/`setPoints` (Light.cpp:957-962, 972-980) are left out. They do the same on the collider chosen by index.
- Texture and shader loading, `init`, `setImageSize` and logging (Light.cpp:303-312, 729-767) are I/O and are left out.
- The other `PointLight` sprite state (colour, position, source point, radius) is left out. So are the light setters (Light.cpp:911-949): `setLightColor` forwards to SFML, and `setLocalLightPosition` and `setLightScale`, in both overloads, forward to SFML and emit the contents-changed signal with the light's bounding box.
- Serialization declarations (Light.h:379-474) contain no logic and are left out.
