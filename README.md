# Animation engine of the cube-codes visualizer

The cube-codes visualizer draws a twisty cube with three.js and animates each
change of the cube's state. The cube-logic model library emits a
`stateChanged` event for every change. The visualizer turns each event into
one animation:
- an event that carries a move becomes a `MoveAnimation`, which turns the
  cubelets that change about the face's axis;
- any other event becomes a `BeamAnimation`, which fades the cube out, puts
  every cubelet into its new state at once and fades the cube back in.

The animations wait in a first-in, first-out queue. A frame loop runs at most
sixty times a second and steps the animation at the head of the queue with
the time since the last working frame. It removes that animation once it is
finished. The promise handed back to the model library settles when the
animation calls `resolve`.

This project models that engine in Dafny and proves what it promises.

| file | models |
|---|---|
| `utils.dfy` | `Utils`: the matrix layout `matrix4FromMatrix` and the cubelet keys `vectorId` / `vector3Id`. Coordinates are halves and the number text is that of JavaScript. |
| `scene.dfy` | The few three.js values the engine writes. Quaternions and positions are free terms. The canvas is modelled only by its opacity. |
| `timing.dfy` | The per-step share of the animation duration and the sum of elapsed times. |
| `cube_model.dfy` | The event and state values of the model library, the `reduce` that files states by key (`StatesByInitialLocation`) and the filter of changed states. |
| `cubelet_realisation.dfy` | `CubeletRealisation`: face limits, sticker colours, sticker numbers, mesh placement and the pose updates. |
| `cube_realisation.dfy` | `CubeRealisation`: the table of cubelets by initial location and its lookups. |
| `move_animation.dfy` | `MoveAnimation` and its state machine PENDING → MOVING → FINISHED. |
| `beam_animation.dfy` | `BeamAnimation` and its state machine PENDING → FADING_OUT → FADING_IN → FINISHED. |
| `animation_queue.dfy` | `AnimationQueue`. |
| `animation.dfy` | The `Animation` interface: either kind of animation, its `step`, and what one step draws. |
| `engine.dfy` | The `stateChanged` handler and the frame loop `animate`. |
| `legacy_visualizer.dfy` | The first versions of the cubelets and of both animations, still in `src/CubeVisualizer.ts`. |

## How the model is built

Each animation's progress is a pure specification:
- a move's progress is `MoveNext` / `MoveRun`: its state and the angle turned;
- a beam's progress is `BeamNext` / `BeamRun`: its state and the opacity.

The classes hold the fields the source updates in place. Each class keeps a
ghost record of the elapsed times it has been stepped with. Its invariant
says that its fields are the specification run on those times.

The timing theorems are proved about the specification functions and carry
over to the objects:
- a move finishes on the first step whose total exceeds the duration;
- a beam swaps past half the duration and finishes past the whole.

The frame loop keeps a queue invariant: every waiting animation is valid and
unfinished, and only the head has been stepped. The model proves that each
working tick steps only the head, and that it removes the head exactly when
that step finished it. `Animations.StepDrawn` says what that step drew:
- a turn moves only the cubelets that change, leaves the canvas alone, and on
  its completing step puts each of those cubelets exactly into its new state;
- a beam shows the opacity of the step on the canvas, and puts every cubelet
  into its new state on the swap and touches none otherwise.

The variables the `animate` closure keeps between calls (`startTime`,
`lastTime`, and the count of drawn frames) are a `Clock` value. `Animate`
takes the clock before the call and returns the clock after it.

The cubelet table of `CubeRealisation` is a `const` field, so it cannot
change after construction. The `initialLocation` of a cubelet is also a
`const`.

Four behaviours of the code are easy to miss:
- Both completion tests are strict (`>`), so an animation that reaches its
  target exactly is not yet finished. With exact arithmetic, a 300 ms turn
  stepped by 100 ms finishes on the fourth step, not the third
  (`MoveExactDurationDoesNotFinish`).
- In instant mode the first step covers the whole range but does not finish.
  The second step finishes (`MoveInstant`, `BeamInstant`).
- `removeCurrent` on an empty queue is a no-op, not an error.
- A move by angle 0 never finishes (`MoveZeroNeverFinishes`).

## Model

| member | source | states |
|---|---|---|
| Utils.Matrix4FromMatrix | src/Utils.ts:6-8 | The 3x3 components go row-major into the upper-left block; every entry of the fourth row and the fourth column is 0, the corner included. |
| Utils.Matrix4FromMatrixRoundTrip | src/Utils.ts:6-8 | Reading the upper-left 3x3 block back out of the 4x4 layout gives the original matrix, so no orientation is lost. |
| Utils.NumberToStringInjective | src/Utils.ts:10-12 | Two grid coordinates print to the same text exactly when they are equal. |
| Utils.JoinInjective | src/Utils.ts:10-12 | Three comma-free fields joined by commas determine the three fields. |
| Utils.VectorIdInjective | src/Utils.ts:10-12 | Two vectors get the same `vectorId` key exactly when their x, y and z are equal. |
| Utils.Vector3Id | src/Utils.ts:14-16 | `vector3Id` of a three.js vector with grid components is the `vectorId` of the model vector with the same components. |
| Scene.SetComponent | src/CubeletRealisation.ts:63 | Indices 0, 1 and 2 set x, y and z and keep the other two components; any other index is an error. |
| CubeModel.FileByKeyKeys | src/CubeRealisation.ts:10-13 | Filing a list by key gives exactly one entry per key that occurs in the list. |
| CubeModel.FileByKeyFiled | src/CubeRealisation.ts:10-13 | Every entry of the lookup is filed under its own key. |
| CubeModel.FileByKeyFrom | src/Animation/MoveAnimation.ts:30 | Every entry of the lookup is an element of the list it was built from. |
| CubeModel.FileByKeyLastWins | src/CubeRealisation.ts:11-13 | Where keys repeat, the lookup holds the last element with that key: later `Map.set` calls overwrite earlier ones. |
| CubeModel.StatesByInitialLocationFindsAll | src/Animation/MoveAnimation.ts:30 | When initial locations are distinct, every cubelet state of the new state is found under the key of its initial location. |
| CubeModel.ChangedByKey | src/Animation/MoveAnimation.ts:31 | A state is in the filtered list exactly when it is an old state that differs from the new state filed under its key. |
| CubeModel.ChangedStatesDistinct | src/Animation/MoveAnimation.ts:31 | Filtering keeps the initial locations of the changed states distinct. |
| Realisations.BuildTable | src/CubeRealisation.ts:10-13 | The constructor's loop files one cubelet per key of the states; each is built from the state that ends up under that key and shows it. |
| Realisations.CubeRealisation.constructor | src/CubeRealisation.ts:9-17 | The table is valid: keyed by the initial locations of the given states, later duplicates winning, and each cubelet shows its state. |
| Realisations.CubeRealisation.KeyFiled | src/CubeRealisation.ts:23-25 | The key of a location is in the table exactly when the location is an initial location, and the cubelet under it has that initial location. |
| Realisations.CubeRealisation.CubeletsDistinct | src/CubeRealisation.ts:10-13 | Distinct keys hold distinct cubelet objects. |
| Realisations.CubeRealisation.GetCubelet | src/CubeRealisation.ts:23-25 | `getCubelet` finds a cubelet exactly for the initial locations of the cube, and that cubelet has the given initial location; it finds nothing otherwise. |
| Realisations.CubeRealisation.GetCubelets | src/CubeRealisation.ts:19-21 | `getCubelets` yields one cubelet per distinct initial location and covers them all. |
| Realisations.CubeRealisation.CubeletsFor | src/Animation/MoveAnimation.ts:31 | The `map` to `getCubelet(...)!` gives, in order, a cubelet of the realisation with the same initial location for every state. |
| Realisations.CubeRealisation.AllCubeletsFiled | src/CubeRealisation.ts:19-25 | The cubelets' initial locations are exactly the cube's initial locations, and every cubelet is the one the table holds under its key. |
| Cubelets.Limits | src/CubeletRealisation.ts:18-19 | The limit of each component is 1 at the positive outer layer, -1 at the negative one and 0 inside. |
| Cubelets.LimitClassifies | src/CubeletRealisation.ts:19 | Whatever the coordinate, the limit is -1, 0 or 1. It is non-zero exactly on an outer layer. The +1 test comes first, so -1 occurs only when the two outer layers differ. |
| Cubelets.SingleCubeletLimits | src/CubeletRealisation.ts:18-19 | On a cube of edge length 1 every limit of the single cubelet is +1. |
| Cubelets.ColourIndexDistinct | src/CubeletRealisation.ts:73-78 | The colour index lies in 0..5, and two faces get the same colour exactly when they have the same dimension and direction. |
| Cubelets.PositionMesh | src/CubeletRealisation.ts:53-64 | Dimensions 0..2 place the mesh `direction * (EDGE_LENGTH/2 - depth/2 + out)` out along that dimension and at 0 on the others; any other dimension throws "Illegal dimension". |
| Cubelets.NumberCell | src/CubeletRealisation.ts:100-113 | `createNumber` computes a row and a column for dimensions 0..2 and throws "Illegal dimension" for any other. |
| Cubelets.NumberCellInRange | src/CubeletRealisation.ts:100-113 | For a location on the grid, the row and column are whole numbers from 0 to n-1. |
| Cubelets.NumberValueInRange | src/CubeletRealisation.ts:100-114 | For a location on the grid, `row * n + column + 1` is a whole number from 1 to n². |
| Cubelets.NumberCellDistinct | src/CubeletRealisation.ts:102-113 | Two distinct cubelets in the same layer of a dimension get different cells on that face. |
| Cubelets.NumberValueDistinct | src/CubeletRealisation.ts:102-114 | On one face, distinct cubelets on the grid carry distinct sticker numbers. |
| Cubelets.StickerPart | src/CubeletRealisation.ts:66-85 | A sticker faces its dimension and direction and has the colour `color[dimension + (direction === 1 ? 0 : 3)]`. |
| Cubelets.NumberParts | src/CubeletRealisation.ts:87-135 | `createNumber` adds a number mesh carrying the sticker number, then the line under it, both on the same face. |
| Cubelets.PartsBelowHave | src/CubeletRealisation.ts:23-30 | After the first k turns of the dimension loop, there is a sticker exactly for the dimensions below k with a non-zero limit, and a number on each of them exactly under a STRICT condition. Every sticker faces its limit's side. |
| Cubelets.CubeletPartsRule | src/CubeletRealisation.ts:21-30 | The base comes first. A cubelet has a sticker exactly for the dimensions with a non-zero limit, in that face's colour, and a number on each exactly when the solution condition is STRICT. |
| Cubelets.PartFromDimension | src/CubeletRealisation.ts:23-30 | Every part of a cubelet but the base was added by one turn of the dimension loop, for a dimension below the loop's bound. |
| Cubelets.DimensionPartPlaced | src/CubeletRealisation.ts:23-63 | A part added for a dimension faces that dimension's limit. A sticker sits `EDGE_LENGTH/2 - 0.2/2 + 0.005` out towards that side, and the number and its line sit `EDGE_LENGTH/2 - 0.05/2 + 0.01` out. |
| Cubelets.StickersStandProud | src/CubeletRealisation.ts:63-83 | Every sticker of a cubelet faces its limit's side and sits on that side of the centre, with its outer surface beyond the body's half edge. |
| Cubelets.NumbersStandOnStickers | src/CubeletRealisation.ts:63-132 | A number, and the line under it, face the same side as the sticker of their dimension, and their outer surface lies beyond the sticker's. |
| Cubelets.PoseDeterminesState | src/CubeletRealisation.ts:137-143 | Distinct locations give distinct positions and distinct orientations give distinct quaternions, and the position's `vector3Id` is the location's `vectorId`. |
| Cubelets.CubeletRealisation.constructor | src/CubeletRealisation.ts:13-34 | The initial location is fixed, the parts are those of the creation rule in the loop's order, and the cubelet shows the given state. |
| Cubelets.CubeletRealisation.SetLocation | src/CubeletRealisation.ts:137-139 | The position becomes the location's x, y, z; the orientation is kept. |
| Cubelets.CubeletRealisation.SetOrientation | src/CubeletRealisation.ts:141-143 | The quaternion is read from the orientation laid out by `matrix4FromMatrix`; the position is kept. |
| Cubelets.CubeletRealisation.ApplyQuaternion | src/Animation/MoveAnimation.ts:68 | The rotation is applied after the cubelet's current orientation. |
| Cubelets.CubeletRealisation.ApplyQuaternionToPosition | src/Animation/MoveAnimation.ts:69 | The cubelet's position is rotated by the same rotation. |
| Cubelets.CubeletRealisation.SetState | src/CubeletRealisation.ts:145-148 | Afterwards the cubelet shows exactly the new state's location and orientation, and nothing else of it changes. |
| MoveAnimations.MoveAxis | src/Animation/MoveAnimation.ts:34 | The axis is +1 or -1 (by `positiveDirection`) at the face's dimension and 0 elsewhere. |
| MoveAnimations.FullAngleMeasure | src/Animation/MoveAnimation.ts:35 | The full angle is a quarter turn in radians per unit of the move's angle, with the opposite sign; it is 0 exactly for angle 0. |
| MoveAnimations.MoveNextAdvances | src/Animation/MoveAnimation.ts:48-65 | A step leaves PENDING and never leaves FINISHED. It reaches FINISHED exactly by the completion test, and then the angle is not updated. |
| MoveAnimations.MoveRunBounded | src/Animation/MoveAnimation.ts:54-65 | The angle turned never exceeds the full angle in absolute value, and a run is PENDING only before its first step. |
| MoveAnimations.ScaledStep | src/Animation/MoveAnimation.ts:52-54 | A step by the share y, taken after the share x, finishes exactly when x + y exceeds 1; otherwise the share x + y has been turned. |
| MoveAnimations.TimedStep | src/Animation/MoveAnimation.ts:52-65 | A timed step keeps the turn on schedule: FINISHED exactly past the duration, and until then turned by total/duration of the full angle. |
| MoveAnimations.MoveTiming | src/Animation/MoveAnimation.ts:52-54 | For a fixed duration, non-negative times and a non-zero angle, the turn is FINISHED exactly once the total time strictly exceeds the duration; until then it has turned total/duration of the full angle. |
| MoveAnimations.MoveExactDurationDoesNotFinish | src/Animation/MoveAnimation.ts:54 | A 300 ms turn stepped three times by 100 ms has turned the full angle but is still MOVING; a fourth step finishes it. |
| MoveAnimations.MoveInstant | src/Animation/MoveAnimation.ts:52-54 | In instant mode the first step turns by the full angle and stays MOVING; the second finishes. |
| MoveAnimations.MoveZeroNeverFinishes | src/Animation/MoveAnimation.ts:54 | A move by angle 0 never finishes and never turns, in either mode. |
| MoveAnimations.SnapCubelets | src/Animation/MoveAnimation.ts:56-58 | Every cubelet of the list shows the new state filed under its initial location. |
| MoveAnimations.RotateCubelets | src/Animation/MoveAnimation.ts:66-70 | Every cubelet's orientation and position is rotated by the same rotation, exactly once. |
| MoveAnimations.MoveAnimation.constructor | src/Animation/MoveAnimation.ts:28-40 | The affected cubelets are, in order, those of the old states that differ from their new state. The axis and full angle are those of the move. The animation starts PENDING at angle 0. |
| MoveAnimations.MoveAnimation.FinishedAfterDuration | src/Animation/MoveAnimation.ts:42-54 | A real move shown with animation is finished exactly when its elapsed times add up to more than the duration, and exactly when `resolve` has been called. |
| MoveAnimations.MoveAnimation.Finish | src/Animation/MoveAnimation.ts:56-61 | Every affected cubelet shows its new state, the state is FINISHED and `resolve` is called once. |
| MoveAnimations.MoveAnimation.Turn | src/Animation/MoveAnimation.ts:65-70 | The angle grows by the step, and every affected cubelet turns by the step angle about the axis. |
| MoveAnimations.MoveAnimation.Step | src/Animation/MoveAnimation.ts:46-74 | Progress follows `MoveNext`. The completing step snaps every affected cubelet to its new state and calls `resolve` once; any other step turns them by the step angle. Only affected cubelets change. |
| BeamAnimations.BeamNextAdvances | src/Animation/BeamAnimation.ts:36-54 | A step leaves PENDING and never moves back. FINISHED is kept. FADING_OUT goes straight to FINISHED only by swapping on the same step. |
| BeamAnimations.SwapOnce | src/Animation/BeamAnimation.ts:42-47 | The swap happens at most once: exactly once when the fade is FADING_IN or FINISHED, never before. |
| BeamAnimations.BeamRunBounded | src/Animation/BeamAnimation.ts:49-58 | With non-negative times the opacity stays in [-1, 1], and the fade is PENDING only before its first step. |
| BeamAnimations.BeamTimedStep | src/Animation/BeamAnimation.ts:40-58 | A timed step keeps the fade on schedule: swapped exactly past half the duration, FINISHED exactly past the duration, opacity -1 + 2·total/duration meanwhile. |
| BeamAnimations.BeamTiming | src/Animation/BeamAnimation.ts:40-49 | For a fixed duration and non-negative times, the swap happens on the first step whose total exceeds D/2, and the finish on the first step whose total exceeds D. |
| BeamAnimations.BeamLongStep | src/Animation/BeamAnimation.ts:42-54 | One step of 250 ms on a 200 ms fade swaps and finishes in the same call. |
| BeamAnimations.BeamInstant | src/Animation/BeamAnimation.ts:40-58 | In instant mode the first step swaps and shows opacity 1 but is FADING_IN, not finished; the second finishes. |
| BeamAnimations.SwapCubelets | src/Animation/BeamAnimation.ts:43-45 | Every cubelet shows the new state filed under its initial location. |
| BeamAnimations.BeamAnimation.constructor | src/Animation/BeamAnimation.ts:21-28 | New states are filed by initial location; the fade starts PENDING at opacity -1. |
| BeamAnimations.BeamAnimation.SwappedOnce | src/Animation/BeamAnimation.ts:42-52 | At most one swap; exactly one in the second half or when finished; so a finished fade has swapped. |
| BeamAnimations.BeamAnimation.FinishedAfterDuration | src/Animation/BeamAnimation.ts:40-52 | Shown with animation, the fade is finished exactly when its times add up to more than the duration, and has swapped exactly when they exceed half of it. |
| BeamAnimations.BeamAnimation.StartAndSwap | src/Animation/BeamAnimation.ts:36-47 | The fade is started. If the opacity would cross 0 while fading out, every cubelet of the realisation shows its new state and the state becomes FADING_IN; otherwise no cubelet changes. |
| BeamAnimations.BeamAnimation.FinishOrFade | src/Animation/BeamAnimation.ts:49-59 | Past 1 the canvas shows 1, the state is FINISHED and `resolve` is called once, with the opacity kept. Otherwise the opacity grows by the step and the canvas shows its absolute value. |
| BeamAnimations.BeamAnimation.Step | src/Animation/BeamAnimation.ts:34-63 | Progress follows `BeamNext` and the canvas shows `DisplayedOpacity`. All cubelets are swapped in one batch exactly on the crossing step; `resolve` is called exactly on the finishing step. |
| Queues.AnimationQueue.constructor | src/AnimationQueue.ts:7-9 | The queue starts empty. |
| Queues.AnimationQueue.GetCurrent | src/AnimationQueue.ts:11-13 | The earliest added animation that has not been removed, or nothing when all have been removed; the queue is not changed. |
| Queues.AnimationQueue.Add | src/AnimationQueue.ts:15-17 | The animation goes to the tail; the waiting animations keep their order. |
| Queues.AnimationQueue.RemoveCurrent | src/AnimationQueue.ts:19-21 | Exactly the head is removed and the rest keep their order; on an empty queue nothing changes. |
| Queues.AnimationQueue.ServedInAddOrder | src/AnimationQueue.ts:11-21 | Animations leave the queue in exactly the order in which they were added, and the waiting ones are the rest of that order. |
| Engine.QueueReadySnoc | src/CubeVisualizer.ts:23-31 | A new, unstepped animation at the tail keeps the queue invariant. |
| Engine.QueueAfterStep | src/CubeVisualizer.ts:78-84 | After the head's step, keeping an unfinished head or dropping a finished one leaves a queue whose invariant holds. |
| Engine.NewAnimation | src/CubeVisualizer.ts:24-28 | An event with a move gives a new move animation and any other event a new beam, fresh and not yet stepped. It is built from the event (`MadeFor`). A turn holds the move's axis and full angle, the event's new states by initial location, and one cubelet per changed old state, in order. A beam holds the event's new states by initial location. |
| Animations.EventTargets | src/Animation/MoveAnimation.ts:30-31 | For an animation built from an event, every cubelet a turn will change comes from an old state of the event. Its target is the event's new state with the same initial location, and that state differs from the old one. Every cubelet a beam swaps gets the event's new state with its initial location. |
| Animations.StepAnimation | src/Animation/MoveAnimation.ts:42-46 | Stepping either kind keeps it valid and records the elapsed time. No other queued animation changes. What the step draws is what that kind's `step` draws (`StepDrawn`): a turn's completing step snaps each changing cubelet to its new state, its other steps turn them by the step angle, and it touches no other cubelet and not the canvas. A beam sets the canvas to the step's opacity and swaps every cubelet exactly on the crossing step. |
| Engine.RetiredAfterDuration | src/CubeVisualizer.ts:78-84 | A removed, animated turn by a non-zero angle, and a removed, animated beam, were stepped with more than the duration in total. |
| Engine.CubeVisualizer.constructor | src/CubeVisualizer.ts:60 | The queue starts empty. |
| Engine.CubeVisualizer.OnStateChanged | src/CubeVisualizer.ts:23-31 | Exactly one new animation for the event goes to the tail of the queue: a turn if it has a move, a beam otherwise. It is built from that event (`MadeFor`), so the states it will put the cubelets into are the event's new states (`EventTargets`). |
| Engine.CubeVisualizer.Enqueue | src/CubeVisualizer.ts:25-27 | The animation is appended and the queue invariant is kept. |
| Engine.CubeVisualizer.Animate | src/CubeVisualizer.ts:62-92 | The first tick only starts the clock. A tick under 1000/60 ms after the last working one changes nothing. A working tick steps only the head with the elapsed time, and the cubelets and canvas show what that step drew (`StepDrawn`). It removes the head exactly when it is then finished, moves `lastTime` on and draws a frame. |
| Engine.CubeVisualizer.Tick | src/CubeVisualizer.ts:78-84 | On an empty queue nothing changes. Otherwise only the head is stepped, the cubelets and canvas show what that step drew (`StepDrawn`), and the head is removed exactly when it is then finished. |
| Engine.CubeVisualizer.StepHead | src/CubeVisualizer.ts:79 | Only the head and what it draws change, as `StepDrawn` says; the queue and the other animations are unchanged. |
| Engine.CubeVisualizer.DropHead | src/CubeVisualizer.ts:80-82 | The finished head leaves the queue, the invariant holds for the rest, and the removed animation is finished. No animation, cubelet or canvas changes. |
| Engine.CubeVisualizer.RemoveHead | src/AnimationQueue.ts:19-21 | The queue loses exactly its head, and no animation, cubelet or canvas changes. |
| Legacy.LegacyStickerFaces | src/CubeVisualizer.ts:133-154 | A first-version cubelet has a sticker facing a dimension exactly when its limit in that dimension is non-zero. |
| Legacy.LegacyStickerOrder | src/CubeVisualizer.ts:133-154 | At most one sticker per dimension, in the order x, y, z. |
| Legacy.LegacyStickerLook | src/CubeVisualizer.ts:133-154 | Each sticker has the colour the newer cubelets give that face and sits half an edge out on that face's side. |
| Legacy.Group.constructor | src/CubeVisualizer.ts:110-160 | `createCubelet`: the initial location is remembered, the stickers are those of the outer faces, and the group sits at the origin's coordinates. |
| Legacy.Group.SetPose | src/CubeVisualizer.ts:212-213 | The group shows exactly the given state. |
| Legacy.Group.Rotate | src/CubeVisualizer.ts:225-226 | Orientation and position are rotated by the same rotation. |
| Legacy.CreateCubelets | src/CubeVisualizer.ts:98-108 | One fresh group per origin, filed under its key; the group under an origin's key has that origin. |
| Legacy.GroupsFor | src/CubeVisualizer.ts:191 | For each state, in order, the group filed under its key, which has the same initial location. |
| Legacy.LegacyScaledStep | src/CubeVisualizer.ts:203-206 | After the share x and a step of share y, the first version completes exactly when x + y exceeds 1. |
| Legacy.LegacyTimedCompletes | src/CubeVisualizer.ts:203-206 | On schedule, a timed step completes the first version exactly when the total passes the duration. |
| Legacy.LegacyTimedStep | src/CubeVisualizer.ts:203-223 | A timed step keeps the first version on schedule. |
| Legacy.LegacyMoveTiming | src/CubeVisualizer.ts:203-223 | With non-negative times, while the total is at most the duration, the first version has turned total/duration of the full angle. |
| Legacy.LegacyMoveAngleAgrees | src/CubeVisualizer.ts:203-223 | Within the duration, both versions of the move have turned by the same angle. |
| Legacy.LegacyMoveCompletesLate | src/CubeVisualizer.ts:203-206 | The first version completes on the step that carries the total strictly past the duration. |
| Legacy.LegacyMoveAgrees | src/CubeVisualizer.ts:203-206 | The step that completes the first version is the step that finishes `MoveAnimation.ts`. |
| Legacy.LegacyMoveInstant | src/CubeVisualizer.ts:203-206 | In instant mode the first step turns by the full angle without completing; the second completes. |
| Legacy.LegacyMoveZeroNeverCompletes | src/CubeVisualizer.ts:203-206 | A move by angle 0 never completes. |
| Legacy.SnapGroups | src/CubeVisualizer.ts:208-214 | Every group shows the new state filed under its initial location. |
| Legacy.RotateGroups | src/CubeVisualizer.ts:224-227 | Every group is turned by the same rotation, exactly once. |
| Legacy.LegacyMoveAnimation.constructor | src/CubeVisualizer.ts:186-197 | The groups that will change are, in order, those of the changed old states. The axis and full angle are those of the move. Nothing has turned yet. |
| Legacy.LegacyMoveAnimation.Snap | src/CubeVisualizer.ts:208-216 | Every affected group shows its new state and `resolve` is called once. |
| Legacy.LegacyMoveAnimation.Turn | src/CubeVisualizer.ts:222-227 | The angle grows by the step and every affected group turns by it. |
| Legacy.LegacyMoveAnimation.Step | src/CubeVisualizer.ts:199-233 | Done exactly when the step angle is longer than what is left. Then the groups snap and `resolve` is called once; otherwise they turn and the angle grows. |
| Legacy.LegacySwapOnce | src/CubeVisualizer.ts:261-270 | `#alreadySwitched` lets the groups switch at most once, and exactly once when it is set. |
| Legacy.LegacyBeamTimedFinishes | src/CubeVisualizer.ts:259-272 | On schedule, a timed step completes the first-version fade exactly when the total passes 1.5 times the duration. |
| Legacy.LegacyBeamTimedStep | src/CubeVisualizer.ts:258-283 | A timed step keeps the first-version fade on schedule. |
| Legacy.LegacyBeamTiming | src/CubeVisualizer.ts:258-283 | With non-negative times, up to 1.5 times the duration the opacity is -1 + 2·total/D, and it has switched exactly past D/2. |
| Legacy.LegacyBeamFinishesLate | src/CubeVisualizer.ts:259-272 | The step after such a run completes the fade exactly when the total passes 1.5 times the duration. |
| Legacy.LegacyBeamOverrun | src/CubeVisualizer.ts:259-283 | Three steps of 100 ms on a 200 ms fade do not complete it, and leave the canvas at opacity 2. |
| Legacy.BeamOverrunCorrected | src/Animation/BeamAnimation.ts:40-52 | The same three steps add up to 300 ms and finish the fade in the newer version. |
| Legacy.LegacyBeamInstant | src/CubeVisualizer.ts:258-272 | In instant mode the first step switches and shows opacity 1 without completing; the second completes. |
| Legacy.SwapGroups | src/CubeVisualizer.ts:262-268 | Every group shows the new state filed under its initial location. |
| Legacy.LegacyBeamAnimation.constructor | src/CubeVisualizer.ts:245-252 | Opacity -1, not switched, new states filed by initial location. |
| Legacy.LegacyBeamAnimation.Switch | src/CubeVisualizer.ts:261-270 | When the opacity would pass 0 and the groups are not yet switched, every group of the visualizer shows its new state and the flag is set; otherwise no group changes. |
| Legacy.LegacyBeamAnimation.FinishOrFade | src/CubeVisualizer.ts:272-287 | Done exactly when the step exceeds `2 - alreadyOpacity`. Then the canvas shows 1 and `resolve` is called once; otherwise the opacity grows and the canvas shows its absolute value. |
| Legacy.LegacyBeamAnimation.Step | src/CubeVisualizer.ts:254-289 | Progress follows `LegacyBeamNext` and the canvas shows `LegacyDisplayed`. The groups switch exactly on the first crossing of 0; done and `resolve` exactly on the completing step. |

## Left out

- Three.js rendering, geometry and materials are left out: the scene, the renderer, the orbit controls, `RoundedBoxBufferGeometry`, `TextGeometry` and the font. A cubelet's meshes are recorded as `Part` values with their colour and placement; the geometry sizes that decide nothing are not kept.
- Quaternion and rotation arithmetic is floating point inside three.js. `setFromAxisAngle`, `applyQuaternion`, `setFromRotationMatrix` and `rotateX`/`rotateY` build terms (`Scene.Quaternion`, `Scene.Point`, `Cubelets.MeshTurn`). So "the cubelet shows its new state" is exact term equality, not a numerical bound.
- Angles, times and opacities are exact reals, not IEEE doubles. A run of steps whose double total falls just short of or just past the duration may behave differently in the browser.
- `Utils.calculateCameraDistance` and src/CubeCamera.ts are left out: they are trigonometric camera placement.
- src/CubeSituation.ts, src/Main.ts, src/index.ts and rollup.config.js are not part of this model. They hold scene wiring, a rendering prototype, re-exports and build configuration.
- `requestAnimationFrame`, `resizeCanvasToDisplaySize`, `controls.update` and `renderer.render` are left out. A tick is a call of `Animate(clock, time)`, and the three drawing calls count as one `renders` increment of the clock.
- `Promise` and `await` are left out: `resolve` is a counter `resolveCalls`. Each event yields exactly one animation, so counting calls per animation is what settling its promise means here.
- The canvas opacity is a real number rather than the string `Math.abs(x).toString()`.
- `Map.values()` iteration order is not modelled: the beam's swap loops run over a set of distinct objects, and each write goes to a different cubelet.
- The newer frame loop is not in the repository. `Engine.CubeVisualizer` follows the loop of src/CubeVisualizer.ts:65-92, stepping the newer animations through `AnimationQueue` and removing the head when `isFinished()`.
- The loop of src/CubeVisualizer.ts over the first-version animations is not modelled separately. It has the same control flow, with `step(time, lastTime)` returning what `isFinished()` returns afterwards. The first-version animations are modelled with their classes and their `step` methods.
- The first-version animations reach the visualizer's `cubelets`, `canvas` and `animationDuration` through a back reference. Here these are constructor parameters, and a group's `userData[INITIAL_LOCATION]` is a constant field.
- MoveAnimations.MoveAnimation and BeamAnimations.BeamAnimation reach the visualizer through a back reference too. They find the cubelets through `visualizer.situation.cubeRealisation` (src/Animation/MoveAnimation.ts:31) and read `visualizer.animationDuration` again on every step (src/Animation/MoveAnimation.ts:52, src/Animation/BeamAnimation.ts:40). Here the realisation and the duration are constants fixed at construction, equal to the visualizer's. A change of the duration while an animation runs is not covered.
- The model library (`@cube-codes/cube-codes-model`) is left out. Its states, vectors and matrices are values with structural equality; coordinates are taken on the half grid, where JavaScript prints them as the model's `NumberToString` does.
- Stepping an animation after it has finished is allowed but nothing is claimed about it. The loop removes a finished animation before the next tick.
- A duration of 0 or less, and negative elapsed times, are excluded by preconditions; in JavaScript they would produce NaN or Infinity. Times are at least 1000/60 ms wherever the loop supplies them.
- The animations' constructors rely on `!` lookups: the cubelets that will change, or every cubelet of the cube, must have a new state and a cubelet under their key. These are preconditions of the constructors and of `OnStateChanged`; the source would throw or proceed with `undefined`.
- MoveAnimations.MoveAnimation.constructor, Legacy.LegacyMoveAnimation.constructor, Engine.NewAnimation and Engine.CubeVisualizer.OnStateChanged require, for an event with a move, that no two old cubelet states share an initial location. The model takes this as a guarantee of the model library, which is not part of this model. The source accepts any old state. If two old states shared an initial location and both differed from the new state, both would map to the same cubelet, and each step would turn that cubelet twice. The model does not cover such a run.
- The `throw` of `positionMesh` and `createNumber` for a dimension outside 0..2 (and three.js's `setComponent` error) is an `Err` result.

## Findings

| source | as written | input that shows it | evidently intended | confidence | as-written member | corrected member |
|---|---|---|---|---|---|---|
| src/CubeVisualizer.ts:259-283 | The first-version fade completes only when the step exceeds `2 - alreadyOpacity`, i.e. when the opacity would pass 2. With animation that is 1.5 times the duration, and until then the canvas gets opacities above 1. | A 200 ms fade stepped three times by 100 ms: after 300 ms it is not done and the canvas opacity is set to 2. | Complete when the opacity would exceed 1, at the duration, as src/Animation/BeamAnimation.ts:49 does. | not executed | Legacy.LegacyBeamOverrun, Legacy.LegacyBeamFinishesLate | Legacy.BeamOverrunCorrected, BeamAnimations.BeamTiming, BeamAnimations.BeamAnimation.Step |
